/** Links and `_convertUrls`, which attaches the navigation click listener to each link once. */
module Links {

  /** An anchor element: its `href`, the `hasListenerAttached` expando, and how many click listeners it carries. */
  class Link {
    const href: string
    var hasListenerAttached: bool
    var clickListeners: nat

    constructor (href: string)
      ensures this.href == href && !hasListenerAttached && clickListeners == 0
    {
      this.href := href;
      hasListenerAttached := false;
      clickListeners := 0;
    }
  }

  /**
    * `_convertUrls(links)`: every link not yet flagged gets one click listener and the flag.
    * A link listed twice is flagged at its first occurrence and gets no second listener.
    */
  method ConvertUrls(links: seq<Link>)
    modifies set l | l in links
    ensures forall l :: l in links ==> l.hasListenerAttached
    ensures forall l :: l in links ==>
      l.clickListeners == old(l.clickListeners) + (if old(l.hasListenerAttached) then 0 else 1)
  {
    var i := 0;
    while i < |links|
      invariant 0 <= i <= |links|
      invariant forall l :: l in links[..i] ==> l.hasListenerAttached
      invariant forall l :: l in links ==>
        l.clickListeners == old(l.clickListeners) + (if old(l.hasListenerAttached) || l !in links[..i] then 0 else 1)
      invariant forall l :: l in links && l !in links[..i] ==> l.hasListenerAttached == old(l.hasListenerAttached)
    {
      var link := links[i];
      if !link.hasListenerAttached {
        link.clickListeners := link.clickListeners + 1;
        link.hasListenerAttached := true;
      }
      assert links[..i + 1] == links[..i] + [link];
      i := i + 1;
    }
    assert links[..i] == links;
  }

  /** Converting the same links twice attaches no more listeners than converting them once. */
  method ConvertUrlsTwice(links: seq<Link>)
    modifies set l | l in links
    ensures forall l :: l in links ==> l.hasListenerAttached
    ensures forall l :: l in links ==>
      l.clickListeners == old(l.clickListeners) + (if old(l.hasListenerAttached) then 0 else 1)
  {
    ConvertUrls(links);
    ConvertUrls(links);
  }
}
