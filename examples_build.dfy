/**
  * The asynchronous build (examples/pixogo.js): navigation fills the container from the page
  * cache or issues a POST request whose completion fills it later, and the container's two marker
  * classes `page-leave-active` / `page-enter-active` drive the page transition together with a
  * 10-second watchdog timer.
  *
  * The router's observable state is a `State` value; each event handler is a step function on it,
  * and the class `Pixogo` holds the same state in fields that its methods update in place.
  */
module ExamplesBuild {
  import opened Wrappers
  import opened Routes
  import opened PageCache
  import opened Options
  import opened Links

  /**
    * What the router is constructed with: the route table, whether the content element exists,
    * and `_navigateOnTransition` (whether a transition style for the marker classes was found).
    */
  datatype Config = Config(routes: Table, hasContent: bool, navigateOnTransition: bool)

  /** A request in flight: its path and the route resolved when it was issued, which `fillRequest` closes over. */
  datatype Request = Request(path: string, routeObj: Option<Resolved>)

  /**
    * The router's state: the page cache, the container's text, the route callbacks run so far,
    * the requests in flight, the two marker classes, whether the timer held in `transitionTimeout`
    * is still pending, how many earlier timers were overwritten while pending (they can no
    * longer be cleared), how many timeout messages were logged, and the location's path.
    */
  datatype State = State(
    cache: Cache,
    content: string,
    calls: seq<Resolved>,
    pending: seq<Request>,
    leaveActive: bool,
    enterActive: bool,
    timeoutArmed: bool,
    strayTimeouts: nat,
    timeoutLogs: nat,
    location: string)

  /** `fillRequest`: the container shows the cache entry and the captured route's callback runs. */
  function Fill(s: State, path: string, routeObj: Option<Resolved>): (r: State)
    ensures r.content == InnerHtml(Lookup(s.cache, path))
    ensures r.calls == s.calls + Callback(routeObj)
    ensures r.(content := s.content, calls := s.calls) == s
  {
    s.(content := InnerHtml(Lookup(s.cache, path)), calls := s.calls + Callback(routeObj))
  }

  /**
    * `navigate(path)`: on a truthy cache entry the container is filled at once; otherwise the entry
    * becomes `undefined` (the value `_getPage` returns) and a request is issued. Without a
    * content element nothing happens.
    */
  function NavigateStep(cfg: Config, s: State, path: string): (r: State)
    ensures !cfg.hasContent ==> r == s
    ensures cfg.hasContent && Cached(s.cache, path) ==>
      r.cache == s.cache && r.pending == s.pending && r.content == s.cache[path].value
      && r.calls == s.calls + Callback(Resolve(cfg.routes, path))
    ensures cfg.hasContent && !Cached(s.cache, path) ==>
      r.cache.Keys == s.cache.Keys + {path} && r.cache[path] == None
      && (forall p :: p in s.cache && p != path ==> r.cache[p] == s.cache[p])
      && r.pending == s.pending + [Request(path, Resolve(cfg.routes, path))]
      && r.content == s.content && r.calls == s.calls
    ensures r.(cache := s.cache, content := s.content, calls := s.calls, pending := s.pending) == s
  {
    if !cfg.hasContent then s
    else if Cached(s.cache, path) then Fill(s, path, Resolve(cfg.routes, path))
    else s.(cache := s.cache[path := None], pending := s.pending + [Request(path, Resolve(cfg.routes, path))])
  }

  /** The requests in flight without the `i`-th. */
  function Without(rs: seq<Request>, i: nat): (r: seq<Request>)
    requires i < |rs|
    ensures |r| == |rs| - 1
    ensures forall k :: 0 <= k < i ==> r[k] == rs[k]
    ensures forall k :: i <= k < |r| ==> r[k] == rs[k + 1]
  {
    rs[..i] + rs[i + 1..]
  }

  /**
    * The `onreadystatechange` callback of the `i`-th request: the response text is cached under the
    * request's path and `fillRequest` runs, whatever the location is by now.
    */
  function RespondStep(s: State, i: nat, responseText: string): (r: State)
    requires i < |s.pending|
    ensures r.cache == s.cache[s.pending[i].path := Some(responseText)]
    ensures r.content == responseText
    ensures r.calls == s.calls + Callback(s.pending[i].routeObj)
    ensures r.pending == Without(s.pending, i)
    ensures r.(cache := s.cache, content := s.content, calls := s.calls, pending := s.pending) == s
  {
    var req := s.pending[i];
    Fill(s.(cache := s.cache[req.path := Some(responseText)], pending := Without(s.pending, i)), req.path, req.routeObj)
  }

  /** `_navigateWithoutTransition(path)`: both markers removed, `navigate(path)`, the current timer cleared. */
  function WithoutTransitionStep(cfg: Config, s: State, path: string): (r: State)
    ensures !r.leaveActive && !r.enterActive && !r.timeoutArmed
    ensures r == NavigateStep(cfg, s, path).(leaveActive := false, enterActive := false, timeoutArmed := false)
  {
    NavigateStep(cfg, s.(leaveActive := false, enterActive := false), path).(timeoutArmed := false)
  }

  /**
    * The container's `transitionend` listener: after the leave transition the page at the current
    * location is loaded and the enter transition starts; after the enter transition the marker is
    * removed and the timer cleared.
    */
  function TransitionEndStep(cfg: Config, s: State): (r: State)
    ensures s.leaveActive ==>
      !r.leaveActive && r.enterActive && r.timeoutArmed == s.timeoutArmed
      && r.(leaveActive := s.leaveActive, enterActive := s.enterActive) == NavigateStep(cfg, s, s.location)
    ensures !s.leaveActive ==> r == s.(enterActive := false, timeoutArmed := false)
  {
    if s.leaveActive then NavigateStep(cfg, s.(leaveActive := false), s.location).(enterActive := true)
    else s.(enterActive := false, timeoutArmed := false)
  }

  /**
    * A converted link's click listener: the leave marker is added, a new timer replaces the one in
    * `transitionTimeout` (which, if still pending, can no longer be cleared), the location becomes
    * `href`; when no transition style exists or both markers are now set, the page is loaded at once.
    */
  function ClickStep(cfg: Config, s: State, href: string): (r: State)
    ensures r.location == href
    ensures r.strayTimeouts == s.strayTimeouts + (if s.timeoutArmed then 1 else 0)
    ensures cfg.navigateOnTransition && !s.enterActive ==>
      r == s.(leaveActive := true, timeoutArmed := true, strayTimeouts := r.strayTimeouts, location := href)
    ensures !cfg.navigateOnTransition || s.enterActive ==>
      !r.leaveActive && !r.enterActive && !r.timeoutArmed
      && r.cache == NavigateStep(cfg, s, href).cache && r.content == NavigateStep(cfg, s, href).content
      && r.pending == NavigateStep(cfg, s, href).pending && r.calls == NavigateStep(cfg, s, href).calls
      && r == NavigateStep(cfg, s, href).(leaveActive := false, enterActive := false, timeoutArmed := false,
                                          strayTimeouts := r.strayTimeouts, location := href)
  {
    var armed := s.(leaveActive := true, timeoutArmed := true,
                    strayTimeouts := if s.timeoutArmed then s.strayTimeouts + 1 else s.strayTimeouts,
                    location := href);
    if (armed.enterActive && armed.leaveActive) || !cfg.navigateOnTransition then
      WithoutTransitionStep(cfg, armed, href)
    else
      armed
  }

  /** The window's `popstate` listener: the browser has moved to `path`, which is loaded without a transition. */
  function PopStateStep(cfg: Config, s: State, path: string): (r: State)
    ensures r.location == path && !r.leaveActive && !r.enterActive && !r.timeoutArmed
    ensures r == NavigateStep(cfg, s, path).(location := path, leaveActive := false, enterActive := false, timeoutArmed := false)
  {
    WithoutTransitionStep(cfg, s.(location := path), path)
  }

  /** The timer in `transitionTimeout` fires and logs its message. */
  function TimeoutStep(s: State): (r: State)
    requires s.timeoutArmed
    ensures !r.timeoutArmed && r.timeoutLogs == s.timeoutLogs + 1
    ensures r.(timeoutArmed := s.timeoutArmed, timeoutLogs := s.timeoutLogs) == s
  {
    s.(timeoutArmed := false, timeoutLogs := s.timeoutLogs + 1)
  }

  /** An overwritten timer fires and logs its message. */
  function StrayTimeoutStep(s: State): (r: State)
    requires s.strayTimeouts > 0
    ensures r.strayTimeouts == s.strayTimeouts - 1 && r.timeoutLogs == s.timeoutLogs + 1
    ensures r.(strayTimeouts := s.strayTimeouts, timeoutLogs := s.timeoutLogs) == s
  {
    s.(strayTimeouts := s.strayTimeouts - 1, timeoutLogs := s.timeoutLogs + 1)
  }

  /** The events the browser delivers to the router. */
  datatype Event =
    | Navigate(path: string)
    | Click(href: string)
    | TransitionEnd
    | PopState(path: string)
    | Respond(index: nat, responseText: string)
    | Timeout
    | StrayTimeout

  /** One event; an event that cannot occur in `s` (no such request, no pending timer) leaves it as is. */
  function Apply(cfg: Config, s: State, e: Event): State {
    match e
    case Navigate(path) => NavigateStep(cfg, s, path)
    case Click(href) => ClickStep(cfg, s, href)
    case TransitionEnd => TransitionEndStep(cfg, s)
    case PopState(path) => PopStateStep(cfg, s, path)
    case Respond(i, text) => if i < |s.pending| then RespondStep(s, i, text) else s
    case Timeout => if s.timeoutArmed then TimeoutStep(s) else s
    case StrayTimeout => if s.strayTimeouts > 0 then StrayTimeoutStep(s) else s
  }

  function Run(cfg: Config, s: State, events: seq<Event>): State
    decreases |events|
  {
    if events == [] then s else Run(cfg, Apply(cfg, s, events[0]), events[1..])
  }

  /**
    * What holds between events: the two markers are never set together and only when a transition
    * style exists; every request in flight has an entry in the cache and carries the route its path
    * resolves to; without a content element nothing is requested.
    */
  predicate Consistent(cfg: Config, s: State) {
    && !(s.leaveActive && s.enterActive)
    && (s.leaveActive || s.enterActive ==> cfg.navigateOnTransition)
    && (forall k :: 0 <= k < |s.pending| ==>
          s.pending[k].path in s.cache && s.pending[k].routeObj == Resolve(cfg.routes, s.pending[k].path))
    && (!cfg.hasContent ==> s.pending == [])
  }

  /** The state right after construction. */
  function Initial(location: string, content: string, calls: seq<Resolved>): (s: State)
    ensures s.cache == map[] && s.pending == [] && !s.leaveActive && !s.enterActive
    ensures !s.timeoutArmed && s.strayTimeouts == 0 && s.timeoutLogs == 0
    ensures s.content == content && s.calls == calls && s.location == location
  {
    State(map[], content, calls, [], false, false, false, 0, 0, location)
  }

  lemma InitialConsistent(cfg: Config, location: string, content: string, calls: seq<Resolved>)
    ensures Consistent(cfg, Initial(location, content, calls))
  {
  }

  lemma NavigatePreservesConsistent(cfg: Config, s: State, path: string)
    requires Consistent(cfg, s)
    ensures Consistent(cfg, NavigateStep(cfg, s, path))
  {
    var r := NavigateStep(cfg, s, path);
    if cfg.hasContent && !Cached(s.cache, path) {
      forall k | 0 <= k < |r.pending|
        ensures r.pending[k].path in r.cache && r.pending[k].routeObj == Resolve(cfg.routes, r.pending[k].path)
      {
        if k < |s.pending| {
          assert r.pending[k] == s.pending[k];
        }
      }
    }
  }

  /** Every event keeps the router consistent. */
  lemma {:induction false} ApplyPreservesConsistent(cfg: Config, s: State, e: Event)
    requires Consistent(cfg, s)
    ensures Consistent(cfg, Apply(cfg, s, e))
  {
    match e
    case Navigate(path) =>
      NavigatePreservesConsistent(cfg, s, path);
    case Click(href) =>
      var armed := s.(leaveActive := true, timeoutArmed := true,
                      strayTimeouts := if s.timeoutArmed then s.strayTimeouts + 1 else s.strayTimeouts,
                      location := href);
      if s.enterActive || !cfg.navigateOnTransition {
        NavigatePreservesConsistent(cfg, armed.(leaveActive := false, enterActive := false), href);
      }
    case TransitionEnd =>
      if s.leaveActive {
        NavigatePreservesConsistent(cfg, s.(leaveActive := false), s.location);
      }
    case PopState(path) =>
      NavigatePreservesConsistent(cfg, s.(location := path, leaveActive := false, enterActive := false), path);
    case Respond(i, text) =>
      if i < |s.pending| {
        var r := RespondStep(s, i, text);
        forall k | 0 <= k < |r.pending|
          ensures r.pending[k].path in r.cache && r.pending[k].routeObj == Resolve(cfg.routes, r.pending[k].path)
        {
          if k < i {
            assert r.pending[k] == s.pending[k];
          } else {
            assert r.pending[k] == s.pending[k + 1];
          }
        }
      }
    case Timeout =>
    case StrayTimeout =>
  }

  /** Any sequence of events keeps the router consistent. */
  lemma {:induction false} RunPreservesConsistent(cfg: Config, s: State, events: seq<Event>)
    requires Consistent(cfg, s)
    ensures Consistent(cfg, Run(cfg, s, events))
    decreases |events|
  {
    if events != [] {
      ApplyPreservesConsistent(cfg, s, events[0]);
      RunPreservesConsistent(cfg, Apply(cfg, s, events[0]), events[1..]);
    }
  }

  /**
    * A cache miss issues a request and leaves the container as it was; the response fills the
    * container with the page and runs the route's callback; a later visit to the same path is
    * served from the cache without a new request.
    */
  lemma MissThenResponse(cfg: Config, s: State, path: string, page: string)
    requires cfg.hasContent && !Cached(s.cache, path) && page != ""
    ensures var missed := NavigateStep(cfg, s, path);
      && missed.content == s.content
      && |missed.pending| == |s.pending| + 1
      && var done := RespondStep(missed, |s.pending|, page);
      && done.content == page
      && done.cache == s.cache[path := Some(page)]
      && done.pending == s.pending
      && done.calls == s.calls + Callback(Resolve(cfg.routes, path))
      && NavigateStep(cfg, done, path).pending == s.pending
      && NavigateStep(cfg, done, path).content == page
  {
    var missed := NavigateStep(cfg, s, path);
    assert Without(missed.pending, |s.pending|) == s.pending;
  }

  /** An empty response is cached but is falsy, so the next visit requests the page again. */
  lemma EmptyResponseRefetched(cfg: Config, s: State, i: nat)
    requires cfg.hasContent && i < |s.pending|
    ensures var done := RespondStep(s, i, "");
      |NavigateStep(cfg, done, s.pending[i].path).pending| == |done.pending| + 1
  {
  }

  /**
    * A response that arrives after the user has moved on still replaces the container: the page
    * shown is the one requested earlier, not the one at the current location.
    */
  lemma LateResponseFillsContainer(cfg: Config, s: State, first: string, second: string, page: string)
    requires cfg.hasContent && !Cached(s.cache, first) && Cached(s.cache, second) && first != second
    ensures var moved := PopStateStep(cfg, NavigateStep(cfg, s, first), second);
      && moved.location == second && moved.content == s.cache[second].value
      && |moved.pending| == |s.pending| + 1 && moved.pending[|s.pending|].path == first
      && var late := RespondStep(moved, |s.pending|, page);
      && late.location == second && late.content == page
      && late.calls == moved.calls + Callback(Resolve(cfg.routes, first))
  {
    var missed := NavigateStep(cfg, s, first);
    assert Cached(missed.cache, second);
  }

  /**
    * The full transition: a click starts the leave transition without touching the page; its end
    * loads the clicked page and starts the enter transition; the end of that clears the marker and
    * the timer.
    */
  lemma TransitionCycle(cfg: Config, s: State, href: string)
    requires cfg.navigateOnTransition && Consistent(cfg, s) && !s.enterActive
    ensures var clicked := ClickStep(cfg, s, href);
      && clicked.leaveActive && !clicked.enterActive && clicked.timeoutArmed && clicked.location == href
      && clicked.content == s.content && clicked.cache == s.cache
      && var left := TransitionEndStep(cfg, clicked);
      && !left.leaveActive && left.enterActive && left.timeoutArmed
      && left.cache == NavigateStep(cfg, s, href).cache && left.content == NavigateStep(cfg, s, href).content
      && var entered := TransitionEndStep(cfg, left);
      && !entered.leaveActive && !entered.enterActive && !entered.timeoutArmed
      && entered.content == left.content
  {
  }

  /** Without a transition style a click loads the page at once and leaves no marker or timer behind. */
  lemma ClickWithoutTransitionStyle(cfg: Config, s: State, href: string)
    requires !cfg.navigateOnTransition
    ensures var r := ClickStep(cfg, s, href);
      && !r.leaveActive && !r.enterActive && !r.timeoutArmed && r.location == href
      && r.content == NavigateStep(cfg, s, href).content
  {
  }

  /** A click while the enter transition runs finds both markers set and loads the page at once. */
  lemma ClickDuringEnter(cfg: Config, s: State, href: string)
    requires s.enterActive
    ensures var r := ClickStep(cfg, s, href);
      && !r.leaveActive && !r.enterActive && !r.timeoutArmed
      && r.cache == NavigateStep(cfg, s, href).cache
  {
  }

  /**
    * Two clicks during one leave transition overwrite `transitionTimeout`: the first timer can no
    * longer be cleared, so it fires and logs even after the transitions complete.
    */
  lemma DoubleClickStrandsTimer(cfg: Config, s: State, first: string, second: string)
    requires cfg.navigateOnTransition && !s.enterActive && !s.timeoutArmed
    ensures var r := ClickStep(cfg, ClickStep(cfg, s, first), second);
      && r.strayTimeouts == s.strayTimeouts + 1 && r.location == second
      && var settled := TransitionEndStep(cfg, TransitionEndStep(cfg, r));
      && !settled.timeoutArmed && settled.strayTimeouts == s.strayTimeouts + 1
      && StrayTimeoutStep(settled).timeoutLogs == s.timeoutLogs + 1
  {
  }

  /** Without a content element one event leaves the cache, the container and the callbacks as they were. */
  lemma ApplyWithoutContent(cfg: Config, s: State, e: Event)
    requires !cfg.hasContent && s.pending == []
    ensures var r := Apply(cfg, s, e);
      r.cache == s.cache && r.content == s.content && r.calls == s.calls && r.pending == []
  {
  }

  /**
    * Without a content element no sequence of events touches the page: the cache, the container
    * and the callbacks run stay as they were, and no request is ever issued.
    */
  lemma {:induction false} NoContentNoEffect(cfg: Config, s: State, events: seq<Event>)
    requires !cfg.hasContent && s.pending == []
    ensures var r := Run(cfg, s, events);
      r.cache == s.cache && r.content == s.content && r.calls == s.calls && r.pending == []
    decreases |events|
  {
    if events != [] {
      ApplyWithoutContent(cfg, s, events[0]);
      NoContentNoEffect(cfg, Apply(cfg, s, events[0]), events[1..]);
    }
  }

  /** The defaults `_extend` merges the options into in the constructor. */
  function Defaults(): (d: map<string, Setting>)
    ensures d.Keys == {"googleAnalyticsID", "autoScrollToTop"}
  {
    map["googleAnalyticsID" := NullSetting, "autoScrollToTop" := BoolSetting(true)]
  }

  /**
    * A router instance. The content element always exists here: without it the constructor throws
    * when it registers the `transitionend` listener, so no instance comes into being.
    */
  class Pixogo {
    const routes: Table
    const navigateOnTransition: bool
    const settings: map<string, Setting>
    var cache: Cache
    var content: string
    var calls: seq<Resolved>
    var pending: seq<Request>
    var leaveActive: bool
    var enterActive: bool
    var timeoutArmed: bool
    var strayTimeouts: nat
    var timeoutLogs: nat
    var location: string

    function Cfg(): Config {
      Config(routes, true, navigateOnTransition)
    }

    function View(): State
      reads this
    {
      State(cache, content, calls, pending, leaveActive, enterActive, timeoutArmed, strayTimeouts, timeoutLogs, location)
    }

    /**
      * `new Pixogo(contentId, routes, options)` on a page at `location` whose container holds
      * `content`: settings from the defaults and options, the callback of the route the location
      * resolves to (which must define one, since it is called unconditionally), then the
      * document's links converted.
      */
    constructor (routes: Table, navigateOnTransition: bool, options: map<string, Setting>,
                 location: string, content: string, links: seq<Link>)
      requires Resolve(routes, location).Some? ==> Resolve(routes, location).value.route.hasCallback
      modifies set l | l in links
      ensures this.routes == routes && this.navigateOnTransition == navigateOnTransition
      ensures settings.Keys == Defaults().Keys + options.Keys
      ensures forall prop :: prop in options ==> settings[prop] == options[prop]
      ensures forall prop :: prop in Defaults() && prop !in options ==> settings[prop] == Defaults()[prop]
      ensures View() == Initial(location, content, Callback(Resolve(routes, location)))
      ensures Consistent(Cfg(), View())
      ensures forall l :: l in links ==> l.hasListenerAttached
      ensures forall l :: l in links ==>
        l.clickListeners == old(l.clickListeners) + (if old(l.hasListenerAttached) then 0 else 1)
    {
      this.routes := routes;
      this.navigateOnTransition := navigateOnTransition;
      var extended := Extend(Defaults(), options);
      settings := extended;
      cache := map[];
      this.content := content;
      pending := [];
      leaveActive := false;
      enterActive := false;
      timeoutArmed := false;
      strayTimeouts := 0;
      timeoutLogs := 0;
      this.location := location;
      var routeObj := GetCurrentRoute(routes, location);
      calls := [];
      if routeObj.Some? {
        calls := [routeObj.value];
      }
      new;
      InitialConsistent(Cfg(), location, content, calls);
      ConvertUrls(links);
    }

    /** `fillRequest`, the closure `navigate` builds over `path` and `routeObj`. */
    method FillRequest(path: string, routeObj: Option<Resolved>)
      modifies this
      ensures View() == Fill(old(View()), path, routeObj)
    {
      content := InnerHtml(Lookup(cache, path));
      if routeObj.Some? && routeObj.value.route.hasCallback {
        calls := calls + [routeObj.value];
      }
    }

    /** `navigate(path)`; the result tells the caller to prevent the default page load. */
    method Navigate(path: string) returns (handled: bool)
      modifies this
      ensures View() == NavigateStep(Cfg(), old(View()), path)
      ensures handled
    {
      var routeObj := GetCurrentRoute(routes, path);
      if !Cached(cache, path) {
        cache := cache[path := None];
        pending := pending + [Request(path, routeObj)];
      } else {
        FillRequest(path, routeObj);
      }
      return true;
    }

    /** The `onreadystatechange` callback of the `i`-th request in flight. */
    method OnResponse(i: nat, responseText: string)
      requires i < |pending|
      modifies this
      ensures View() == RespondStep(old(View()), i, responseText)
    {
      var req := pending[i];
      cache := cache[req.path := Some(responseText)];
      pending := Without(pending, i);
      FillRequest(req.path, req.routeObj);
    }

    method NavigateWithoutTransition(path: string)
      modifies this
      ensures View() == WithoutTransitionStep(Cfg(), old(View()), path)
    {
      leaveActive := false;
      enterActive := false;
      var _ := Navigate(path);
      timeoutArmed := false;
    }

    method OnTransitionEnd()
      modifies this
      ensures View() == TransitionEndStep(Cfg(), old(View()))
    {
      if leaveActive {
        leaveActive := false;
        var _ := Navigate(location);
        enterActive := true;
      } else {
        enterActive := false;
        timeoutArmed := false;
      }
    }

    method OnClick(href: string)
      modifies this
      ensures View() == ClickStep(Cfg(), old(View()), href)
    {
      leaveActive := true;
      if timeoutArmed {
        strayTimeouts := strayTimeouts + 1;
      }
      timeoutArmed := true;
      location := href;
      if (enterActive && leaveActive) || !navigateOnTransition {
        NavigateWithoutTransition(href);
      }
    }

    method OnPopState(path: string)
      modifies this
      ensures View() == PopStateStep(Cfg(), old(View()), path)
    {
      location := path;
      NavigateWithoutTransition(path);
    }

    method OnTimeout()
      requires timeoutArmed
      modifies this
      ensures View() == TimeoutStep(old(View()))
    {
      timeoutArmed := false;
      timeoutLogs := timeoutLogs + 1;
    }

    method OnStrayTimeout()
      requires strayTimeouts > 0
      modifies this
      ensures View() == StrayTimeoutStep(old(View()))
    {
      strayTimeouts := strayTimeouts - 1;
      timeoutLogs := timeoutLogs + 1;
    }
  }
}
