/**
  * The synchronous build (lib/pixogo.js): `navigate` fetches a page with a blocking POST request
  * when its cache entry is falsy and swaps the container at once; a click only starts the leave
  * transition, and the `transitionend` listener loads the page.
  *
  * As in the asynchronous build, the state is a `State` value with one step function per event,
  * and the class `Pixogo` holds it in fields its methods update in place. A request's outcome is
  * an input: the `Response` the server would give.
  */
module LibBuild {
  import opened Wrappers
  import opened Routes
  import opened PageCache
  import opened Options
  import opened Links

  /** The route table, and whether the content element exists. */
  datatype Config = Config(routes: Table, hasContent: bool)

  /**
    * How a blocking request ends: with the HTTP status and the response text, or with the
    * `NetworkError` exception that a synchronous `send` throws when the transport fails.
    */
  datatype Response = Response(status: int, text: string) | NetworkError

  /** `_getPage(path)` once `send` has returned: the response text when the status is 200, `undefined` otherwise. */
  function GetPage(resp: Response): (page: Option<string>)
    requires resp.Response?
    ensures page.Some? <==> resp.status == 200
    ensures page.Some? ==> page.value == resp.text
  {
    if resp.status == 200 then Some(resp.text) else None
  }

  /** How a call ends: with its return value, or by an exception that propagates to the caller. */
  datatype Completion = Returned(value: bool) | Threw

  /**
    * The page cache, the container's text, the controllers run so far, the paths whose requests got
    * an answer, the two marker classes and the location's path.
    */
  datatype State = State(
    cache: Cache,
    content: string,
    calls: seq<Resolved>,
    fetches: seq<string>,
    leaveActive: bool,
    enterActive: bool,
    location: string)

  /**
    * Whether `navigate(path)` ends by an exception: it has to fetch the page and the transport
    * fails, so `send` throws before anything is stored.
    */
  predicate Aborts(cfg: Config, s: State, path: string, resp: Response) {
    cfg.hasContent && !Cached(s.cache, path) && resp.NetworkError?
  }

  /**
    * `navigate(path)`, where `resp` is what the server would answer: a falsy entry is fetched and
    * stored, then the container shows the entry and the route's controller runs. Without a content
    * element nothing happens, and a failed transport aborts the call before any change.
    */
  function NavigateStep(cfg: Config, s: State, path: string, resp: Response): (r: State)
    ensures !cfg.hasContent || Aborts(cfg, s, path, resp) ==> r == s
    ensures cfg.hasContent && !Aborts(cfg, s, path, resp) ==>
      && (r.fetches == s.fetches + [path] <==> !Cached(s.cache, path))
      && (Cached(s.cache, path) ==> r.fetches == s.fetches && r.cache == s.cache)
      && (!Cached(s.cache, path) ==> r.cache == s.cache[path := GetPage(resp)])
      && r.content == InnerHtml(Lookup(r.cache, path))
      && r.calls == s.calls + Callback(Resolve(cfg.routes, path))
    ensures forall p :: p != path ==> Lookup(r.cache, p) == Lookup(s.cache, p)
    ensures r.leaveActive == s.leaveActive && r.enterActive == s.enterActive && r.location == s.location
  {
    if !cfg.hasContent || Aborts(cfg, s, path, resp) then s
    else
      var fetched :=
        if !Cached(s.cache, path) then s.(cache := s.cache[path := GetPage(resp)], fetches := s.fetches + [path])
        else s;
      fetched.(content := InnerHtml(Lookup(fetched.cache, path)),
               calls := s.calls + Callback(Resolve(cfg.routes, path)))
  }

  /**
    * The container's `transitionend` listener: after the leave transition the leave marker is
    * removed, the page at the current location is loaded and the enter marker added (unless the
    * load threw, which ends the listener with the leave marker removed and the enter marker as it
    * was); otherwise the enter marker is removed.
    */
  function TransitionEndStep(cfg: Config, s: State, resp: Response): (r: State)
    ensures s.leaveActive && !Aborts(cfg, s, s.location, resp) ==>
      !r.leaveActive && r.enterActive
      && r == NavigateStep(cfg, s, s.location, resp).(leaveActive := false, enterActive := true)
    ensures s.leaveActive && Aborts(cfg, s, s.location, resp) ==> r == s.(leaveActive := false)
    ensures !s.leaveActive ==> r == s.(enterActive := false)
  {
    if s.leaveActive then
      var left := s.(leaveActive := false);
      if Aborts(cfg, left, left.location, resp) then left
      else NavigateStep(cfg, left, left.location, resp).(enterActive := true)
    else s.(enterActive := false)
  }

  /** A converted link's click listener: only the leave marker and the location change. */
  function ClickStep(s: State, href: string): (r: State)
    ensures r.leaveActive && r.location == href
    ensures r.cache == s.cache && r.content == s.content && r.fetches == s.fetches
    ensures r.enterActive == s.enterActive && r.calls == s.calls
  {
    s.(leaveActive := true, location := href)
  }

  /** The window's `popstate` listener: the browser has moved to `path`, which is loaded; the markers stay. */
  function PopStateStep(cfg: Config, s: State, path: string, resp: Response): (r: State)
    ensures r.location == path && r.leaveActive == s.leaveActive && r.enterActive == s.enterActive
    ensures r == NavigateStep(cfg, s, path, resp).(location := path)
  {
    NavigateStep(cfg, s.(location := path), path, resp)
  }

  /** The events the browser delivers, with the server's answer to any request they cause. */
  datatype Event =
    | Navigate(path: string, navResp: Response)
    | Click(href: string)
    | TransitionEnd(resp: Response)
    | PopState(path: string, popResp: Response)

  function Apply(cfg: Config, s: State, e: Event): State {
    match e
    case Navigate(path, resp) => NavigateStep(cfg, s, path, resp)
    case Click(href) => ClickStep(s, href)
    case TransitionEnd(resp) => TransitionEndStep(cfg, s, resp)
    case PopState(path, resp) => PopStateStep(cfg, s, path, resp)
  }

  function Run(cfg: Config, s: State, events: seq<Event>): State
    decreases |events|
  {
    if events == [] then s else Run(cfg, Apply(cfg, s, events[0]), events[1..])
  }

  /** How often `path` was fetched. */
  function FetchCount(fetches: seq<string>, path: string): (n: nat)
    ensures n <= |fetches|
    ensures n == 0 <==> path !in fetches
  {
    if fetches == [] then 0
    else FetchCount(fetches[..|fetches| - 1], path) + (if fetches[|fetches| - 1] == path then 1 else 0)
  }

  lemma {:induction false} FetchCountAppend(fetches: seq<string>, other: string, path: string)
    ensures FetchCount(fetches + [other], path) == FetchCount(fetches, path) + (if other == path then 1 else 0)
  {
    assert (fetches + [other])[..|fetches + [other]| - 1] == fetches;
  }

  /** `navigate(p)` neither rewrites nor refetches a path whose cache entry is truthy. */
  lemma NavigateKeepsCachedPage(cfg: Config, s: State, p: string, resp: Response, path: string)
    requires Cached(s.cache, path)
    ensures Lookup(NavigateStep(cfg, s, p, resp).cache, path) == Lookup(s.cache, path)
    ensures FetchCount(NavigateStep(cfg, s, p, resp).fetches, path) == FetchCount(s.fetches, path)
  {
    if cfg.hasContent && !Cached(s.cache, p) && resp.Response? {
      FetchCountAppend(s.fetches, p, path);
    }
  }

  /** One event neither rewrites nor refetches a path whose cache entry is truthy. */
  lemma ApplyKeepsCachedPage(cfg: Config, s: State, e: Event, path: string)
    requires Cached(s.cache, path)
    ensures Lookup(Apply(cfg, s, e).cache, path) == Lookup(s.cache, path)
    ensures FetchCount(Apply(cfg, s, e).fetches, path) == FetchCount(s.fetches, path)
  {
    match e
    case Navigate(p, resp) =>
      NavigateKeepsCachedPage(cfg, s, p, resp, path);
    case Click(href) =>
    case TransitionEnd(resp) =>
      if s.leaveActive {
        NavigateKeepsCachedPage(cfg, s.(leaveActive := false), s.location, resp, path);
      }
    case PopState(p, resp) =>
      NavigateKeepsCachedPage(cfg, s.(location := p), p, resp, path);
  }

  /** Once a page is cached with non-empty text, no sequence of events fetches it again or changes it. */
  lemma {:induction false} RunKeepsCachedPage(cfg: Config, s: State, events: seq<Event>, path: string)
    requires Cached(s.cache, path)
    ensures Lookup(Run(cfg, s, events).cache, path) == Lookup(s.cache, path)
    ensures FetchCount(Run(cfg, s, events).fetches, path) == FetchCount(s.fetches, path)
    decreases |events|
  {
    if events != [] {
      ApplyKeepsCachedPage(cfg, s, events[0], path);
      RunKeepsCachedPage(cfg, Apply(cfg, s, events[0]), events[1..], path);
    }
  }

  /**
    * A failed request caches `undefined`: the container shows the text "undefined" and the next
    * visit to the same path fetches again.
    */
  lemma FailedFetchRefetched(cfg: Config, s: State, path: string, failed: Response, retry: Response)
    requires cfg.hasContent && !Cached(s.cache, path) && failed.Response? && failed.status != 200
    ensures var r := NavigateStep(cfg, s, path, failed);
      && r.content == "undefined"
      && (retry.Response? ==> NavigateStep(cfg, r, path, retry).fetches == s.fetches + [path, path])
  {
  }

  /** A page fetched with status 200 and non-empty text is served from the cache on the next visit. */
  lemma SecondVisitFromCache(cfg: Config, s: State, path: string, ok: Response, later: Response)
    requires cfg.hasContent && !Cached(s.cache, path) && ok.Response? && ok.status == 200 && ok.text != ""
    ensures var r := NavigateStep(cfg, s, path, ok);
      && r.content == ok.text
      && NavigateStep(cfg, r, path, later).fetches == s.fetches + [path]
      && NavigateStep(cfg, r, path, later).content == ok.text
  {
  }

  /**
    * The transition: a click marks the leave transition and leaves the page as it is; its end loads
    * the clicked page and marks the enter transition; the end of that removes the enter marker.
    */
  lemma TransitionCycle(cfg: Config, s: State, href: string, resp: Response, unused: Response)
    requires !s.leaveActive && !s.enterActive && !Aborts(cfg, s, href, resp)
    ensures var clicked := ClickStep(s, href);
      && clicked.content == s.content
      && var left := TransitionEndStep(cfg, clicked, resp);
      && !left.leaveActive && left.enterActive && left.location == href
      && left.content == NavigateStep(cfg, s, href, resp).content
      && var entered := TransitionEndStep(cfg, left, unused);
      && !entered.leaveActive && !entered.enterActive && entered == left.(enterActive := false)
  {
  }

  /**
    * After a click made with no marker set, when the page to load at the end of the leave transition
    * cannot be fetched, the listener ends with neither marker set and the old page still in the
    * container. The cache is untouched, so the next `popstate` for that path (or another click and
    * its `transitionend`) tries the request again.
    */
  lemma NetworkErrorEndsTransition(cfg: Config, s: State, href: string, retry: Response)
    requires cfg.hasContent && !s.leaveActive && !s.enterActive && !Cached(s.cache, href)
    ensures var left := TransitionEndStep(cfg, ClickStep(s, href), NetworkError);
      && !left.leaveActive && !left.enterActive
      && left.content == s.content && left.cache == s.cache && left.fetches == s.fetches
      && (retry.Response? ==> PopStateStep(cfg, left, href, retry).fetches == s.fetches + [href])
  {
  }

  /**
    * A click during the enter transition does not load the page at once: both markers are set, and
    * the next `transitionend` loads the clicked page and leaves the enter marker set, so only the
    * one after it ends the transition.
    */
  lemma ClickDuringEnter(cfg: Config, s: State, href: string, resp: Response, unused: Response)
    requires s.enterActive && !s.leaveActive && !Aborts(cfg, s, href, resp)
    ensures var clicked := ClickStep(s, href);
      && clicked.leaveActive && clicked.enterActive && clicked.content == s.content
      && var left := TransitionEndStep(cfg, clicked, resp);
      && !left.leaveActive && left.enterActive
      && left.content == NavigateStep(cfg, s, href, resp).content
      && TransitionEndStep(cfg, left, unused) == left.(enterActive := false)
  {
  }

  /** The defaults `_extend` merges the options into in the constructor. */
  function Defaults(): (d: map<string, Setting>)
    ensures d.Keys == {"googleAnalyticsID"}
  {
    map["googleAnalyticsID" := NullSetting]
  }

  /**
    * A router instance. The content element always exists here: without it the constructor throws
    * when it registers the `transitionend` listener, so no instance comes into being.
    */
  class Pixogo {
    const routes: Table
    const settings: map<string, Setting>
    var cache: Cache
    var content: string
    var calls: seq<Resolved>
    var fetches: seq<string>
    var leaveActive: bool
    var enterActive: bool
    var location: string

    function Cfg(): Config {
      Config(routes, true)
    }

    function View(): State
      reads this
    {
      State(cache, content, calls, fetches, leaveActive, enterActive, location)
    }

    /**
      * `new Pixogo(contentId, routes, options)` on a page at `location` whose container holds
      * `content`: settings from the defaults and options, the controller of the route the location
      * resolves to (which must define one, since it is called unconditionally), then the document's
      * links converted.
      */
    constructor (routes: Table, options: map<string, Setting>, location: string, content: string, links: seq<Link>)
      requires Resolve(routes, location).Some? ==> Resolve(routes, location).value.route.hasCallback
      modifies set l | l in links
      ensures this.routes == routes
      ensures settings.Keys == Defaults().Keys + options.Keys
      ensures forall prop :: prop in options ==> settings[prop] == options[prop]
      ensures forall prop :: prop in Defaults() && prop !in options ==> settings[prop] == Defaults()[prop]
      ensures View() == State(map[], content, Callback(Resolve(routes, location)), [], false, false, location)
      ensures forall l :: l in links ==> l.hasListenerAttached
      ensures forall l :: l in links ==>
        l.clickListeners == old(l.clickListeners) + (if old(l.hasListenerAttached) then 0 else 1)
    {
      this.routes := routes;
      var extended := Extend(Defaults(), options);
      settings := extended;
      cache := map[];
      this.content := content;
      fetches := [];
      leaveActive := false;
      enterActive := false;
      this.location := location;
      var routeObj := GetCurrentRoute(routes, location);
      calls := [];
      if routeObj.Some? {
        calls := [routeObj.value];
      }
      new;
      ConvertUrls(links);
    }

    /**
      * `navigate(path)` with the server answering `resp`: it returns `true`, which tells the caller to
      * prevent the default page load, or ends by the exception of a failed transport.
      */
    method Navigate(path: string, resp: Response) returns (c: Completion)
      modifies this
      ensures View() == NavigateStep(Cfg(), old(View()), path, resp)
      ensures c == if Aborts(Cfg(), old(View()), path, resp) then Threw else Returned(true)
    {
      var routeObj := GetCurrentRoute(routes, path);
      if !Cached(cache, path) {
        if resp.NetworkError? {
          return Threw;
        }
        fetches := fetches + [path];
        cache := cache[path := GetPage(resp)];
      }
      content := InnerHtml(Lookup(cache, path));
      if routeObj.Some? && routeObj.value.route.hasCallback {
        calls := calls + [routeObj.value];
      }
      return Returned(true);
    }

    method OnTransitionEnd(resp: Response)
      modifies this
      ensures View() == TransitionEndStep(Cfg(), old(View()), resp)
    {
      if leaveActive {
        leaveActive := false;
        var c := Navigate(location, resp);
        if c.Threw? {
          return;
        }
        enterActive := true;
      } else {
        enterActive := false;
      }
    }

    method OnClick(href: string)
      modifies this
      ensures View() == ClickStep(old(View()), href)
    {
      leaveActive := true;
      location := href;
    }

    method OnPopState(path: string, resp: Response)
      modifies this
      ensures View() == PopStateStep(Cfg(), old(View()), path, resp)
    {
      location := path;
      var _ := Navigate(path, resp);
    }
  }
}
