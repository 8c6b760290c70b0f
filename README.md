# Pixogo router, modelled in Dafny

Pixogo is a small client-side router for server-rendered sites. It turns the page's links into
in-page navigation: a click starts a CSS leave transition, the page for the new location is taken
from a cache or fetched with a POST request, the content container is replaced, and the
callback of the route the path resolves to runs with the path's positional parameters. The
repository ships two builds of the same router:

- `examples/pixogo.js` fetches asynchronously. A cache miss stores `undefined` and issues a
  request; its completion fills the container later. It also keeps a 10-second watchdog timer
  per click and loads the page at once when no transition style exists or both markers are set.
- `lib/pixogo.js` fetches synchronously. A click only starts the leave transition; the page is
  loaded by the `transitionend` that ends it, by `popstate`, or by a direct `navigate` call.

The model has these modules:

- `Paths`: the string operations of the resolver.
  - Placeholder removal (`/(:[a-z]+\/?)+/g`).
  - Dropping one trailing '/'.
  - Splitting on '/' and joining back.
- `Routes`: the route table as an ordered sequence and the resolver `Resolve`, with the
  loop `GetCurrentRoute` proved equal to it.
- `RouteExamples`: resolution over small tables and worked instances.
- `PageCache`: the cache as `map<string, Option<string>>` (`None` is `undefined`), JavaScript
  truthiness of an entry, and what `innerHTML = undefined` displays.
- `Options`: `_extend`.
- `Links`: a link element and `_convertUrls`.
- `ExamplesBuild` and `LibBuild`: each build's state as a value, one step function per event,
  and a class `Pixogo` whose fields hold that state. Each of its methods is proved to perform
  exactly its step function.

Behaviour of the code that a reader may not expect, each proved below:

- A failed fetch is not remembered. In the synchronous build a status other than 200 caches
  `undefined`, so the next visit fetches again (`LibBuild.FailedFetchRefetched`).
- The asynchronous build caches the response text whatever the status. Only an empty text is
  falsy, and only then does the next visit request the page again (`ExamplesBuild.EmptyResponseRefetched`).
- Nothing stops several requests from being in flight at once in the asynchronous build. A late
  response replaces the container whatever the location is by then (`ExamplesBuild.LateResponseFillsContainer`).
- A synchronous request whose transport fails throws out of `navigate` before anything is stored.
  Inside the `transitionend` listener the leave marker is already removed and the enter marker is
  not added, so the enter marker stays as it was and the old page stays in the container. After a
  click made with no marker set, neither marker is left (`LibBuild.NetworkErrorEndsTransition`).

## Model

| member | source | states |
|---|---|---|
| Paths.PlaceholderAt | examples/pixogo.js:170 | a placeholder unit starts with ':' followed by a lower-case letter, and is found exactly when the text starts that way |
| Paths.LowerRunMaximal | examples/pixogo.js:170 | `[a-z]+` is greedy: every letter consumed is lower-case and the next character is not |
| Paths.StripShrinks | examples/pixogo.js:170 | removing placeholders never lengthens a pattern; a pattern without ':' is unchanged |
| Paths.StripKeepsLiteral | examples/pixogo.js:170 | a colon-free literal part before the placeholders is kept verbatim |
| Paths.StripDropsPlaceholder | examples/pixogo.js:170 | a `:name` unit and one '/' right after it are removed, and removal continues after them |
| Paths.PlaceholderAtOf | examples/pixogo.js:170 | the unit at the start of `:name` covers the whole name and one '/' right after it |
| Paths.DropTrailingSlash | examples/pixogo.js:171 | `replace(/\/$/g, '')` removes at most one trailing '/', and removes it when present |
| Paths.Split | examples/pixogo.js:172 | `split('/')` always yields at least one part |
| Paths.JoinSplit | examples/pixogo.js:172 | joining the parts of a split with '/' gives back the string, so empty segments are kept |
| Paths.SplitSlashFree | examples/pixogo.js:172 | no part of a split contains '/' |
| Paths.SplitAfterWord | examples/pixogo.js:172 | a split consumes the first '/'-free word and continues after the separator |
| Paths.SplitJoin | examples/pixogo.js:172 | splitting the join of '/'-free segments gives back the segments |
| Routes.Params | examples/pixogo.js:171-172 | parameters are empty exactly when the remainder without its trailing '/' is empty; otherwise they are '/'-free and join back to that remainder |
| Routes.GetCurrentRoute | examples/pixogo.js:162-178 | the loop with its early returns computes exactly the resolver's result |
| Routes.Callback | examples/pixogo.js:128-130 | the route's callback runs once with the resolved parameters, only when a route resolved and defines one |
| Routes.ExactLookup | examples/pixogo.js:164 | a route found by key is registered under exactly that path |
| Routes.ExactLookupAt | examples/pixogo.js:164 | the key equal to the path is found |
| Routes.ExactLookupMissing | examples/pixogo.js:164 | the exact lookup fails exactly when no key equals the path |
| Routes.ScanAt | examples/pixogo.js:167-175 | the scan returns the first pattern containing ':' whose prefix starts the path, with its parameters |
| Routes.ScanMissing | examples/pixogo.js:167-177 | the scan fails exactly when no pattern matches |
| Routes.ResolveExactKey | examples/pixogo.js:164-165 | a key equal to the path wins with parameters `[]`, whatever patterns precede it |
| Routes.ResolveFirstMatch | examples/pixogo.js:166-174 | with no exact key, the first matching pattern in table order wins, with the parameters taken from the rest of the path |
| Routes.ResolveNotFound | examples/pixogo.js:162-178 | the result is `undefined` exactly when no key equals the path and no pattern matches |
| Routes.PatternPrefix | examples/pixogo.js:170 | the prefix of `lit:name` is `lit` |
| Routes.ParamsOfSegments | examples/pixogo.js:171-173 | the parameters are the path's segments after the prefix, with or without a trailing '/', whatever their number |
| RouteExamples.ResolveOneSegment | examples/pixogo.js:162-178 | beside a home route, `lit:name` resolves `lit` + segment, with or without a trailing '/', to that one segment |
| RouteExamples.PatternBesideHome | examples/pixogo.js:164-174 | beside the home route, a colon-free path under a pattern's prefix resolves to the pattern with the parameters of the rest |
| RouteExamples.ResolveOutsidePrefix | examples/pixogo.js:167-177 | a path outside the literal part is not found |
| RouteExamples.ResolveBlogExamples | examples/pixogo.js:162-178 | `/` gives the home route with `[]`; `/blog/hello-world` and `/blog/hello-world/` give `["hello-world"]`; `/missing` is not found |
| RouteExamples.TwoPlaceholderPrefix | examples/pixogo.js:170 | consecutive placeholders `lit:x/:y` are all removed, leaving `lit` |
| RouteExamples.ResolveSegments | examples/pixogo.js:170-173 | any number of segments after the prefix become the parameters, whatever the placeholder count |
| RouteExamples.ResolveEmptyRemainder | examples/pixogo.js:172 | a path equal to the prefix, with or without '/', gives `[]` |
| RouteExamples.ResolveBlogEdgeCases | examples/pixogo.js:171-172 | `/blog/a//b` gives `["a", "", "b"]`; `/blog/` gives `[]` |
| RouteExamples.ResolvePairExamples | examples/pixogo.js:170-173 | under `/a/:x/:y`, one, two or three segments are all accepted as parameters |
| RouteExamples.ResolvePairOf | examples/pixogo.js:170-173 | under `/a/:x/:y`, `/a/` followed by any segments yields those segments |
| PageCache.Lookup | examples/pixogo.js:126 | a missing key reads as `undefined` |
| PageCache.Cached | examples/pixogo.js:134 | a truthy entry is present and not `undefined` |
| PageCache.InnerHtml | examples/pixogo.js:126 | the container shows the entry's text, and is empty only when the entry is the empty text |
| PageCache.CachedAfterWrite | examples/pixogo.js:134-135 | writing one entry changes the truthiness of no other entry; the written entry is truthy exactly when it is non-empty text |
| Options.Extend | examples/pixogo.js:215-229 | the result's keys are the union of both; option values override; defaults fill the rest |
| Links.Link.constructor | examples/pixogo.js:190-191 | a fresh link has no listener and no flag |
| Links.ConvertUrls | examples/pixogo.js:188-214 | every link ends up flagged; a link gets one listener if it was unflagged, else none, even if listed twice |
| Links.ConvertUrlsTwice | lib/pixogo.js:158-173 | converting twice attaches exactly what converting once does |
| ExamplesBuild.Fill | examples/pixogo.js:125-132 | the container shows the cache entry ("undefined" for `undefined`) and the captured route's callback runs |
| ExamplesBuild.NavigateStep | examples/pixogo.js:120-143 | on a truthy entry, no request and the container shows the page; on a falsy one, only that entry becomes `undefined`, one request is issued, and the container is untouched; without a content element nothing changes |
| ExamplesBuild.Without | examples/pixogo.js:157-160 | a completed request leaves the others in order |
| ExamplesBuild.RespondStep | examples/pixogo.js:157-160 | the response text is cached under the request's path, the container shows it, the route captured at request time runs its callback, the request leaves the pending list, and nothing else changes |
| ExamplesBuild.WithoutTransitionStep | examples/pixogo.js:113-119 | neither marker is left, the timer is cleared, and the page is loaded as by `navigate` |
| ExamplesBuild.TransitionEndStep | examples/pixogo.js:52-62 | after the leave transition, leave is replaced by enter and the current location is loaded; otherwise enter is removed and the timer cleared |
| ExamplesBuild.ClickStep | examples/pixogo.js:192-210 | the location becomes the href; a pending timer is stranded; with a transition style and no enter marker, only leave and a new timer are set; otherwise the state is exactly that after `navigate(href)`, with no marker or timer left |
| ExamplesBuild.PopStateStep | examples/pixogo.js:66-69 | the state is exactly that after `navigate(path)`, with the location set to the path and no marker or timer left |
| ExamplesBuild.TimeoutStep | examples/pixogo.js:198-200 | the current timer fires once and logs; nothing else changes |
| ExamplesBuild.StrayTimeoutStep | examples/pixogo.js:198-200 | a stranded timer fires once and logs; nothing else changes |
| ExamplesBuild.Initial | examples/pixogo.js:27-38 | the router starts with an empty cache, no request, no marker, no pending or stranded timer and nothing logged, holding the given container text, callbacks and location |
| ExamplesBuild.ApplyPreservesConsistent | examples/pixogo.js:52-69 | no event sets both markers, sets a marker without a transition style, or leaves a request without a cache entry or with a route other than its path's |
| ExamplesBuild.RunPreservesConsistent | examples/pixogo.js:52-69 | the same holds after any sequence of events |
| ExamplesBuild.MissThenResponse | examples/pixogo.js:134-137 | a miss leaves the container; its response shows the page and runs the callback; a second visit issues no request |
| ExamplesBuild.EmptyResponseRefetched | examples/pixogo.js:134 | an empty response is falsy, so the next visit requests again |
| ExamplesBuild.LateResponseFillsContainer | examples/pixogo.js:157-160 | after a miss on one path and a move to a cached other path, the late response still replaces the container and runs the first path's callback while the location stays on the other path |
| ExamplesBuild.TransitionCycle | examples/pixogo.js:52-62 | click, then two `transitionend`s: leave, then enter with the new page, then no marker and no timer |
| ExamplesBuild.ClickWithoutTransitionStyle | examples/pixogo.js:205-206 | without a transition style a click loads the page at once |
| ExamplesBuild.ClickDuringEnter | examples/pixogo.js:205-206 | a click during the enter transition loads the page at once |
| ExamplesBuild.DoubleClickStrandsTimer | examples/pixogo.js:198 | a second click during one transition strands the first timer, which still fires after the transitions complete |
| ExamplesBuild.ApplyWithoutContent | examples/pixogo.js:124 | without a content element one event leaves the cache, the container and the callbacks as they were, and issues no request |
| ExamplesBuild.NoContentNoEffect | examples/pixogo.js:124 | without a content element no sequence of events changes the cache, the container or the callbacks run, and no request is issued |
| ExamplesBuild.Defaults | examples/pixogo.js:41-44 | the defaults are `googleAnalyticsID` and `autoScrollToTop` |
| ExamplesBuild.Pixogo.constructor | examples/pixogo.js:26-72 | settings merged from defaults and options; the initial route's callback run; the document's links converted |
| ExamplesBuild.Pixogo.FillRequest | examples/pixogo.js:125-132 | performs `Fill` |
| ExamplesBuild.Pixogo.Navigate | examples/pixogo.js:120-143 | performs `NavigateStep` and reports the navigation as handled |
| ExamplesBuild.Pixogo.OnResponse | examples/pixogo.js:157-160 | performs `RespondStep` |
| ExamplesBuild.Pixogo.NavigateWithoutTransition | examples/pixogo.js:113-119 | performs `WithoutTransitionStep` |
| ExamplesBuild.Pixogo.OnTransitionEnd | examples/pixogo.js:52-62 | performs `TransitionEndStep` |
| ExamplesBuild.Pixogo.OnClick | examples/pixogo.js:192-210 | performs `ClickStep` |
| ExamplesBuild.Pixogo.OnPopState | examples/pixogo.js:66-69 | performs `PopStateStep` |
| ExamplesBuild.Pixogo.OnTimeout | examples/pixogo.js:198-200 | performs `TimeoutStep` |
| ExamplesBuild.Pixogo.OnStrayTimeout | examples/pixogo.js:198-200 | performs `StrayTimeoutStep` |
| LibBuild.GetPage | lib/pixogo.js:119-131 | the page text exactly when the status is 200, `undefined` otherwise |
| LibBuild.NavigateStep | lib/pixogo.js:93-111 | a request is made exactly when the entry is falsy; only that entry may change; the container then shows the entry; the controller runs when the route resolved and defines one; without a content element, or when the transport fails, nothing changes |
| LibBuild.TransitionEndStep | lib/pixogo.js:49-58 | after the leave transition, the state is exactly that after `navigate` at the current location, with leave replaced by enter; when that `navigate` throws, only leave is removed; otherwise only enter is removed |
| LibBuild.ClickStep | lib/pixogo.js:162-170 | only the leave marker and the location change; the page is not swapped |
| LibBuild.PopStateStep | lib/pixogo.js:62-65 | the state is exactly that after `navigate(path)`, with the location set to the path; the markers are untouched |
| LibBuild.FetchCount | lib/pixogo.js:98-99 | a path was fetched zero times exactly when it was never fetched |
| LibBuild.NavigateKeepsCachedPage | lib/pixogo.js:98-99 | `navigate` neither rewrites nor refetches a truthy entry |
| LibBuild.ApplyKeepsCachedPage | lib/pixogo.js:98-99 | no event rewrites or refetches a truthy entry |
| LibBuild.RunKeepsCachedPage | lib/pixogo.js:98-99 | no sequence of events rewrites or refetches a truthy entry |
| LibBuild.FailedFetchRefetched | lib/pixogo.js:98-101 | a request answered with a status other than 200 shows "undefined", and the next visit that gets an answer fetches again |
| LibBuild.SecondVisitFromCache | lib/pixogo.js:98-101 | a page fetched with status 200 and text is served from the cache on the next visit |
| LibBuild.TransitionCycle | lib/pixogo.js:49-58 | click, then two `transitionend`s: leave, then enter with the new page, then no marker (when the page can be fetched) |
| LibBuild.NetworkErrorEndsTransition | lib/pixogo.js:49-58 | after a click made with no marker set, when the page cannot be fetched at the end of the leave transition, neither marker is left, the container and cache are unchanged, and a later answered visit fetches it |
| LibBuild.ClickDuringEnter | lib/pixogo.js:49-58 | a click during the enter transition sets both markers; the next `transitionend` loads the clicked page and keeps enter, and only the one after it clears the marker |
| LibBuild.Defaults | lib/pixogo.js:39-41 | the only default is `googleAnalyticsID` |
| LibBuild.Pixogo.constructor | lib/pixogo.js:26-68 | settings merged from defaults and options; the initial route's controller run; the document's links converted |
| LibBuild.Pixogo.Navigate | lib/pixogo.js:93-111 | performs `NavigateStep`; returns `true`, or ends by the exception exactly when the fetch's transport fails |
| LibBuild.Pixogo.OnTransitionEnd | lib/pixogo.js:49-58 | performs `TransitionEndStep` |
| LibBuild.Pixogo.OnClick | lib/pixogo.js:162-170 | performs `ClickStep` |
| LibBuild.Pixogo.OnPopState | lib/pixogo.js:62-65 | performs `PopStateStep` |

## Left out

- Network I/O: the `XMLHttpRequest` set-up, headers and body. A request's outcome is an input: the response text in the asynchronous build (a transport failure completes with empty text), a `Response` (status and text, or a `NetworkError`) in the synchronous one.
- Each `onreadystatechange` firing writes the cache and fills the container. The model treats one completion per request as a single event, so partial texts from earlier ready states are not modelled.
- Analytics: the Google Analytics script injection in `_init` and the `ga` calls in `_onLoad` use foreign globals. The model assumes `ga` returns normally whenever `googleAnalyticsID` is set; if it is undefined, `_onLoad` throws before the route callback runs and the rest of the handler is skipped.
- Browser calls: `history.pushState`, `window.scrollTo` (and hence the `autoScrollToTop` setting's effect), and the registration of event listeners.
- `_setLinkAsActive` and `_findLinks`: these are CSS-selector queries on the document.
- `_convertUrls` on the new container's links inside `navigate`: the links of fetched content are not modelled.
- The document's links are passed to the constructor.
- `_cssRuleIsDefined` scans the style sheets. Its result `_navigateOnTransition` is a constructor parameter.
- The missing content element: the constructor throws a `TypeError` when it registers the `transitionend` listener, so the classes always have one. The `if (this._contentEl)` guard is modelled by the step functions' `hasContent` configuration.
- Timers have no clock. A timer is pending or not; which pending timer fires first is the order of `Timeout` and `StrayTimeout` events.
- Fields that are never read (`_paused`, `_destroyed`, `_lastRouteResolved`, `_notFoundHandler`, `_defaultHandler`, `_genericHooks`, `_historyAPIUpdateMethod`) and the unused `baseUrl`.
- The route table is an ordered sequence. The ordering of JavaScript object keys (integer-like keys first) is not modelled, and with duplicate keys the first entry wins.
- A route is its name and whether it defines its callback (`onLoad` in one build, `controller` in the other). Callback bodies are not modelled; a run callback is recorded with its parameters.
- `innerHTML` is modelled as the assigned text. HTML parsing and serialisation are not modelled.
- The constructor's initial callback is called unconditionally, so a resolved route without a callback would throw. The constructors therefore require such a route to define one.
- Strings are sequences of Unicode scalar values. JavaScript strings are UTF-16 code units, so lone surrogates are not represented, and lengths differ for characters outside the Basic Multilingual Plane.
- A link's `href` is taken to be a root-relative path equal to the `location.pathname` it produces after `pushState`. URL resolution and percent-encoding are not modelled, so the raw `href` loaded at once by the asynchronous click handler and the `location.pathname` loaded later by `transitionend` are the same string here.
- Route-table and cache keys are taken not to name members inherited from `Object.prototype` (such as `toString`), which `routes[path]` and `_cache[path]` would otherwise find.
