/**
  * The route table and the resolver `_getCurrentRoute`, identical in both builds.
  * The table is the caller's route object, with its keys in enumeration order.
  */
module Routes {
  import opened Wrappers
  import opened Paths

  /** A route definition; `hasCallback` says whether it defines `onLoad` (examples build) or `controller` (lib build). */
  datatype Route = Route(name: string, hasCallback: bool)

  /** What the resolver returns, and what a route callback is invoked with. */
  datatype Resolved = Resolved(route: Route, params: seq<string>)

  /** Route keys (literal paths or patterns with `:name` placeholders) with their routes, in registration order. */
  type Table = seq<(string, Route)>

  /** `routes[path]`: the route registered under exactly this key. A JavaScript object has no duplicate keys; the first entry wins here. */
  function ExactLookup(table: Table, path: string): (r: Option<Route>)
    ensures r.Some? ==> (path, r.value) in table
  {
    if |table| == 0 then None
    else if table[0].0 == path then Some(table[0].1)
    else ExactLookup(table[1..], path)
  }

  /** A pattern key is tried (it contains ':') and its prefix, the key with its placeholders removed, starts the path (`indexOf(prefix) === 0`). */
  predicate Matches(key: string, path: string) {
    ':' in key && StripPlaceholders(key) <= path
  }

  /**
    * The positional parameters taken from what follows the prefix: one trailing '/' dropped,
    * the rest split on '/'; nothing at all gives no parameters.
    */
  function Params(rest: string): (ps: seq<string>)
    ensures ps == [] <==> DropTrailingSlash(rest) == ""
    ensures ps != [] ==> Join(ps) == DropTrailingSlash(rest) && SlashFree(ps)
  {
    var trimmed := DropTrailingSlash(rest);
    if trimmed == "" then []
    else
      JoinSplit(trimmed);
      SplitSlashFree(trimmed);
      Split(trimmed)
  }

  /** The parameters of `path` under pattern `key`; `path.replace(prefix, '')` removes the first occurrence, which is the leading one. */
  function ParamsFor(key: string, path: string): seq<string>
    requires StripPlaceholders(key) <= path
  {
    Params(path[|StripPlaceholders(key)|..])
  }

  /** The pattern scan: the first matching pattern, in table order. */
  function Scan(table: Table, path: string): Option<Resolved> {
    if |table| == 0 then None
    else if Matches(table[0].0, path) then Some(Resolved(table[0].1, ParamsFor(table[0].0, path)))
    else Scan(table[1..], path)
  }

  /** The resolver's specification: an exact key first, then the pattern scan, otherwise not found. */
  function Resolve(table: Table, path: string): Option<Resolved> {
    match ExactLookup(table, path)
    case Some(route) => Some(Resolved(route, []))
    case None => Scan(table, path)
  }

  /** `_getCurrentRoute(path)`: the lookup by key, then the `for..in` scan with its early return. */
  method GetCurrentRoute(table: Table, path: string) returns (r: Option<Resolved>)
    ensures r == Resolve(table, path)
  {
    var exact := ExactLookup(table, path);
    if exact.Some? {
      return Some(Resolved(exact.value, []));
    }
    var i := 0;
    while i < |table|
      invariant 0 <= i <= |table|
      invariant Scan(table[i..], path) == Scan(table, path)
    {
      var (routeStr, route) := table[i];
      if ':' in routeStr {
        var prefix := StripPlaceholders(routeStr);
        if prefix <= path {
          var paramsStr := DropTrailingSlash(path[|prefix|..]);
          var params := [];
          if paramsStr != "" {
            params := Split(paramsStr);
          }
          return Some(Resolved(route, params));
        }
      }
      assert table[i..][1..] == table[i + 1..];
      i := i + 1;
    }
    return None;
  }

  /**
    * The callback invocation guarded by `routeObj && routeObj.route && routeObj.route.onLoad`:
    * the route's callback runs once with the resolved parameters, and only when a route resolved
    * and defines one.
    */
  function Callback(routeObj: Option<Resolved>): (calls: seq<Resolved>)
    ensures |calls| <= 1
    ensures calls != [] <==> routeObj.Some? && routeObj.value.route.hasCallback
    ensures calls != [] ==> calls[0] == routeObj.value
  {
    match routeObj
    case Some(res) => if res.route.hasCallback then [res] else []
    case None => []
  }

  lemma {:induction false} ExactLookupAt(table: Table, path: string, i: nat)
    requires i < |table| && table[i].0 == path
    requires forall j :: 0 <= j < i ==> table[j].0 != path
    ensures ExactLookup(table, path) == Some(table[i].1)
  {
    if i > 0 {
      assert table[1..][i - 1] == table[i];
      ExactLookupAt(table[1..], path, i - 1);
    }
  }

  lemma {:induction false} ExactLookupMissing(table: Table, path: string)
    ensures ExactLookup(table, path) == None <==> forall j :: 0 <= j < |table| ==> table[j].0 != path
  {
    if |table| > 0 {
      ExactLookupMissing(table[1..], path);
      assert forall j :: 1 <= j < |table| ==> table[j] == table[1..][j - 1];
    }
  }

  lemma {:induction false} ScanAt(table: Table, path: string, i: nat)
    requires i < |table| && Matches(table[i].0, path)
    requires forall j :: 0 <= j < i ==> !Matches(table[j].0, path)
    ensures Scan(table, path) == Some(Resolved(table[i].1, ParamsFor(table[i].0, path)))
  {
    if i > 0 {
      assert table[1..][i - 1] == table[i];
      ScanAt(table[1..], path, i - 1);
    }
  }

  lemma {:induction false} ScanMissing(table: Table, path: string)
    ensures Scan(table, path) == None <==> forall j :: 0 <= j < |table| ==> !Matches(table[j].0, path)
  {
    if |table| > 0 {
      ScanMissing(table[1..], path);
      assert forall j :: 1 <= j < |table| ==> table[j] == table[1..][j - 1];
    }
  }

  /** A literal key equal to the path wins with no parameters, whatever patterns precede it. */
  lemma ResolveExactKey(table: Table, path: string, i: nat)
    requires i < |table| && table[i].0 == path
    requires forall j :: 0 <= j < i ==> table[j].0 != path
    ensures Resolve(table, path) == Some(Resolved(table[i].1, []))
  {
    ExactLookupAt(table, path, i);
  }

  /**
    * With no exact key, the first pattern (in table order) whose prefix starts the path wins,
    * and its parameters come from the rest of the path.
    */
  lemma ResolveFirstMatch(table: Table, path: string, i: nat)
    requires forall j :: 0 <= j < |table| ==> table[j].0 != path
    requires i < |table| && Matches(table[i].0, path)
    requires forall j :: 0 <= j < i ==> !Matches(table[j].0, path)
    ensures Resolve(table, path) == Some(Resolved(table[i].1, ParamsFor(table[i].0, path)))
  {
    ExactLookupMissing(table, path);
    ScanAt(table, path, i);
  }

  /** Resolution fails exactly when no key equals the path and no pattern's prefix starts it. */
  lemma ResolveNotFound(table: Table, path: string)
    ensures Resolve(table, path) == None
        <==> forall j :: 0 <= j < |table| ==> table[j].0 != path && !Matches(table[j].0, path)
  {
    ExactLookupMissing(table, path);
    ScanMissing(table, path);
  }

  /** A pattern key ending in placeholders, such as `/blog/:slug`, has the literal part before them as its prefix. */
  lemma PatternPrefix(lit: string, name: string)
    requires ':' !in lit
    requires LowerWord(name)
    ensures StripPlaceholders(lit + [':'] + name) == lit
  {
    assert lit + [':'] + name == lit + ([':'] + name + "");
    StripKeepsLiteral(lit, [':'] + name + "");
    StripDropsPlaceholder(name, "");
  }

  /** Parameters are the '/'-separated segments after the prefix, empty ones kept; their number is never checked. */
  lemma ParamsOfSegments(segments: seq<string>)
    requires |segments| >= 1 && SlashFree(segments) && segments[|segments| - 1] != ""
    ensures Params(Join(segments)) == segments
    ensures Params(Join(segments) + "/") == segments
  {
    SplitJoin(segments);
    JoinNoTrailingSlash(segments);
    var j := Join(segments);
    assert DropTrailingSlash(j) == j;
    assert (j + "/")[..|j|] == j;
    assert DropTrailingSlash(j + "/") == j;
  }

  /** The join of segments whose last one is non-empty and slash-free does not end in '/'. */
  lemma JoinNoTrailingSlash(segments: seq<string>)
    requires |segments| >= 1 && SlashFree(segments) && segments[|segments| - 1] != ""
    ensures |Join(segments)| > 0 && Join(segments)[|Join(segments)| - 1] != '/'
  {
    JoinEndsWithLast(segments);
    var j := Join(segments);
    var last := segments[|segments| - 1];
    assert j[|j| - 1] == last[|last| - 1];
    assert '/' !in last;
  }

  lemma {:induction false} JoinEndsWithLast(segments: seq<string>)
    requires |segments| >= 1
    ensures var j, last := Join(segments), segments[|segments| - 1];
      |last| <= |j| && j[|j| - |last|..] == last
  {
    if |segments| > 1 {
      JoinEndsWithLast(segments[1..]);
      var rest := Join(segments[1..]);
      var last := segments[|segments| - 1];
      assert Join(segments) == segments[0] + "/" + rest;
      assert (segments[0] + "/" + rest)[|segments[0] + "/" + rest| - |last|..] == rest[|rest| - |last|..];
    }
  }
}
