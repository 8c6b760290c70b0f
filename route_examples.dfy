/** Resolution over small route tables: a home page beside one parameterised route, and worked instances. */
module RouteExamples {
  import opened Wrappers
  import opened Paths
  import opened Routes

  /**
    * The table `{"/": home, lit + ":" + name: page}`: a path made of the literal part and one
    * slash-free segment, with or without a trailing '/', resolves to `page` with that segment.
    */
  lemma ResolveOneSegment(home: Route, page: Route, lit: string, name: string, segment: string)
    requires ':' !in lit && LowerWord(name)
    requires segment != "" && '/' !in segment && ':' !in segment
    ensures var t := [("/", home), (lit + [':'] + name, page)];
      && Resolve(t, lit + segment) == Some(Resolved(page, [segment]))
      && Resolve(t, lit + segment + "/") == Some(Resolved(page, [segment]))
  {
    var key := lit + [':'] + name;
    PatternPrefix(lit, name);
    PatternHasColon(lit, name);
    ParamsOfSegments([segment]);
    assert Join([segment]) == segment;
    var bare := lit + segment;
    var slashed := bare + "/";
    ColonFreeConcat(lit, segment);
    ColonFreeConcat(bare, "/");
    assert bare != "/" by { if |bare| == 1 { assert bare == segment; } }
    assert bare[|lit|..] == segment;
    PatternBesideHome(home, page, key, lit, bare);
    assert slashed[|lit|..] == segment + "/";
    PatternBesideHome(home, page, key, lit, slashed);
  }

  /** Beside the home route, a colon-free path other than "/" under a pattern's prefix resolves to that pattern. */
  lemma PatternBesideHome(home: Route, page: Route, key: string, lit: string, path: string)
    requires ':' in key && StripPlaceholders(key) == lit && lit <= path
    requires ':' !in path && path != "/"
    ensures Resolve([("/", home), (key, page)], path) == Some(Resolved(page, Params(path[|lit|..])))
  {
    var t := [("/", home), (key, page)];
    forall j | 0 <= j < |t| ensures t[j].0 != path { if j == 0 { assert t[j].0 == "/"; } }
    assert !Matches(t[0].0, path) by { assert t[0].0 == "/"; }
    ResolveFirstMatch(t, path, 1);
  }

  /** In the same table, a path other than "/" that does not start with the literal part is not found. */
  lemma ResolveOutsidePrefix(home: Route, page: Route, lit: string, name: string, path: string)
    requires ':' !in lit && LowerWord(name)
    requires path != "/" && !(lit <= path)
    ensures Resolve([("/", home), (lit + [':'] + name, page)], path) == None
  {
    var key := lit + [':'] + name;
    var t := [("/", home), (key, page)];
    PatternPrefix(lit, name);
    assert lit <= key;
    forall j | 0 <= j < |t| ensures t[j].0 != path && !Matches(t[j].0, path) { if j == 0 { assert t[j].0 == "/"; } }
    ResolveNotFound(t, path);
  }

  /** The routes `{"/": Home, "/blog/:slug": Blog}`: the home page, a blog post with or without a trailing slash, a missing page. */
  lemma ResolveBlogExamples(home: Route, blog: Route)
    ensures var t := [("/", home), ("/blog/:slug", blog)];
      && Resolve(t, "/") == Some(Resolved(home, []))
      && Resolve(t, "/blog/hello-world") == Some(Resolved(blog, ["hello-world"]))
      && Resolve(t, "/blog/hello-world/") == Some(Resolved(blog, ["hello-world"]))
      && Resolve(t, "/missing") == None
  {
    assert "/blog/" + [':'] + "slug" == "/blog/:slug";
    ResolveExactKey([("/", home), ("/blog/:slug", blog)], "/", 0);
    ResolveOneSegment(home, blog, "/blog/", "slug", "hello-world");
    assert "/blog/" + "hello-world" == "/blog/hello-world";
    assert "/blog/" + "hello-world" + "/" == "/blog/hello-world/";
    assert !("/blog/" <= "/missing") by { assert "/blog/"[1] != "/missing"[1]; }
    ResolveOutsidePrefix(home, blog, "/blog/", "slug", "/missing");
  }

  /** A pattern with two consecutive placeholders, `lit + ":x/:y"`, keeps only its literal part as prefix. */
  lemma TwoPlaceholderPrefix(lit: string, x: string, y: string)
    requires ':' !in lit && LowerWord(x) && LowerWord(y)
    ensures StripPlaceholders(lit + [':'] + x + "/" + [':'] + y) == lit
  {
    var last := [':'] + y;
    var rest := [':'] + x + "/" + last;
    assert lit + [':'] + x + "/" + [':'] + y == lit + rest;
    StripKeepsLiteral(lit, rest);
    StripDropsSlashedPlaceholder(x, last);
    assert last == [':'] + y + "";
    StripDropsPlaceholder(y, "");
  }

  /** A placeholder followed by '/' is removed together with the '/'. */
  lemma StripDropsSlashedPlaceholder(name: string, t: string)
    requires LowerWord(name)
    ensures StripPlaceholders([':'] + name + "/" + t) == StripPlaceholders(t)
  {
    var tail := "/" + t;
    assert [':'] + name + "/" + t == [':'] + name + tail;
    StripDropsPlaceholder(name, tail);
    assert tail[1..] == t;
  }

  /** A key of the form `lit:rest` contains ':', so the scan tries it. */
  lemma PatternHasColon(lit: string, rest: string)
    ensures ':' in lit + [':'] + rest
  {
    assert (lit + [':'] + rest)[|lit|] == ':';
  }

  lemma ColonFreeConcat(a: string, b: string)
    requires ':' !in a && ':' !in b
    ensures ':' !in a + b
  {
    forall i | 0 <= i < |a + b| ensures (a + b)[i] != ':' {
      if i < |a| { assert (a + b)[i] == a[i]; } else { assert (a + b)[i] == b[i - |a|]; }
    }
  }

  lemma ResolveSegmentsAt(page: Route, key: string, lit: string, segments: seq<string>, rest: string)
    requires ':' in key && StripPlaceholders(key) == lit && ':' !in lit
    requires |segments| >= 1 && SlashFree(segments) && segments[|segments| - 1] != ""
    requires rest == Join(segments) || rest == Join(segments) + "/"
    requires ':' !in rest
    ensures Resolve([(key, page)], lit + rest) == Some(Resolved(page, segments))
  {
    var t := [(key, page)];
    var path := lit + rest;
    ColonFreeConcat(lit, rest);
    assert t[0].0 != path;
    assert path[|lit|..] == rest;
    ResolveFirstMatch(t, path, 0);
    ParamsOfSegments(segments);
  }

  /**
    * A single pattern whose prefix is `lit`: the path `lit` followed by any slash-free segments
    * (empty ones included, the last one not empty) yields exactly those segments, with or without
    * a trailing '/', whatever the number of placeholders in the pattern.
    */
  lemma ResolveSegments(page: Route, key: string, lit: string, segments: seq<string>)
    requires ':' in key && StripPlaceholders(key) == lit && ':' !in lit
    requires |segments| >= 1 && SlashFree(segments) && segments[|segments| - 1] != ""
    requires ':' !in Join(segments)
    ensures Resolve([(key, page)], lit + Join(segments)) == Some(Resolved(page, segments))
    ensures Resolve([(key, page)], lit + Join(segments) + "/") == Some(Resolved(page, segments))
  {
    ResolveSegmentsAt(page, key, lit, segments, Join(segments));
    ResolveSegmentsSlashed(page, key, lit, segments);
  }

  lemma ResolveSegmentsSlashed(page: Route, key: string, lit: string, segments: seq<string>)
    requires ':' in key && StripPlaceholders(key) == lit && ':' !in lit
    requires |segments| >= 1 && SlashFree(segments) && segments[|segments| - 1] != ""
    requires ':' !in Join(segments)
    ensures Resolve([(key, page)], lit + Join(segments) + "/") == Some(Resolved(page, segments))
  {
    var j := Join(segments);
    ColonFreeConcat(j, "/");
    ResolveSegmentsAt(page, key, lit, segments, j + "/");
    assert lit + j + "/" == lit + (j + "/");
  }

  /** When nothing follows the prefix (or only '/'), there are no parameters at all. */
  lemma ResolveEmptyRemainder(page: Route, key: string, lit: string)
    requires ':' in key && StripPlaceholders(key) == lit && ':' !in lit
    ensures Resolve([(key, page)], lit) == Some(Resolved(page, []))
    ensures Resolve([(key, page)], lit + "/") == Some(Resolved(page, []))
  {
    var t := [(key, page)];
    forall path | path == lit || path == lit + "/"
      ensures Resolve(t, path) == Some(Resolved(page, []))
    {
      assert ':' !in path by {
        forall i | 0 <= i < |path| ensures path[i] != ':' {
          if i < |lit| { assert path[i] == lit[i]; }
        }
      }
      assert t[0].0 != path;
      ResolveFirstMatch(t, path, 0);
      assert path[|lit|..] == "" || path[|lit|..] == "/";
    }
  }

  /** `/blog/:slug`: empty segments are kept; `/blog/` gives no parameters. */
  lemma ResolveBlogEdgeCases(blog: Route)
    ensures var t := [("/blog/:slug", blog)];
      && Resolve(t, "/blog/a//b") == Some(Resolved(blog, ["a", "", "b"]))
      && Resolve(t, "/blog/") == Some(Resolved(blog, []))
  {
    var key := "/blog/" + [':'] + "slug";
    BlogEdgeCasesOf(blog, key);
    assert "/blog/" + "a//b" == "/blog/a//b";
    assert key == "/blog/:slug";
  }

  lemma BlogEdgeCasesOf(blog: Route, key: string)
    requires key == "/blog/" + [':'] + "slug"
    ensures Resolve([(key, blog)], "/blog/" + "a//b") == Some(Resolved(blog, ["a", "", "b"]))
    ensures Resolve([(key, blog)], "/blog/") == Some(Resolved(blog, []))
  {
    BlogKey(key);
    assert Join(["a", "", "b"]) == "a//b";
    ResolveSegments(blog, key, "/blog/", ["a", "", "b"]);
    ResolveEmptyRemainder(blog, key, "/blog/");
  }

  /** The key `/blog/:slug` is a pattern whose prefix is `/blog/`. */
  lemma BlogKey(key: string)
    requires key == "/blog/" + [':'] + "slug"
    ensures ':' in key && StripPlaceholders(key) == "/blog/"
  {
    PatternPrefix("/blog/", "slug");
    PatternHasColon("/blog/", "slug");
  }

  /** `/a/:x/:y`: parameters in path order, as many as the path has segments. */
  lemma ResolvePairExamples(pair: Route)
    ensures var t := [("/a/:x/:y", pair)];
      && Resolve(t, "/a/1/2") == Some(Resolved(pair, ["1", "2"]))
      && Resolve(t, "/a/1") == Some(Resolved(pair, ["1"]))
      && Resolve(t, "/a/1/2/3") == Some(Resolved(pair, ["1", "2", "3"]))
  {
    var key := "/a/" + [':'] + "x" + "/" + [':'] + "y";
    assert Join(["1", "2"]) == "1/2";
    ResolvePairOf(pair, key, ["1", "2"]);
    assert "/a/" + "1/2" == "/a/1/2";
    assert Join(["1"]) == "1";
    ResolvePairOf(pair, key, ["1"]);
    assert "/a/" + "1" == "/a/1";
    assert Join(["1", "2", "3"]) == "1/2/3";
    ResolvePairOf(pair, key, ["1", "2", "3"]);
    assert "/a/" + "1/2/3" == "/a/1/2/3";
    assert key == "/a/:x/:y";
  }

  /** The key `/a/:x/:y` is a pattern whose prefix is `/a/`. */
  lemma PairKey(key: string)
    requires key == "/a/" + [':'] + "x" + "/" + [':'] + "y"
    ensures ':' in key && StripPlaceholders(key) == "/a/"
  {
    TwoPlaceholderPrefix("/a/", "x", "y");
    assert key[3] == ':';
  }

  /** Under `/a/:x/:y`, the path `/a/` followed by segments yields those segments. */
  lemma ResolvePairOf(pair: Route, key: string, segments: seq<string>)
    requires key == "/a/" + [':'] + "x" + "/" + [':'] + "y"
    requires |segments| >= 1 && SlashFree(segments) && segments[|segments| - 1] != ""
    requires ':' !in Join(segments)
    ensures Resolve([(key, pair)], "/a/" + Join(segments)) == Some(Resolved(pair, segments))
  {
    PairKey(key);
    ResolveSegments(pair, key, "/a/", segments);
  }
}
