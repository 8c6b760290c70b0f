/**
  * The string operations the route resolver applies to route patterns and paths:
  * removing placeholders, dropping one trailing slash, and splitting on '/'.
  * Strings are `seq<char>`, sequences of Unicode scalar values.
  */
module Paths {

  predicate IsLower(c: char) {
    'a' <= c <= 'z'
  }

  /** A placeholder name as `[a-z]+` matches it: one or more lower-case letters. */
  predicate LowerWord(name: string) {
    |name| > 0 && forall i :: 0 <= i < |name| ==> IsLower(name[i])
  }

  /** Length of the longest prefix of `s` made of lower-case ASCII letters: what `[a-z]+` consumes greedily. */
  function LowerRun(s: string): (n: nat)
    ensures n <= |s|
  {
    if |s| == 0 || !IsLower(s[0]) then 0 else 1 + LowerRun(s[1..])
  }

  /**
    * `pattern.replace(/(:[a-z]+\/?)+/g, '')`: every placeholder unit `:name` (a colon followed
    * by a maximal run of lower-case letters) is removed together with one '/' right after it.
    * A colon not followed by a lower-case letter is kept. The scan is left to right and a
    * removal is never re-examined, exactly as one global regular-expression pass.
    */
  function StripPlaceholders(s: string): (r: string)
    decreases |s|
  {
    if |s| == 0 then ""
    else
      var n := PlaceholderAt(s);
      if n == 0 then [s[0]] + StripPlaceholders(s[1..]) else StripPlaceholders(s[n..])
  }

  /** The length of the placeholder unit `:[a-z]+/?` that starts `s`, or 0 when none starts it. */
  function PlaceholderAt(s: string): (n: nat)
    ensures n <= |s|
    ensures n > 0 ==> n >= 2 && s[0] == ':'
    ensures n == 0 <==> !(|s| > 1 && s[0] == ':' && IsLower(s[1]))
  {
    if |s| > 1 && s[0] == ':' && IsLower(s[1]) then
      var end := 1 + LowerRun(s[1..]);
      if end < |s| && s[end] == '/' then end + 1 else end
    else 0
  }

  /** `LowerRun` is the greedy match of `[a-z]*`: every letter it covers is lower-case and the next one is not. */
  lemma {:induction false} LowerRunMaximal(s: string)
    ensures forall i :: 0 <= i < LowerRun(s) ==> IsLower(s[i])
    ensures LowerRun(s) < |s| ==> !IsLower(s[LowerRun(s)])
  {
    if |s| > 0 && IsLower(s[0]) {
      LowerRunMaximal(s[1..]);
      forall i | 0 < i < LowerRun(s) ensures IsLower(s[i]) {
        assert s[i] == s[1..][i - 1];
      }
    }
  }

  /** Removing placeholders never lengthens a pattern, and a pattern without ':' is its own prefix. */
  lemma {:induction false} StripShrinks(s: string)
    ensures |StripPlaceholders(s)| <= |s|
    ensures ':' !in s ==> StripPlaceholders(s) == s
    decreases |s|
  {
    if |s| > 0 {
      var n := PlaceholderAt(s);
      if n == 0 {
        StripShrinks(s[1..]);
        assert ':' !in s ==> ':' !in s[1..];
        assert [s[0]] + s[1..] == s;
      } else {
        StripShrinks(s[n..]);
      }
    }
  }

  /** Literal text without a colon passes through placeholder removal unchanged. */
  lemma {:induction false} StripKeepsLiteral(lit: string, t: string)
    requires ':' !in lit
    ensures StripPlaceholders(lit + t) == lit + StripPlaceholders(t)
  {
    if |lit| > 0 {
      assert (lit + t)[1..] == lit[1..] + t;
      StripKeepsLiteral(lit[1..], t);
      assert lit == [lit[0]] + lit[1..];
    } else {
      assert lit + t == t;
    }
  }

  /** A placeholder `:name`, with the '/' that may follow it, leaves nothing behind. */
  lemma StripDropsPlaceholder(name: string, tail: string)
    requires LowerWord(name)
    requires |tail| == 0 || !IsLower(tail[0])
    ensures StripPlaceholders([':'] + name + tail)
         == StripPlaceholders(if |tail| > 0 && tail[0] == '/' then tail[1..] else tail)
  {
    var s := [':'] + name + tail;
    var n := PlaceholderAt(s);
    PlaceholderAtOf(name, tail);
    assert StripPlaceholders(s) == StripPlaceholders(s[n..]);
    if |tail| > 0 && tail[0] == '/' {
      assert s[n..] == tail[1..];
    } else {
      assert s[n..] == tail;
    }
  }

  /** The placeholder unit at the start of `:name` + `tail` covers the name and a '/' that follows it. */
  lemma PlaceholderAtOf(name: string, tail: string)
    requires LowerWord(name)
    requires |tail| == 0 || !IsLower(tail[0])
    ensures PlaceholderAt([':'] + name + tail) == 1 + |name| + (if |tail| > 0 && tail[0] == '/' then 1 else 0)
  {
    var s := [':'] + name + tail;
    assert s[0] == ':' && s[1] == name[0];
    assert s[1..] == name + tail;
    LowerRunOf(name, tail);
    var end := 1 + |name|;
    assert end < |s| ==> s[end] == tail[0];
  }

  lemma {:induction false} LowerRunOf(name: string, tail: string)
    requires forall i :: 0 <= i < |name| ==> IsLower(name[i])
    requires |tail| == 0 || !IsLower(tail[0])
    ensures LowerRun(name + tail) == |name|
  {
    if |name| > 0 {
      assert (name + tail)[1..] == name[1..] + tail;
      LowerRunOf(name[1..], tail);
    } else {
      assert name + tail == tail;
    }
  }

  /** `s.replace(/\/$/g, '')`: removes one '/' at the very end, if there is one. */
  function DropTrailingSlash(s: string): (r: string)
    ensures r == s || (s == r + "/")
    ensures |r| > 0 && r[|r| - 1] == '/' ==> s == r + "/"
  {
    if |s| > 0 && s[|s| - 1] == '/' then s[..|s| - 1] else s
  }

  /** `s.split('/')`: the maximal slash-free segments of `s`, empty segments included. */
  function Split(s: string): (parts: seq<string>)
    ensures |parts| >= 1
  {
    if |s| == 0 then [""]
    else
      var rest := Split(s[1..]);
      if s[0] == '/' then [""] + rest else [[s[0]] + rest[0]] + rest[1..]
  }

  /** `parts.join('/')`, the inverse of `Split`. */
  function Join(parts: seq<string>): string {
    if |parts| == 0 then ""
    else if |parts| == 1 then parts[0]
    else parts[0] + "/" + Join(parts[1..])
  }

  predicate SlashFree(parts: seq<string>) {
    forall i :: 0 <= i < |parts| ==> '/' !in parts[i]
  }

  /** Splitting loses nothing: joining the segments back gives the original string. */
  lemma {:induction false} JoinSplit(s: string)
    ensures Join(Split(s)) == s
  {
    if |s| > 0 {
      var rest := Split(s[1..]);
      JoinSplit(s[1..]);
      if s[0] == '/' {
        assert Split(s) == [""] + rest;
        assert ([""] + rest)[1..] == rest;
        assert s == "/" + s[1..];
      } else {
        var parts := [[s[0]] + rest[0]] + rest[1..];
        assert Split(s) == parts;
        if |rest| == 1 {
          assert Join(rest) == rest[0];
          assert s == [s[0]] + s[1..];
        } else {
          assert parts[1..] == rest[1..];
          assert Join(rest) == rest[0] + "/" + Join(rest[1..]);
          assert s == [s[0]] + s[1..];
        }
      }
    }
  }

  /** Every segment `Split` produces is free of '/'. */
  lemma {:induction false} SplitSlashFree(s: string)
    ensures SlashFree(Split(s))
  {
    if |s| > 0 {
      SplitSlashFree(s[1..]);
      var rest := Split(s[1..]);
      if s[0] != '/' {
        assert '/' !in rest[0];
        var parts := [[s[0]] + rest[0]] + rest[1..];
        forall i | 0 <= i < |parts| ensures '/' !in parts[i] {
          if i > 0 { assert parts[i] == rest[i]; }
        }
      } else {
        var parts := [""] + rest;
        forall i | 0 <= i < |parts| ensures '/' !in parts[i] {
          if i > 0 { assert parts[i] == rest[i - 1]; }
        }
      }
    }
  }

  /** A slash-free word followed by '/' becomes the first segment. */
  lemma {:induction false} SplitAfterWord(w: string, t: string)
    requires '/' !in w
    ensures Split(w + "/" + t) == [w] + Split(t)
    ensures Split(w) == [w]
  {
    if |w| == 0 {
      assert w + "/" + t == "/" + t;
      assert ("/" + t)[1..] == t;
    } else {
      assert (w + "/" + t)[1..] == w[1..] + "/" + t;
      assert w[1..] + "/" + t == w[1..] + ("/" + t);
      SplitAfterWord(w[1..], t);
      assert [w[0]] + w[1..] == w;
    }
  }

  /** Joining slash-free segments and splitting again gives the segments back. */
  lemma {:induction false} SplitJoin(parts: seq<string>)
    requires |parts| >= 1 && SlashFree(parts)
    ensures Split(Join(parts)) == parts
  {
    assert '/' !in parts[0];
    if |parts| == 1 {
      SplitAfterWord(parts[0], "");
    } else {
      SplitJoin(parts[1..]);
      SplitAfterWord(parts[0], Join(parts[1..]));
      assert [parts[0]] + parts[1..] == parts;
    }
  }
}
