/**
  * The page cache `_cache`: a plain object from literal paths to page content. An entry can
  * hold `undefined` (written before a request completes, or after a failed one), so an entry is
  * an `Option<string>` and a missing key reads as `undefined` too.
  */
module PageCache {
  import opened Wrappers

  type Cache = map<string, Option<string>>

  /** `_cache[path]`. */
  function Lookup(cache: Cache, path: string): (v: Option<string>)
    ensures path !in cache ==> v == None
    ensures path in cache ==> v == cache[path]
  {
    if path in cache then cache[path] else None
  }

  /** `!!_cache[path]`: JavaScript truthiness; `undefined` and the empty string are both falsy. */
  predicate Cached(cache: Cache, path: string)
    ensures Cached(cache, path) ==> path in cache && cache[path].Some?
  {
    Lookup(cache, path).Some? && Lookup(cache, path).value != ""
  }

  /** What the container shows after `innerHTML = v`: the text, or the string "undefined" for `undefined`. */
  function InnerHtml(v: Option<string>): (shown: string)
    ensures v.Some? ==> shown == v.value
    ensures shown == "" ==> v == Some("")
  {
    match v
    case Some(text) => text
    case None => "undefined"
  }

  /** Only the entry for `path` can turn truthy or falsy when only that entry is written. */
  lemma CachedAfterWrite(cache: Cache, path: string, v: Option<string>, other: string)
    requires other != path
    ensures Cached(cache[path := v], other) == Cached(cache, other)
    ensures Cached(cache[path := v], path) <==> v.Some? && v.value != ""
  {
  }
}
