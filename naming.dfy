/** The naming convention that fakes folders on a flat blob container.

    A directory `d` exists when the container holds the empty marker blob
    `d + "/.ignore"`; a file `f` of `d` is the blob whose key is `d + "/" + f`.
    Keys are restricted to strings of Unicode scalar values (Python's `str`
    can also hold lone surrogates; the model does not).
 */
module Naming {

  /** The suffix that marks a key as a directory marker (8 characters). */
  const MarkerSuffix: string := "/.ignore"

  /** Python's `s.endswith(suffix)`. */
  predicate EndsWith(s: string, suffix: string) {
    |suffix| <= |s| && s[|s| - |suffix|..] == suffix
  }

  /** Python's `s.startswith(prefix)`; also the store's `name_starts_with` filter. */
  predicate StartsWith(s: string, prefix: string) {
    |prefix| <= |s| && s[..|prefix|] == prefix
  }

  /** `EndsWith` means what `endswith` means: `s` is something followed by
      `suffix`. */
  lemma EndsWithMeans(s: string, suffix: string)
    ensures EndsWith(s, suffix) <==> exists p :: s == p + suffix
  {
    if EndsWith(s, suffix) {
      assert s == s[..|s| - |suffix|] + suffix;
    }
  }

  /** `StartsWith` means what `startswith` means: `s` is `prefix` followed by
      something. */
  lemma StartsWithMeans(s: string, prefix: string)
    ensures StartsWith(s, prefix) <==> exists q :: s == prefix + q
  {
    if StartsWith(s, prefix) {
      assert s == prefix + s[|prefix|..];
    }
  }

  /** Python's `s[n:]` for a non-negative `n`: empty once `n` passes the end. */
  function Drop(s: string, n: nat): (r: string)
    ensures |r| == if n <= |s| then |s| - n else 0
    ensures forall i :: 0 <= i < |r| ==> r[i] == s[n + i]
  {
    if n <= |s| then s[n..] else ""
  }

  /** The listing prefix of directory `d`: `f"{d}/"`. */
  function DirectoryPrefix(d: string): (p: string)
    ensures |p| == |d| + 1 && p[..|d|] == d && p[|d|] == '/'
  {
    d + "/"
  }

  /** The key of the marker blob of directory `d`: `f"{d}/.ignore"`. */
  function MarkerKey(d: string): (key: string)
    ensures EndsWith(key, MarkerSuffix) && StartsWith(key, d)
    ensures |key| == |d| + 8
  {
    assert (d + MarkerSuffix)[..|d|] == d;
    d + MarkerSuffix
  }

  /** The key of file `f` in directory `d`: `f"{d}/{f}"`. */
  function FileKey(d: string, f: string): (key: string)
    ensures StartsWith(key, DirectoryPrefix(d)) && EndsWith(key, f)
    ensures |key| == |d| + 1 + |f|
  {
    assert (DirectoryPrefix(d) + f)[..|d| + 1] == DirectoryPrefix(d);
    assert (DirectoryPrefix(d) + f)[|d| + 1..] == f;
    DirectoryPrefix(d) + f
  }

  /** The directory a marker key stands for: `name[:-8]`. */
  function StripMarker(key: string): (d: string)
    requires EndsWith(key, MarkerSuffix)
    ensures MarkerKey(d) == key
  {
    key[..|key| - |MarkerSuffix|]
  }

  /** Writing the marker of `d` and reading it back gives `d` again. */
  lemma MarkerRoundTrip(d: string)
    ensures EndsWith(MarkerKey(d), MarkerSuffix)
    ensures StripMarker(MarkerKey(d)) == d
  {
  }

  /** A key is the marker of at most one directory. */
  lemma MarkerKeyInjective(d: string, e: string)
    ensures MarkerKey(d) == MarkerKey(e) <==> d == e
  {
    if MarkerKey(d) == MarkerKey(e) {
      MarkerRoundTrip(d);
      MarkerRoundTrip(e);
    }
  }

  /** Stripping the anchored prefix `d + "/"` from a key under it yields the
      file name whose key it is, and conversely. */
  lemma FileKeyRoundTrip(d: string, key: string, f: string)
    requires StartsWith(key, DirectoryPrefix(d))
    ensures Drop(key, |d| + 1) == f <==> key == FileKey(d, f)
  {
  }

  /** Every file key lies under its directory's anchored prefix. */
  lemma FileKeyUnderPrefix(d: string, f: string)
    ensures StartsWith(FileKey(d, f), DirectoryPrefix(d))
    ensures Drop(FileKey(d, f), |d| + 1) == f
  {
  }

  /** Which file names are hidden from a listing: the key `d + "/" + f` ends in
      "/.ignore" exactly when `f` is ".ignore" itself or ends in "/.ignore",
      whatever the directory `d`. */
  lemma HiddenFileName(d: string, f: string)
    ensures EndsWith(FileKey(d, f), MarkerSuffix) <==> f == ".ignore" || EndsWith(f, MarkerSuffix)
  {
    var key := FileKey(d, f);
    if |f| == 7 {
      assert key[|key| - 8..] == "/" + f;
      assert "/" + f == MarkerSuffix <==> f == MarkerSuffix[1..];
    } else if |f| < 7 {
      ShortNameNotHidden(d, f);
    }
  }

  /** With fewer than seven characters, the separator `/` falls inside the last
      eight characters at a place where "/.ignore" holds no `/`. */
  lemma ShortNameNotHidden(d: string, f: string)
    requires |f| < 7
    ensures !EndsWith(FileKey(d, f), MarkerSuffix)
  {
    var key := FileKey(d, f);
    assert key[|d|] == '/';
  }
}
