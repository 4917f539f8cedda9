/** The flat blob container the handlers work on (the "input" container of the
    storage account). Only blob keys matter to the directory convention, so
    the container is its sequence of keys in enumeration order, without
    duplicates.
 */
module BlobContainer {
  import opened Naming

  /** What a single `upload_blob` call does: store the blob, or raise the
      store's error (transport, permission, ...). A failed upload stores
      nothing. */
  datatype WriteFault = Stored | WriteFails(message: string)

  /** What an enumeration does: yield every key, or raise the store's error
      before yielding the key at position `count` (at the end, when `count`
      is past the last key: the request for a further page fails). */
  datatype ListFault = Healthy | FailsAfter(count: nat, message: string)

  /** No key occurs twice. */
  predicate Distinct(s: seq<string>) {
    forall i, j :: 0 <= i < j < |s| ==> s[i] != s[j]
  }

  /** The keys after `upload_blob(key, ..., overwrite=True)`: an existing key is
      overwritten in place, a new one joins the enumeration. */
  function Upsert(keys: seq<string>, key: string): (r: seq<string>)
    ensures forall k :: k in r <==> k == key || k in keys
    ensures Distinct(keys) ==> Distinct(r)
    ensures key in keys ==> r == keys
  {
    if key in keys then keys else keys + [key]
  }

  /** `list_blobs(name_starts_with=prefix)`: the keys under `prefix`, in
      enumeration order. */
  function WithPrefix(keys: seq<string>, prefix: string): (r: seq<string>)
    ensures forall k :: k in r <==> k in keys && StartsWith(k, prefix)
    ensures Distinct(keys) ==> Distinct(r)
    ensures |r| <= |keys|
  {
    if keys == [] then []
    else
      var last := keys[|keys| - 1];
      WithPrefix(keys[..|keys| - 1], prefix) + (if StartsWith(last, prefix) then [last] else [])
  }

  /** The prefix enumeration keeps the store's order: enumerating two runs of
      keys one after the other is enumerating each in turn. */
  lemma {:induction false} WithPrefixAppend(a: seq<string>, b: seq<string>, prefix: string)
    ensures WithPrefix(a + b, prefix) == WithPrefix(a, prefix) + WithPrefix(b, prefix)
    decreases |b|
  {
    if b != [] {
      assert (a + b)[..|a + b| - 1] == a + b[..|b| - 1];
      WithPrefixAppend(a, b[..|b| - 1], prefix);
    } else {
      assert a + b == a;
    }
  }

  /** A key occurs once in a sequence without duplicates. */
  lemma {:induction false} DistinctOccursOnce(s: seq<string>, x: string)
    requires Distinct(s) && x in s
    ensures multiset(s)[x] == 1
    decreases |s|
  {
    var last := s[|s| - 1];
    var init := s[..|s| - 1];
    assert s == init + [last];
    if x == last {
      assert x !in init by {
        forall i | 0 <= i < |init| ensures init[i] != x {
          assert s[i] != s[|s| - 1];
        }
      }
    } else {
      DistinctOccursOnce(init, x);
    }
  }

  /** The container: its keys in enumeration order. */
  class Container {
    var keys: seq<string>

    ghost predicate Valid()
      reads this
    {
      Distinct(keys)
    }

    /** An empty container. */
    constructor ()
      ensures Valid() && keys == []
    {
      keys := [];
    }

    /** `upload_blob(key, data, overwrite=True)`: puts `key`, overwriting the
        blob already stored under it, unless the store raises. */
    method Upload(key: string, fault: WriteFault) returns (failed: bool)
      requires Valid()
      modifies this
      ensures Valid()
      ensures failed == fault.WriteFails?
      ensures keys == if failed then old(keys) else Upsert(old(keys), key)
    {
      failed := fault.WriteFails?;
      if !failed && key !in keys {
        keys := keys + [key];
      }
    }

    /** `list_blobs(name_starts_with=prefix)`. */
    function ListBlobs(prefix: string): (names: seq<string>)
      reads this
      ensures forall k :: k in names <==> k in keys && StartsWith(k, prefix)
    {
      WithPrefix(keys, prefix)
    }
  }
}
