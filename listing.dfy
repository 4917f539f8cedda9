/** What the two listing handlers compute, as functions of the container's
    keys, and what those listings promise.
 */
module Listing {
  import opened Naming
  import opened BlobContainer

  /** The directories `list_directories` reports for an enumeration: each key
      ending in "/.ignore", with that suffix removed, in enumeration order. */
  function DirectoriesOf(names: seq<string>): (dirs: seq<string>)
    ensures |dirs| <= |names|
    ensures forall x :: x in dirs ==> MarkerKey(x) in names
  {
    if names == [] then []
    else
      var name := names[|names| - 1];
      DirectoriesOf(names[..|names| - 1]) + (if EndsWith(name, MarkerSuffix) then [StripMarker(name)] else [])
  }

  /** The file names `list_files_in_directory` keeps from the enumeration of
      the keys under `d + "/"`: markers are skipped, the first `|d| + 1`
      characters are cut off, and names left empty are dropped. */
  function FilesIn(names: seq<string>, d: string): (files: seq<string>)
    ensures |files| <= |names|
    ensures forall r :: r in files ==> r != ""
  {
    if names == [] then []
    else
      var name := names[|names| - 1];
      var file := Drop(name, |d| + 1);
      FilesIn(names[..|names| - 1], d) + (if !EndsWith(name, MarkerSuffix) && file != "" then [file] else [])
  }

  /** The files listed for directory `d` in a container holding `keys`. */
  function ListedFiles(keys: seq<string>, d: string): (files: seq<string>)
    ensures |files| <= |keys|
    ensures forall r :: r in files ==> r != ""
  {
    FilesIn(WithPrefix(keys, DirectoryPrefix(d)), d)
  }

  // ---------------------------------------------------------------------------
  // list_directories

  /** The directory listing follows enumeration order. */
  lemma {:induction false} DirectoriesOfAppend(a: seq<string>, b: seq<string>)
    ensures DirectoriesOf(a + b) == DirectoriesOf(a) + DirectoriesOf(b)
    decreases |b|
  {
    if b == [] {
      assert a + b == a;
    } else {
      assert (a + b)[..|a + b| - 1] == a + b[..|b| - 1];
      DirectoriesOfAppend(a, b[..|b| - 1]);
    }
  }

  /** `d` is listed as a directory exactly when its marker key is in the
      enumeration; keys without the suffix never contribute. */
  lemma {:induction false} DirectoriesOfMembers(names: seq<string>, d: string)
    ensures d in DirectoriesOf(names) <==> MarkerKey(d) in names
    decreases |names|
  {
    if names != [] {
      var name := names[|names| - 1];
      var init := names[..|names| - 1];
      assert names == init + [name];
      DirectoriesOfMembers(init, d);
      if name == MarkerKey(d) {
        MarkerRoundTrip(d);
      }
    }
  }

  /** A container without duplicate keys lists every directory once. */
  lemma {:induction false} DirectoriesOfDistinct(names: seq<string>)
    requires Distinct(names)
    ensures Distinct(DirectoriesOf(names))
    decreases |names|
  {
    if names != [] {
      var name := names[|names| - 1];
      var init := names[..|names| - 1];
      assert Distinct(init);
      DirectoriesOfDistinct(init);
      if EndsWith(name, MarkerSuffix) {
        var d := StripMarker(name);
        DirectoriesOfMembers(init, d);
        assert name !in init by {
          forall i | 0 <= i < |init| ensures init[i] != name {
            assert names[i] != names[|names| - 1];
          }
        }
        AppendFresh(DirectoriesOf(init), d);
      }
    }
  }

  /** After the marker of `d` is written with overwrite, the directory listing
      holds `d`, and holds it exactly once. */
  lemma CreatedDirectoryListedOnce(keys: seq<string>, d: string)
    requires Distinct(keys)
    ensures multiset(DirectoriesOf(Upsert(keys, MarkerKey(d))))[d] == 1
  {
    var after := Upsert(keys, MarkerKey(d));
    DirectoriesOfMembers(after, d);
    DirectoriesOfDistinct(after);
    DistinctOccursOnce(DirectoriesOf(after), d);
  }

  /** Uploading a file named ".ignore" into `d` writes the marker of `d`, so
      `d` becomes a listed directory. */
  lemma UploadingIgnoreCreatesDirectory(keys: seq<string>, d: string)
    ensures d in DirectoriesOf(Upsert(keys, FileKey(d, ".ignore")))
  {
    assert FileKey(d, ".ignore") == MarkerKey(d);
    DirectoriesOfMembers(Upsert(keys, MarkerKey(d)), d);
  }

  // ---------------------------------------------------------------------------
  // list_files_in_directory

  /** The file listing follows enumeration order. */
  lemma {:induction false} FilesInAppend(a: seq<string>, b: seq<string>, d: string)
    ensures FilesIn(a + b, d) == FilesIn(a, d) + FilesIn(b, d)
    decreases |b|
  {
    if b == [] {
      assert a + b == a;
    } else {
      assert (a + b)[..|a + b| - 1] == a + b[..|b| - 1];
      FilesInAppend(a, b[..|b| - 1], d);
    }
  }

  /** Over keys under `d + "/"`, `r` is listed exactly when it is not empty,
      its key is enumerated and that key is not a marker. */
  lemma {:induction false} FilesInMembers(names: seq<string>, d: string, r: string)
    requires forall k :: k in names ==> StartsWith(k, DirectoryPrefix(d))
    ensures r in FilesIn(names, d) <==>
              r != "" && FileKey(d, r) in names && !EndsWith(FileKey(d, r), MarkerSuffix)
    decreases |names|
  {
    if names != [] {
      var name := names[|names| - 1];
      var init := names[..|names| - 1];
      assert names == init + [name];
      FilesInMembers(init, d, r);
      FileKeyRoundTrip(d, name, r);
    }
  }

  /** Listing the files of `d` yields exactly the non-empty names `r` whose key
      `d + "/" + r` is in the container, except ".ignore" and names ending in
      "/.ignore". */
  lemma ListedFilesMembers(keys: seq<string>, d: string, r: string)
    ensures r in ListedFiles(keys, d) <==>
              r != "" && r != ".ignore" && !EndsWith(r, MarkerSuffix) && FileKey(d, r) in keys
  {
    var under := WithPrefix(keys, DirectoryPrefix(d));
    FilesInMembers(under, d, r);
    FileKeyUnderPrefix(d, r);
    HiddenFileName(d, r);
  }

  /** The listing is not limited to the files directly in `d`: the key of file
      `f` in directory `d/sub` is listed under `d` as `sub/f`, unless `f` is a
      hidden name. */
  lemma NestedKeyListed(keys: seq<string>, d: string, sub: string, f: string)
    requires FileKey(FileKey(d, sub), f) in keys
    requires f != ".ignore" && !EndsWith(f, MarkerSuffix)
    ensures FileKey(sub, f) in ListedFiles(keys, d)
  {
    var r := FileKey(sub, f);
    assert FileKey(d, r) == FileKey(FileKey(d, sub), f);
    HiddenFileName(sub, f);
    assert r[|sub|] == '/';
    assert '/' !in ".ignore";
    ListedFilesMembers(keys, d, r);
  }

  /** File "x" of directory "a/b" is listed under directory "a" as "b/x". */
  lemma NestedExample(keys: seq<string>)
    requires "a/b/x" in keys
    ensures "b/x" in ListedFiles(keys, "a")
  {
    assert FileKey(FileKey("a", "b"), "x") == "a/b/x";
    assert FileKey("b", "x") == "b/x";
    NestedKeyListed(keys, "a", "b", "x");
  }

  /** A container without duplicate keys lists every file of `d` once. */
  lemma {:induction false} FilesInDistinct(names: seq<string>, d: string)
    requires Distinct(names)
    requires forall k :: k in names ==> StartsWith(k, DirectoryPrefix(d))
    ensures Distinct(FilesIn(names, d))
    decreases |names|
  {
    if names != [] {
      var name := names[|names| - 1];
      var init := names[..|names| - 1];
      assert names == init + [name];
      assert Distinct(init);
      FilesInDistinct(init, d);
      var file := Drop(name, |d| + 1);
      if !EndsWith(name, MarkerSuffix) && file != "" {
        FilesInMembers(init, d, file);
        FileKeyRoundTrip(d, name, file);
        assert name !in init by {
          forall i | 0 <= i < |init| ensures init[i] != name {
            assert names[i] != names[|names| - 1];
          }
        }
        AppendFresh(FilesIn(init, d), file);
      }
    }
  }

  lemma ListedFilesDistinct(keys: seq<string>, d: string)
    requires Distinct(keys)
    ensures Distinct(ListedFiles(keys, d))
  {
    FilesInDistinct(WithPrefix(keys, DirectoryPrefix(d)), d);
  }

  /** The listing is anchored on `d + "/"`: a key outside that prefix (such as
      "ab/x" for directory "a") changes nothing, wherever it is enumerated. */
  lemma ListedFilesIgnoresOtherKeys(a: seq<string>, k: string, b: seq<string>, d: string)
    requires !StartsWith(k, DirectoryPrefix(d))
    ensures ListedFiles(a + [k] + b, d) == ListedFiles(a + b, d)
  {
    var p := DirectoryPrefix(d);
    WithPrefixAppend(a + [k], b, p);
    WithPrefixAppend(a, [k], p);
    WithPrefixAppend(a, b, p);
    assert [k][..0] == [];
    assert WithPrefix([k], p) == [];
    assert WithPrefix(a + [k], p) == WithPrefix(a, p);
  }

  /** The file listing of a container follows its enumeration order. */
  lemma ListedFilesAppend(a: seq<string>, b: seq<string>, d: string)
    ensures ListedFiles(a + b, d) == ListedFiles(a, d) + ListedFiles(b, d)
  {
    var p := DirectoryPrefix(d);
    WithPrefixAppend(a, b, p);
    FilesInAppend(WithPrefix(a, p), WithPrefix(b, p), d);
  }

  /** A container holding only the key of file `f` in `d` lists `f` for `d`,
      unless `f` is a hidden name. */
  lemma ListedFilesOfFileKey(d: string, f: string)
    requires f != "" && f != ".ignore" && !EndsWith(f, MarkerSuffix)
    ensures ListedFiles([FileKey(d, f)], d) == [f]
  {
    var k := FileKey(d, f);
    assert [k][..0] == [];
    FileKeyUnderPrefix(d, f);
    HiddenFileName(d, f);
    assert WithPrefix([k], DirectoryPrefix(d)) == [k];
  }

  /** The directory listing of a container holding one key. */
  lemma DirectoriesOfSingle(k: string)
    ensures DirectoriesOf([k]) == if EndsWith(k, MarkerSuffix) then [StripMarker(k)] else []
  {
    assert [k][..0] == [];
  }

  /** Directory "a" with marker, file "y" and an unrelated key "ab/x": only
      "y" is listed. */
  lemma AnchoredExample(keys: seq<string>)
    requires keys == ["a/.ignore", "ab/x", "a/y"]
    ensures ListedFiles(keys, "a") == ["y"]
  {
    var marker, other, file := MarkerKey("a"), "ab/x", FileKey("a", "y");
    assert keys == [marker] + [other] + [file] by {
      assert marker == "a/.ignore" && file == "a/y";
    }
    OtherKeyNotUnderA();
    ListedFilesIgnoresOtherKeys([marker], other, [file], "a");
    ListedFilesAppend([marker], [file], "a");
    ListedFilesEmpty([marker], "a");
    ListedFilesOfFileKey("a", "y");
  }

  lemma OtherKeyNotUnderA()
    ensures !StartsWith("ab/x", DirectoryPrefix("a"))
  {
    assert "ab/x"[1] != DirectoryPrefix("a")[1];
  }

  /** A directory holding nothing but its marker, and a directory that was
      never created, both list no files. */
  lemma {:induction false} NoFilesUnderMarkerOnly(names: seq<string>, d: string)
    requires forall k :: k in names ==> k == MarkerKey(d)
    ensures FilesIn(names, d) == []
    decreases |names|
  {
    if names != [] {
      var init := names[..|names| - 1];
      assert names[|names| - 1] in names;
      MarkerRoundTrip(d);
      assert forall k :: k in init ==> k in names;
      NoFilesUnderMarkerOnly(init, d);
    }
  }

  lemma ListedFilesEmpty(keys: seq<string>, d: string)
    requires forall k :: k in keys && StartsWith(k, DirectoryPrefix(d)) ==> k == MarkerKey(d)
    ensures ListedFiles(keys, d) == []
  {
    NoFilesUnderMarkerOnly(WithPrefix(keys, DirectoryPrefix(d)), d);
  }

  /** After `f` is uploaded into `d` with overwrite, the listing of `d` holds
      `f` exactly when `f` is a name the listing does not hide. */
  lemma UploadedFileListed(keys: seq<string>, d: string, f: string)
    ensures f in ListedFiles(Upsert(keys, FileKey(d, f)), d) <==>
              f != "" && f != ".ignore" && !EndsWith(f, MarkerSuffix)
  {
    ListedFilesMembers(Upsert(keys, FileKey(d, f)), d, f);
  }

  /** Appending a value that is not yet present keeps a sequence free of
      duplicates. */
  lemma AppendFresh(s: seq<string>, x: string)
    requires Distinct(s) && x !in s
    ensures Distinct(s + [x])
  {
  }
}
