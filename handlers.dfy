/** The four HTTP handlers of the function app that emulate directories on the
    "input" container: list directories, create a directory, upload a file
    and list the files of a directory. The container is passed in as the
    shared store handle; store failures are given as `WriteFault` and
    `ListFault` values; a response is its status code and its body.
 */
module FunctionApp {
  import opened Naming
  import opened BlobContainer
  import opened Listing

  datatype Option<T> = None | Some(value: T)

  /** Python's truth test on an optional string: present and not empty. */
  predicate Given(o: Option<string>) {
    o.Some? && o.value != ""
  }

  /** A response body: a JSON array of names, a JSON object, or plain text. */
  datatype Body =
    | NameList(names: seq<string>)
    | JsonMessage(message: string)
    | JsonUpload(message: string, blobName: string)
    | Text(text: string)

  datatype Response = Response(status: nat, body: Body)

  /** The body of a directory-creation request: not JSON at all, JSON that is
      not an object (its Python type name), or an object with or without a
      string "directory_name" field. */
  datatype CreateRequest =
    | MalformedJson
    | JsonNonObject(typeName: string)
    | JsonObject(directoryName: Option<string>)

  /** The "file" part of a multipart upload, with its optional file name. */
  datatype UploadedFile = UploadedFile(filename: Option<string>)

  /** An upload: the "directory_name" query parameter and the "file" part. */
  datatype UploadRequest = UploadRequest(directoryName: Option<string>, file: Option<UploadedFile>)

  /** An upload passes validation when it names a directory and a file. */
  predicate UploadIsValid(req: UploadRequest) {
    Given(req.directoryName) && req.file.Some? && Given(req.file.value.filename)
  }

  // ---------------------------------------------------------------------------
  // GET /directories

  method ListDirectories(store: Container, fault: ListFault) returns (resp: Response)
    ensures fault.Healthy? ==> resp == Response(200, NameList(DirectoriesOf(store.keys)))
    ensures fault.FailsAfter? ==> resp == Response(500, Text("Error listing directories: " + fault.message))
  {
    var blobs := store.keys;
    var directories := [];
    var i := 0;
    while i < |blobs|
      invariant i <= |blobs|
      invariant directories == DirectoriesOf(blobs[..i])
    {
      if fault.FailsAfter? && fault.count == i {
        return Response(500, Text("Error listing directories: " + fault.message));
      }
      var name := blobs[i];
      if EndsWith(name, MarkerSuffix) {
        directories := directories + [name[..|name| - 8]];
      }
      assert blobs[..i + 1][..i] == blobs[..i];
      i := i + 1;
    }
    if fault.FailsAfter? {
      return Response(500, Text("Error listing directories: " + fault.message));
    }
    assert blobs[..i] == blobs;
    resp := Response(200, NameList(directories));
  }

  // ---------------------------------------------------------------------------
  // POST /directories

  method CreateBlobDirectory(store: Container, req: CreateRequest, fault: WriteFault) returns (resp: Response)
    requires store.Valid()
    modifies store
    ensures store.Valid()
    ensures req.MalformedJson? ==>
              resp == Response(400, Text("Invalid JSON body")) && store.keys == old(store.keys)
    ensures req.JsonNonObject? ==>
              resp == Response(500, Text("Error creating directory: '" + req.typeName + "' object has no attribute 'get'"))
              && store.keys == old(store.keys)
    ensures req.JsonObject? && !Given(req.directoryName) ==>
              resp == Response(400, Text("Please pass a directory name in the request body"))
              && store.keys == old(store.keys)
    ensures req.JsonObject? && Given(req.directoryName) && fault.WriteFails? ==>
              resp == Response(500, Text("Error creating directory: " + fault.message))
              && store.keys == old(store.keys)
    ensures req.JsonObject? && Given(req.directoryName) && fault.Stored? ==>
              var d := req.directoryName.value;
              resp == Response(201, JsonMessage("Directory " + d + " created successfully."))
              && store.keys == Upsert(old(store.keys), MarkerKey(d))
  {
    match req {
      case MalformedJson =>
        resp := Response(400, Text("Invalid JSON body"));
      case JsonNonObject(typeName) =>
        resp := Response(500, Text("Error creating directory: '" + typeName + "' object has no attribute 'get'"));
      case JsonObject(directoryName) =>
        if !Given(directoryName) {
          return Response(400, Text("Please pass a directory name in the request body"));
        }
        var d := directoryName.value;
        var failed := store.Upload(MarkerKey(d), fault);
        if failed {
          return Response(500, Text("Error creating directory: " + fault.message));
        }
        resp := Response(201, JsonMessage("Directory " + d + " created successfully."));
    }
  }

  // ---------------------------------------------------------------------------
  // POST /UploadFile

  method UploadFile(store: Container, req: UploadRequest, fault: WriteFault) returns (resp: Response)
    requires store.Valid()
    modifies store
    ensures store.Valid()
    ensures !UploadIsValid(req) ==> store.keys == old(store.keys)
    ensures !Given(req.directoryName) ==>
              resp == Response(400, Text("Please pass a directory_name parameter"))
    ensures Given(req.directoryName) && req.file.None? ==>
              resp == Response(400, Text("No file found in the request"))
    ensures Given(req.directoryName) && req.file.Some? && !Given(req.file.value.filename) ==>
              resp == Response(400, Text("File name is required"))
    ensures UploadIsValid(req) && fault.WriteFails? ==>
              resp == Response(500, Text("Error uploading file: " + fault.message))
              && store.keys == old(store.keys)
    ensures UploadIsValid(req) && fault.Stored? ==>
              var d, f := req.directoryName.value, req.file.value.filename.value;
              resp == Response(200, JsonUpload("File " + f + " uploaded successfully to " + d, FileKey(d, f)))
              && store.keys == Upsert(old(store.keys), FileKey(d, f))
  {
    if !Given(req.directoryName) {
      return Response(400, Text("Please pass a directory_name parameter"));
    }
    var d := req.directoryName.value;
    if req.file.None? {
      return Response(400, Text("No file found in the request"));
    }
    var fileName := req.file.value.filename;
    if !Given(fileName) {
      return Response(400, Text("File name is required"));
    }
    var f := fileName.value;
    var blobName := d + "/" + f;
    var failed := store.Upload(blobName, fault);
    if failed {
      return Response(500, Text("Error uploading file: " + fault.message));
    }
    resp := Response(200, JsonUpload("File " + f + " uploaded successfully to " + d, blobName));
  }

  // ---------------------------------------------------------------------------
  // GET /directories/{directory_name}

  method ListFilesInDirectory(store: Container, directoryName: Option<string>, fault: ListFault)
    returns (resp: Response)
    ensures !Given(directoryName) ==>
              resp == Response(400, Text("Please pass a directory name in the path parameter"))
    ensures Given(directoryName) && fault.FailsAfter? ==>
              resp == Response(500, Text("Error listing files: " + fault.message))
    ensures Given(directoryName) && fault.Healthy? ==>
              resp == Response(200, NameList(ListedFiles(store.keys, directoryName.value)))
  {
    if !Given(directoryName) {
      return Response(400, Text("Please pass a directory name in the path parameter"));
    }
    var d := directoryName.value;
    var blobs := store.ListBlobs(d + "/");
    var files := [];
    var i := 0;
    while i < |blobs|
      invariant i <= |blobs|
      invariant files == FilesIn(blobs[..i], d)
    {
      if fault.FailsAfter? && fault.count == i {
        return Response(500, Text("Error listing files: " + fault.message));
      }
      var name := blobs[i];
      if !EndsWith(name, MarkerSuffix) {
        var filename := Drop(name, |d| + 1);
        if filename != "" {
          files := files + [filename];
        }
      }
      assert blobs[..i + 1][..i] == blobs[..i];
      i := i + 1;
    }
    if fault.FailsAfter? {
      return Response(500, Text("Error listing files: " + fault.message));
    }
    assert blobs[..i] == blobs;
    resp := Response(200, NameList(files));
  }

  // ---------------------------------------------------------------------------
  // Clients of the handlers

  /** Creating the same directory twice succeeds both times, leaves the keys
      of a single creation, and the directory is listed once. */
  method CreateTwice(store: Container, d: string) returns (first: Response, second: Response)
    requires store.Valid() && d != ""
    modifies store
    ensures first == second == Response(201, JsonMessage("Directory " + d + " created successfully."))
    ensures store.Valid() && store.keys == Upsert(old(store.keys), MarkerKey(d))
    ensures multiset(DirectoriesOf(store.keys))[d] == 1
  {
    first := CreateBlobDirectory(store, JsonObject(Some(d)), Stored);
    second := CreateBlobDirectory(store, JsonObject(Some(d)), Stored);
    CreatedDirectoryListedOnce(old(store.keys), d);
  }

  /** Uploading `f` into `d` succeeds with 200 and the key `d/f`; listing `d`
      afterwards answers 200 and holds `f` unless `f` is a name the listing
      hides. */
  method UploadThenList(store: Container, d: string, f: string) returns (uploaded: Response, listed: Response)
    requires store.Valid() && d != "" && f != ""
    modifies store
    ensures uploaded == Response(200, JsonUpload("File " + f + " uploaded successfully to " + d, FileKey(d, f)))
    ensures store.Valid() && store.keys == Upsert(old(store.keys), FileKey(d, f))
    ensures listed == Response(200, NameList(ListedFiles(store.keys, d)))
    ensures f in listed.body.names <==> f != ".ignore" && !EndsWith(f, MarkerSuffix)
  {
    uploaded := UploadFile(store, UploadRequest(Some(d), Some(UploadedFile(Some(f)))), Stored);
    listed := ListFilesInDirectory(store, Some(d), Healthy);
    UploadedFileListed(old(store.keys), d, f);
  }

  /** On an empty container: create `d`, upload `f` into it, then list the
      files of `d` and the directories. Each step succeeds, the file listing
      is exactly `[f]` and the directory listing exactly `[d]`. */
  method CreateUploadList(d: string, f: string)
    returns (created: Response, uploaded: Response, files: Response, directories: Response)
    requires d != "" && f != "" && f != ".ignore" && !EndsWith(f, MarkerSuffix)
    ensures created == Response(201, JsonMessage("Directory " + d + " created successfully."))
    ensures uploaded == Response(200, JsonUpload("File " + f + " uploaded successfully to " + d, FileKey(d, f)))
    ensures files == Response(200, NameList([f]))
    ensures directories == Response(200, NameList([d]))
  {
    var marker, file := MarkerKey(d), FileKey(d, f);
    var store := new Container();
    var create := JsonObject(Some(d));
    assert Given(create.directoryName);
    created := CreateBlobDirectory(store, create, Stored);
    assert store.keys == Upsert([], marker) == [marker];
    var upload := UploadRequest(Some(d), Some(UploadedFile(Some(f))));
    assert UploadIsValid(upload);
    uploaded := UploadFile(store, upload, Stored);
    NewDirectoryListings(d, f);
    assert store.keys == Upsert([marker], file) == [marker, file];
    files := ListFilesInDirectory(store, Some(d), Healthy);
    directories := ListDirectories(store, Healthy);
  }

  /** The container holding the marker of `d` and then the key of a visible
      file `f` lists `[f]` as the files of `d` and `[d]` as its directories. */
  lemma NewDirectoryListings(d: string, f: string)
    requires f != "" && f != ".ignore" && !EndsWith(f, MarkerSuffix)
    ensures MarkerKey(d) != FileKey(d, f)
    ensures ListedFiles([MarkerKey(d), FileKey(d, f)], d) == [f]
    ensures DirectoriesOf([MarkerKey(d), FileKey(d, f)]) == [d]
  {
    var marker, file := MarkerKey(d), FileKey(d, f);
    assert [marker] + [file] == [marker, file];
    HiddenFileName(d, f);
    ListedFilesAppend([marker], [file], d);
    ListedFilesEmpty([marker], d);
    ListedFilesOfFileKey(d, f);
    DirectoriesOfAppend([marker], [file]);
    MarkerRoundTrip(d);
    DirectoriesOfSingle(marker);
    DirectoriesOfSingle(file);
  }

  /** Create "reports", upload "q1.csv" into it, then list both. */
  method ReportsScenario() returns (files: Response, directories: Response)
    ensures files == Response(200, NameList(["q1.csv"]))
    ensures directories == Response(200, NameList(["reports"]))
  {
    var created, uploaded;
    created, uploaded, files, directories := CreateUploadList("reports", "q1.csv");
  }
}
