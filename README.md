# Directory emulation on a flat blob container

The function app of this repository serves a small web UI for document
translation. Its only stateful logic fakes folders on top of the flat "input"
blob container of a storage account, with one naming rule:

- a directory `d` exists when the container holds the empty marker blob
  `d + "/.ignore"`;
- a file `f` of `d` is the blob whose key is `d + "/" + f`.

Four HTTP handlers work on that rule: `list_directories` (GET /directories),
`create_blob_directory` (POST /directories), `upload_file` (POST /UploadFile)
and `list_files_in_directory` (GET /directories/{directory_name}). This
project models them in Dafny and proves what the listings return.

Layout:

- `naming.dfy`, module `Naming`: the key convention (marker key, file key,
  `endswith`/`startswith`, Python's `s[n:]`) and its round trips.
- `container.dfy`, module `BlobContainer`: the container as a class whose
  field `keys` holds the blob keys in enumeration order without duplicates;
  `Upload` is `upload_blob(..., overwrite=True)`, `WithPrefix` is
  `list_blobs(name_starts_with=...)`; store failures are the values
  `WriteFault` and `ListFault`.
- `listing.dfy`, module `Listing`: `DirectoriesOf` and `ListedFiles`, the
  functions that say what each listing returns, and the lemmas about them.
- `handlers.dfy`, module `FunctionApp`: the four handlers as methods (the two
  listings loop over the enumeration and append, as the source does), the
  `Response` datatype, the request datatypes, and client methods that
  chain handlers (idempotent creation, upload then list, and the
  create/upload/list scenario on an empty container, with its instance for a
  "reports" directory).

Store failures are inputs. A `WriteFault` says whether one `upload_blob` call
stores the blob or raises; a failed upload stores nothing. A `ListFault` says
whether an enumeration yields every key or raises before the key at a given
position (or at the end, for a failing request for a further page). Either
way the handler answers 500 with the store's message and returns no partial
list.

Behaviours of the code worth knowing, each proved in the model:

- `create_blob_directory` answers 500 for a body that is valid JSON but not
  an object: `req_body.get` raises `AttributeError`, which the generic
  `except` turns into a 500.
- `list_files_in_directory` lists every key under `d + "/"`, not only the
  files directly in `d`. The key "a/b/x", file "x" of directory "a/b", is
  listed under "a" as "b/x" (`Listing.NestedKeyListed`). Such keys arise when
  a directory name or an uploaded file name contains "/", which neither
  `create_blob_directory` nor `upload_file` rejects.
- Uploading a file named ".ignore" into `d` writes the marker of `d`, so `d`
  becomes a listed directory (`Listing.UploadingIgnoreCreatesDirectory`).

## Model

| member | source | states |
|---|---|---|
| Naming.Drop | func/function_app.py:244 | `blob.name[len(d)+1:]`: the characters after position `n`, empty when `n` passes the end |
| Naming.StripMarker | func/function_app.py:115-116 | `name[:-8]` on a key ending in "/.ignore" gives the directory whose marker key is exactly that key |
| Naming.MarkerRoundTrip | func/function_app.py:147 | the marker key written for `d` ends in "/.ignore" and strips back to `d` |
| Naming.MarkerKeyInjective | func/function_app.py:147 | two directories share a marker key only when they are the same directory |
| Naming.FileKeyRoundTrip | func/function_app.py:239-244 | for a key under `d + "/"`, cutting `len(d)+1` characters gives `f` exactly when the key is `d + "/" + f` |
| Naming.FileKeyUnderPrefix | func/function_app.py:200-244 | the key `d/f` written by an upload lies under the listing prefix `d/` and cuts back to `f` |
| Naming.HiddenFileName | func/function_app.py:242 | the key `d/f` ends in "/.ignore" exactly when `f` is ".ignore" or ends in "/.ignore", for every `d` |
| Naming.EndsWithMeans | func/function_app.py:115 | the suffix test holds exactly when the key is some string followed by the suffix |
| Naming.StartsWithMeans | func/function_app.py:239 | the prefix test holds exactly when the key is the prefix followed by some string |
| Naming.MarkerKey | func/function_app.py:147 | the marker key of `d` starts with `d`, ends in "/.ignore" and is 8 characters longer than `d` |
| Naming.FileKey | func/function_app.py:200 | the key of `f` in `d` starts with `d + "/"`, ends with `f` and has length `len(d) + 1 + len(f)` |
| Naming.DirectoryPrefix | func/function_app.py:239 | the listing prefix of `d` is `d` followed by one "/" |
| BlobContainer.Upsert | func/function_app.py:202-207 | an overwriting put leaves exactly the old keys plus the new one, adds no duplicate, and changes nothing when the key exists |
| BlobContainer.WithPrefix | func/function_app.py:239 | the prefix enumeration holds exactly the keys that start with the prefix, without duplicates when the container has none |
| BlobContainer.WithPrefixAppend | func/function_app.py:239 | the prefix enumeration keeps the container's order |
| BlobContainer.Container.constructor | func/function_app.py:108 | an empty container that keeps the no-duplicates invariant: the starting store of `CreateUploadList` and `ReportsScenario` (the handlers themselves receive the existing container as `store`) |
| BlobContainer.Container.ListBlobs | func/function_app.py:239 | the container's prefix enumeration holds exactly its keys that start with the prefix |
| BlobContainer.Container.Upload | func/function_app.py:202-207 | a successful put leaves `Upsert(old keys, key)`, a failing one leaves the keys unchanged and reports the failure |
| Listing.DirectoriesOf | func/function_app.py:112-116 | the directory listing is no longer than the enumeration, and every listed name's marker key is enumerated |
| Listing.FilesIn | func/function_app.py:240-246 | the file names kept from an enumeration are never empty and never more than the keys enumerated |
| Listing.ListedFiles | func/function_app.py:239-246 | the files listed for `d` are never empty names and never more than the container's keys |
| Listing.DirectoriesOfAppend | func/function_app.py:112-116 | the directory listing follows enumeration order, key run by key run |
| Listing.DirectoriesOfMembers | func/function_app.py:112-116 | `d` is listed exactly when `d + "/.ignore"` is a key; other keys never contribute |
| Listing.DirectoriesOfDistinct | func/function_app.py:112-116 | a container without duplicate keys lists no directory twice |
| Listing.CreatedDirectoryListedOnce | func/function_app.py:113-147 | after the marker of `d` is written with overwrite, `d` occurs exactly once in the directory listing |
| Listing.UploadingIgnoreCreatesDirectory | func/function_app.py:198-207 | uploading a file named ".ignore" into `d` makes `d` a listed directory |
| Listing.FilesInAppend | func/function_app.py:240-246 | the file listing follows enumeration order |
| Listing.FilesInMembers | func/function_app.py:240-246 | over keys under `d/`, `r` is kept exactly when it is non-empty and `d/r` is an enumerated key that is not a marker |
| Listing.ListedFilesMembers | func/function_app.py:239-246 | `r` is listed for `d` exactly when `r` is non-empty, is not ".ignore", does not end in "/.ignore", and `d/r` is a key |
| Listing.FilesInDistinct | func/function_app.py:240-246 | distinct keys under `d/` give distinct file names |
| Listing.ListedFilesDistinct | func/function_app.py:239-246 | a container without duplicate keys lists no file twice |
| Listing.ListedFilesIgnoresOtherKeys | func/function_app.py:239-244 | a key outside `d + "/"` (such as "ab/x" for "a") leaves the listing of `d` unchanged, wherever it is enumerated |
| Listing.ListedFilesAppend | func/function_app.py:239-246 | the file listing of a container is the listing of its first keys followed by that of the rest, in enumeration order |
| Listing.ListedFilesOfFileKey | func/function_app.py:239-246 | a container holding only the key `d/f` of a non-hidden, non-empty `f` lists exactly `[f]` for `d` |
| Listing.DirectoriesOfSingle | func/function_app.py:113-116 | one key yields its directory name when it ends in "/.ignore" and nothing otherwise |
| Listing.NestedKeyListed | func/function_app.py:239-246 | the key of file `f` in directory `d/sub` is listed under `d` as `sub/f` unless `f` is a hidden name |
| Listing.NestedExample | func/function_app.py:239-246 | a container holding "a/b/x" lists "b/x" among the files of "a" |
| Listing.AnchoredExample | func/function_app.py:239-246 | with keys "a/.ignore", "ab/x", "a/y", directory "a" lists exactly "y" |
| Listing.NoFilesUnderMarkerOnly | func/function_app.py:240-246 | an enumeration holding only the marker of `d` yields no files |
| Listing.ListedFilesEmpty | func/function_app.py:239-252 | a directory with only its marker, or with no key at all, lists no files |
| Listing.UploadedFileListed | func/function_app.py:200-246 | after uploading `f` into `d`, the listing of `d` holds `f` exactly when `f` is not a hidden name |
| FunctionApp.ListDirectories | func/function_app.py:106-129 | 200 with `DirectoriesOf(keys)` in enumeration order when the store enumerates; 500 with the store's message and no list when it raises |
| FunctionApp.CreateBlobDirectory | func/function_app.py:134-164 | invalid JSON gives 400, non-object JSON 500, a missing or empty name 400, all without writing; otherwise the marker is put with overwrite and the answer is 201, or 500 with nothing written when the store raises |
| FunctionApp.UploadFile | func/function_app.py:169-222 | a missing directory name, file part or file name gives 400 without writing; otherwise `d/f` is put with overwrite and the answer is 200 with the blob name, or 500 with nothing written |
| FunctionApp.ListFilesInDirectory | func/function_app.py:227-258 | a missing or empty name gives 400; otherwise 200 with `ListedFiles(keys, d)`, or 500 with no list when the enumeration raises |
| FunctionApp.CreateTwice | func/function_app.py:134-153 | creating a directory twice answers 201 twice, leaves the keys of one creation, and the directory is listed once |
| FunctionApp.UploadThenList | func/function_app.py:169-252 | uploading `f` into `d` answers 200 with blob name `d/f` and leaves `Upsert(old keys, d/f)`; listing `d` then answers 200 and holds `f` exactly when `f` is not a hidden name |
| FunctionApp.CreateUploadList | func/function_app.py:106-252 | on an empty container, creating `d` answers 201, uploading a visible file `f` into `d` answers 200 with blob name `d/f`, then the file listing of `d` is exactly `[f]` and the directory listing exactly `[d]` |
| FunctionApp.NewDirectoryListings | func/function_app.py:112-246 | the container holding the marker of `d` and then the key `d/f` of a visible file lists `[f]` as the files of `d` and `[d]` as its directories, and the two keys differ |
| FunctionApp.ReportsScenario | func/function_app.py:106-252 | create "reports", upload "q1.csv", then the file listing is exactly ["q1.csv"] and the directory listing exactly ["reports"] |

## Left out

- Azure SDK clients, credential acquisition and environment variables: the container is a parameter of every handler.
- The translation pass-throughs (`get_supported_languages`, `get_supported_formats`, `translate_documents`) and the `HttpExample` greeting: they forward to external services or choose a greeting string, with no directory logic.
- JSON serialisation, logging, MIME types and the HTTP request and response objects: a response is a status code and a `Body` value.
- Blob contents and content types: only keys matter to the directory convention, so the container holds keys only and an upload's file content is not modelled.
- Enumeration order: the real store lists keys in lexicographic order; the model lists them in insertion order, and every listing property is stated for whatever order the container has.
- `create_blob_directory` with a `directory_name` that is a JSON number, boolean, list or object: only string values (or no value) are modelled; Python would format other values into the key.
- Errors raised while reading the request (`get_json` other than invalid JSON, the file stream read) other than those listed above: they all end in the generic 500 branch and are not modelled separately.
- The route constraint `{directory_name:alpha}`: route matching belongs to the host; `ListFilesInDirectory` accepts any string, so its properties hold for every name the route lets through.
- Concurrency between handler invocations: the host runs them independently and the code adds no coordination; each method runs alone on the container.
