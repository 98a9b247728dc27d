# go-tus-backend: the file-listing endpoint

The service accepts resumable uploads (the tus 1.0.0 protocol, handled by the external
`tusd` library against an S3 bucket) and offers, besides a `/health` check, one hand-written endpoint of its own:
`App.ListFilesHandler`, which answers `GET /files/` with a JSON array of
`{key, name, size, url}` entries, one per object returned by the single bucket-listing
call whose key is non-empty and not a metadata-blob key.

This project models that handler. The bucket listing becomes an input (`ListOutcome`:
the listing failed with a message, or it yielded a sequence of objects whose key and size
may each be absent), and reading a companion metadata blob becomes a function from blob
key to an abstract outcome (`FetchOutcome`: the read failed, the body did not decode, or it
decoded to a `MetaData` map). The handler itself is a method with the source's loop
(`Uploader.ListFilesHandler`), proved equal to the specification function
`Uploader.Listing`; the properties of the listing are lemmas about that function.

Files:
- `wrappers.dfy` — `Option`, the counterpart of the SDK's nil-able pointers.
- `strings.dfy` — prefix/suffix tests, substring search, and Go's
  `strings.Replace(s, old, new, 1)` as `ReplaceFirst`.
- `uploader.dfy` — the data model, the filter, companion key, display name, URL, the
  specification `Listing`, the handler method.
- `listing_facts.dfy` — lemmas: filter boundary, which metadata is read, robustness
  against metadata failures, the URL rewrite, and the listing test scenario.

Keys are modelled as `seq<char>` while Go's `len` counts bytes. Because the suffix
`.info` is ASCII, a UTF-8 key ends in those bytes exactly when it ends in those
characters, and a key of more than 5 bytes ending in `.info` has more than 5 characters,
so the filter decides the same on both.

The code hard-codes the replacement of `http://minio:9000` by `http://localhost:9000` in
every URL, and the model does the same. The endpoint is `GET /files/`.

The comment at internal/uploader/server.go:122 says directories are not listed, but the
condition at line 123 only drops empty keys and metadata-blob keys, so a directory-marker
key such as `photos/` is listed. The model follows the condition
(`UploaderFacts.DirectoryMarkerListed`).

## Model

| member | source | states |
|---|---|---|
| Strings.ReplaceFirst | internal/uploader/server.go:146 | without an occurrence of the pattern the string is unchanged; otherwise exactly the leftmost occurrence is replaced and everything around it is kept |
| Strings.Index | internal/uploader/server.go:146 | finds a position exactly when the pattern occurs, and that position is the leftmost occurrence |
| Strings.ReplaceFirstAtFront | internal/uploader/server.go:146 | a string that starts with the pattern has that prefix replaced and its remainder, later occurrences included, left as is |
| Uploader.KeyOf | internal/uploader/server.go:121 | the object's key, or the empty string when the SDK leaves it nil |
| Uploader.SizeOf | internal/uploader/server.go:151 | the object's size, or 0 when the SDK leaves it nil |
| Uploader.IsListed | internal/uploader/server.go:122-123 | a key is listed exactly when it is non-empty and either is `.info` itself or does not end in `.info` |
| Uploader.CompanionKey | internal/uploader/server.go:126 | the metadata key of a data key starts with that key and ends in `.info` |
| Uploader.DisplayName | internal/uploader/server.go:125-139 | the name is the `filename` metadata entry when the companion fetch and decode succeed and the entry exists; in every other case it is the key |
| Uploader.PublicUrl | internal/uploader/server.go:144-146 | the URL is `endpoint/bucket/key` when that string does not contain `http://minio:9000`; otherwise its leftmost occurrence of that host is replaced by `http://localhost:9000` and the rest is kept |
| Uploader.EntryFor | internal/uploader/server.go:125-153 | an entry carries the object's key, its size or 0 when absent, the `filename` from the `key + ".info"` metadata or else the key, and the URL `endpoint/bucket/key`, unchanged when `http://minio:9000` is absent and otherwise with its leftmost occurrence replaced by `http://localhost:9000` |
| Uploader.Listing | internal/uploader/server.go:119-155 | the listing never has more entries than the bucket has objects |
| Uploader.KeptIndices | internal/uploader/server.go:120-123 | the positions kept are strictly increasing, each names a listed key, and every position with a listed key is among them |
| Uploader.ListFilesHandler | internal/uploader/server.go:103-162 | a failed bucket listing gives HTTP 500 with "failed to list objects: " and the error; otherwise the reply is the listing of the objects, built by the loop |
| Uploader.ListingStep | internal/uploader/server.go:148-154 | each further object appends its own entry when its key is listed and nothing otherwise |
| Uploader.ListingAtKeptIndices | internal/uploader/server.go:119-155 | the listing has one entry per kept position, and the j-th entry is the one built for the object at the j-th kept position |
| Uploader.ListingIsKeptInOrder | internal/uploader/server.go:119-155 | the entries are exactly the objects with listed keys, in input order, one each; each carries the object's key, its size or 0 when absent, the name resolved from `key + ".info"` and its public URL |
| UploaderFacts.FilterBoundary | internal/uploader/server.go:123-126 | `.info` itself is listed, the empty key is not, no other listed key ends in `.info`, and the companion blob of any non-empty key is never listed |
| UploaderFacts.ListingReadsOnlyCompanions | internal/uploader/server.go:126-130 | the listing depends on the metadata store only at `key + ".info"` for listed keys |
| UploaderFacts.ListingSurvivesMetadataFailures | internal/uploader/server.go:131-153 | whatever the metadata fetches return, the number of entries and each entry's key, size and URL are the same |
| UploaderFacts.ListingWithoutMetadata | internal/uploader/server.go:125-141 | when no companion of a listed object yields a file name, every entry is named by its key |
| UploaderFacts.PublicUrlRewritesInternalHost | internal/uploader/server.go:144-146 | an endpoint starting with `http://minio:9000` gives `http://localhost:9000` followed by the rest of the endpoint, `/bucket/key` |
| UploaderFacts.DirectoryMarkerListed | internal/uploader/server.go:122-123 | a directory-marker key such as `photos/` passes the filter and is listed |
| UploaderFacts.ExampleUrl | internal/uploader/server_test.go:185-216 | endpoint `http://localhost:9000`, bucket `test-bucket`, key `file1.mp3` give `http://localhost:9000/test-bucket/file1.mp3` |
| UploaderFacts.ExampleEntry | internal/uploader/server_test.go:185-216 | `file1.mp3` (1000 bytes) whose metadata blob holds filename `My Song.mp3` gives the entry named `My Song.mp3` with URL `http://localhost:9000/test-bucket/file1.mp3` |
| UploaderFacts.ListingExample | internal/uploader/server_test.go:185-216 | `file1.mp3` (1000 bytes) with metadata blob `file1.mp3.info` holding filename `My Song.mp3` lists as one entry named `My Song.mp3` with that URL |

## Left out

- The resumable-upload protocol (creation, offset checks, PATCH, part assembly, `.info` persistence): it is implemented by the external `tusd` `handler` and `s3store` packages, which are not part of this model; `NewTusHandler` (internal/uploader/server.go:82-100) only wires them together.
- `NewAppFromEnv` (internal/uploader/server.go:35-79): environment variables and AWS SDK configuration; the model takes the bucket name and endpoint as the `App` value.
- Pagination of the bucket listing: the handler makes one `ListObjectsV2` call (internal/uploader/server.go:104-106) with no continuation token and never checks for truncation, so only the first page is listed; `Listed.contents` is that one response.
- S3 network calls (`ListObjectsV2`, `GetObject`, `Body.Close`) and the request context: replaced by the `ListOutcome` input and the fetch function.
- JSON decoding of the metadata blob (internal/uploader/server.go:132-135): abstracted as `FetchOutcome`; a blob without a `MetaData` object is `Decoded` with an empty map.
- JSON encoding of the response, its error path and the `Content-Type` and CORS headers (internal/uploader/server.go:157-161): HTTP and encoding plumbing. `HttpError` carries the message given to `http.Error`, which writes it followed by a newline.
- Object sizes are `int64` in the SDK; the model uses unbounded integers, since the handler does no arithmetic on them.
- cmd/server/main.go (listener, health check, CORS wrapper, GET-versus-tus dispatch): routing plumbing.
