/** The file-listing endpoint of the uploader service (`App.ListFilesHandler`).

    The bucket listing and the companion-blob reads are S3 calls; here they arrive as
    inputs: the outcome of listing the bucket, and a function from blob key to the outcome
    of fetching and decoding that blob. */
module Uploader {
  import opened Wrappers
  import opened Strings

  /** Suffix that marks an upload's metadata blob (written by the resumable-upload store). */
  const InfoSuffix := ".info"
  /** Metadata key holding the client's original file name. */
  const FilenameField := "filename"
  /** Host the backend is reachable at inside the container network. */
  const InternalHost := "http://minio:9000"
  /** Host the browser reaches the same backend at. */
  const BrowserHost := "http://localhost:9000"
  const StatusInternalServerError := 500

  /** The configuration the handler reads; the S3 client and tus handler are not modelled. */
  datatype App = App(bucketName: string, s3Endpoint: string)

  /** One object of a bucket listing; the SDK may leave either field nil. */
  datatype S3Object = S3Object(key: Option<string>, size: Option<int>)

  /** The bucket listing call either fails with an error message or yields the objects. */
  datatype ListOutcome = ListFailed(err: string) | Listed(contents: seq<S3Object>)

  /** What fetching a companion blob gives: the read fails, the body is not a decodable
      record, or it decodes to a `MetaData` map (an absent map decodes as the empty one). */
  datatype FetchOutcome = FetchFailed | DecodeFailed | Decoded(metaData: map<string, string>)

  /** One entry of the JSON response. */
  datatype FileInfo = FileInfo(key: string, name: string, size: int, url: string)

  /** The handler's reply: 200 with the entries, or an HTTP error with its message. */
  datatype Response = FileList(files: seq<FileInfo>) | HttpError(status: int, message: string)

  /** The object's key as `aws.ToString` reads it: a nil key reads as the empty string. */
  function KeyOf(o: S3Object): (key: string)
    ensures o.key.Some? ==> key == o.key.value
    ensures o.key.None? ==> key == ""
  {
    o.key.GetOr("")
  }

  /** The object's size as `aws.ToInt64` reads it: a nil size reads as 0. */
  function SizeOf(o: S3Object): (size: int)
    ensures o.size.Some? ==> size == o.size.value
    ensures o.size.None? ==> size == 0
  {
    o.size.GetOr(0)
  }

  /** A key that names a metadata blob: longer than the suffix and ending in it. */
  predicate IsInfoKey(key: string) {
    |key| > |InfoSuffix| && key[|key| - |InfoSuffix|..] == InfoSuffix
  }

  /** Keys that make it into the listing: non-empty and not a metadata blob. Of the keys
      ending in the suffix, only the suffix itself is kept. */
  predicate IsListed(key: string)
    ensures IsListed(key) <==> key != "" && (key == InfoSuffix || !HasSuffix(key, InfoSuffix))
  {
    assert key[0..] == key;
    key != "" && !IsInfoKey(key)
  }

  /** The key of the metadata blob stored beside the data blob `key`. */
  function CompanionKey(key: string): (info: string)
    ensures HasPrefix(info, key) && HasSuffix(info, InfoSuffix)
  {
    key + InfoSuffix
  }

  /** The name shown for `key`, given what fetching its companion blob gave. */
  function DisplayName(key: string, companion: FetchOutcome): (name: string)
    ensures companion.Decoded? && FilenameField in companion.metaData ==>
              name == companion.metaData[FilenameField]
    ensures !(companion.Decoded? && FilenameField in companion.metaData) ==> name == key
  {
    var name := key;
    match companion
    case Decoded(metaData) =>
      if FilenameField in metaData then metaData[FilenameField] else name
    case _ => name
  }

  /** The URL handed to the browser: `endpoint/bucket/key` with the first occurrence of the
      internal host replaced by the browser-facing one. */
  function PublicUrl(endpoint: string, bucket: string, key: string): (url: string)
    ensures !Contains(endpoint + "/" + bucket + "/" + key, InternalHost) ==>
              url == endpoint + "/" + bucket + "/" + key
    ensures forall i :: FirstOccurrence(endpoint + "/" + bucket + "/" + key, InternalHost, i) ==>
              url == (endpoint + "/" + bucket + "/" + key)[..i] + BrowserHost
                     + (endpoint + "/" + bucket + "/" + key)[i + |InternalHost|..]
  {
    ReplaceFirst(endpoint + "/" + bucket + "/" + key, InternalHost, BrowserHost)
  }

  /** The entry for one kept object: its own key and size, the name from its companion
      blob (or the key), and its public URL. */
  function EntryFor(app: App, o: S3Object, fetch: string -> FetchOutcome): (e: FileInfo)
    ensures e.key == KeyOf(o)
    ensures e.size == (if o.size.Some? then o.size.value else 0)
    ensures var c := fetch(e.key + InfoSuffix);
            e.name == (if c.Decoded? && FilenameField in c.metaData then c.metaData[FilenameField] else e.key)
    ensures !Contains(app.s3Endpoint + "/" + app.bucketName + "/" + e.key, InternalHost) ==>
              e.url == app.s3Endpoint + "/" + app.bucketName + "/" + e.key
    ensures forall i :: FirstOccurrence(app.s3Endpoint + "/" + app.bucketName + "/" + e.key, InternalHost, i) ==>
              e.url == (app.s3Endpoint + "/" + app.bucketName + "/" + e.key)[..i] + BrowserHost
                       + (app.s3Endpoint + "/" + app.bucketName + "/" + e.key)[i + |InternalHost|..]
  {
    var key := KeyOf(o);
    FileInfo(key, DisplayName(key, fetch(CompanionKey(key))), SizeOf(o),
             PublicUrl(app.s3Endpoint, app.bucketName, key))
  }

  /** The entries produced for `objs`, one per listed key, in listing order. */
  function Listing(app: App, objs: seq<S3Object>, fetch: string -> FetchOutcome): (files: seq<FileInfo>)
    ensures |files| <= |objs|
    decreases |objs|
  {
    if objs == [] then []
    else
      var prior := Listing(app, objs[..|objs| - 1], fetch);
      var o := objs[|objs| - 1];
      if IsListed(KeyOf(o)) then prior + [EntryFor(app, o, fetch)] else prior
  }

  /** The positions of `objs` whose key is listed, in increasing order: an independent
      description of which objects the listing keeps. */
  ghost function KeptIndices(objs: seq<S3Object>): (ix: seq<nat>)
    ensures forall j :: 0 <= j < |ix| ==> ix[j] < |objs| && IsListed(KeyOf(objs[ix[j]]))
    ensures forall j, k :: 0 <= j < k < |ix| ==> ix[j] < ix[k]
    ensures forall i :: 0 <= i < |objs| && IsListed(KeyOf(objs[i])) ==> i in ix
    decreases |objs|
  {
    if objs == [] then []
    else
      var prior := KeptIndices(objs[..|objs| - 1]);
      if IsListed(KeyOf(objs[|objs| - 1])) then prior + [|objs| - 1] else prior
  }

  /** The handler: list the bucket, keep data blobs, name each from its companion
      metadata blob, build its URL and append its entry. */
  method ListFilesHandler(app: App, listing: ListOutcome, fetch: string -> FetchOutcome)
    returns (resp: Response)
    ensures listing.ListFailed? ==>
              resp == HttpError(StatusInternalServerError, "failed to list objects: " + listing.err)
    ensures listing.Listed? ==> resp == FileList(Listing(app, listing.contents, fetch))
  {
    if listing.ListFailed? {
      return HttpError(StatusInternalServerError, "failed to list objects: " + listing.err);
    }
    var contents := listing.contents;
    var files: seq<FileInfo> := [];
    for i := 0 to |contents|
      invariant files == Listing(app, contents[..i], fetch)
    {
      var obj := contents[i];
      var key := obj.key.GetOr("");
      if key != "" && !(|key| > |InfoSuffix| && key[|key| - |InfoSuffix|..] == InfoSuffix) {
        var name := key;
        var infoKey := key + InfoSuffix;
        var info := fetch(infoKey);
        if info.Decoded? && FilenameField in info.metaData {
          name := info.metaData[FilenameField];
        }
        var url := app.s3Endpoint + "/" + app.bucketName + "/" + key;
        url := ReplaceFirst(url, InternalHost, BrowserHost);
        assert name == DisplayName(key, fetch(CompanionKey(key)));
        files := files + [FileInfo(key, name, obj.size.GetOr(0), url)];
      }
      ListingStep(app, contents, i, fetch);
    }
    assert contents[..|contents|] == contents;
    return FileList(files);
  }

  /** One more object extends the listing by at most its own entry. */
  lemma ListingStep(app: App, objs: seq<S3Object>, i: nat, fetch: string -> FetchOutcome)
    requires i < |objs|
    ensures Listing(app, objs[..i + 1], fetch) ==
              Listing(app, objs[..i], fetch)
              + (if IsListed(KeyOf(objs[i])) then [EntryFor(app, objs[i], fetch)] else [])
  {
    assert objs[..i + 1][..i] == objs[..i];
  }

  /** The listing's entries are those built for the kept positions, in order. */
  lemma {:induction false} ListingAtKeptIndices(app: App, objs: seq<S3Object>, fetch: string -> FetchOutcome)
    ensures |Listing(app, objs, fetch)| == |KeptIndices(objs)|
    ensures forall j :: 0 <= j < |Listing(app, objs, fetch)| ==>
              Listing(app, objs, fetch)[j] == EntryFor(app, objs[KeptIndices(objs)[j]], fetch)
    decreases |objs|
  {
    if objs != [] {
      var init := objs[..|objs| - 1];
      ListingAtKeptIndices(app, init, fetch);
      forall i | 0 <= i < |init| ensures init[i] == objs[i] { }
    }
  }

  /** The listing holds exactly the objects with a listed key, in their original order,
      one entry each, with the object's key, its size (0 when absent), the name resolved
      from its companion blob and its public URL. */
  lemma ListingIsKeptInOrder(app: App, objs: seq<S3Object>, fetch: string -> FetchOutcome)
    ensures |Listing(app, objs, fetch)| == |KeptIndices(objs)|
    ensures forall j :: 0 <= j < |Listing(app, objs, fetch)| ==>
              var o, e := objs[KeptIndices(objs)[j]], Listing(app, objs, fetch)[j];
              && e.key == KeyOf(o)
              && IsListed(e.key)
              && e.size == (if o.size.Some? then o.size.value else 0)
              && e.name == DisplayName(e.key, fetch(e.key + InfoSuffix))
              && e.url == PublicUrl(app.s3Endpoint, app.bucketName, e.key)
  {
    ListingAtKeptIndices(app, objs, fetch);
  }
}
