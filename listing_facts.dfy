/** Properties of the listing endpoint that relate several calls or several inputs. */
module UploaderFacts {
  import opened Wrappers
  import opened Strings
  import opened Uploader

  /** The metadata-blob filter at its boundary: a key that is exactly the suffix is kept,
      the empty key is dropped, the only listed key ending in the suffix is the suffix itself,
      and the companion blob of any non-empty key is never listed. */
  lemma FilterBoundary(key: string)
    ensures IsListed(InfoSuffix) && !IsListed("")
    ensures IsListed(key) && HasSuffix(key, InfoSuffix) ==> key == InfoSuffix
    ensures key != "" ==> IsInfoKey(CompanionKey(key)) && !IsListed(CompanionKey(key))
  {
    if key != "" {
      var c := CompanionKey(key);
      assert c[|c| - 5..] == InfoSuffix;
    }
  }

  /** The listing reads the metadata store only at the companion keys of listed objects:
      two stores that agree there give the same listing. */
  lemma {:induction false} ListingReadsOnlyCompanions(app: App, objs: seq<S3Object>,
                                                      f1: string -> FetchOutcome, f2: string -> FetchOutcome)
    requires forall i :: 0 <= i < |objs| && IsListed(KeyOf(objs[i])) ==>
               f1(KeyOf(objs[i]) + InfoSuffix) == f2(KeyOf(objs[i]) + InfoSuffix)
    ensures Listing(app, objs, f1) == Listing(app, objs, f2)
    decreases |objs|
  {
    if objs != [] {
      var init := objs[..|objs| - 1];
      forall i | 0 <= i < |init| ensures init[i] == objs[i] { }
      ListingReadsOnlyCompanions(app, init, f1, f2);
    }
  }

  /** Metadata outcomes never add, drop or reorder entries: whatever the companion fetches
      return, the entries' keys, sizes and URLs are the same; only names can differ. */
  lemma ListingSurvivesMetadataFailures(app: App, objs: seq<S3Object>,
                                        f1: string -> FetchOutcome, f2: string -> FetchOutcome)
    ensures |Listing(app, objs, f1)| == |Listing(app, objs, f2)|
    ensures forall j :: 0 <= j < |Listing(app, objs, f1)| ==>
              var e1, e2 := Listing(app, objs, f1)[j], Listing(app, objs, f2)[j];
              e1.key == e2.key && e1.size == e2.size && e1.url == e2.url
  {
    ListingIsKeptInOrder(app, objs, f1);
    ListingIsKeptInOrder(app, objs, f2);
  }

  /** When no companion blob yields a file name (missing, unreadable, undecodable, or
      without the field), each listed object is named by its own key. */
  lemma ListingWithoutMetadata(app: App, objs: seq<S3Object>, fetch: string -> FetchOutcome)
    requires forall i :: 0 <= i < |objs| && IsListed(KeyOf(objs[i])) ==>
               !(fetch(KeyOf(objs[i]) + InfoSuffix).Decoded?
                 && FilenameField in fetch(KeyOf(objs[i]) + InfoSuffix).metaData)
    ensures forall j :: 0 <= j < |Listing(app, objs, fetch)| ==>
              Listing(app, objs, fetch)[j].name == Listing(app, objs, fetch)[j].key
  {
    ListingIsKeptInOrder(app, objs, fetch);
  }

  /** An endpoint on the internal host yields a browser URL on the browser host; only that
      first occurrence is rewritten, the bucket and key are kept verbatim. */
  lemma PublicUrlRewritesInternalHost(endpoint: string, bucket: string, key: string)
    requires HasPrefix(endpoint, InternalHost)
    ensures PublicUrl(endpoint, bucket, key) ==
              BrowserHost + endpoint[|InternalHost|..] + "/" + bucket + "/" + key
  {
    var raw := endpoint + "/" + bucket + "/" + key;
    assert raw[..|InternalHost|] == endpoint[..|InternalHost|];
    ReplaceFirstAtFront(raw, InternalHost, BrowserHost);
    assert raw[|InternalHost|..] == endpoint[|InternalHost|..] + "/" + bucket + "/" + key;
  }

  /** The filter looks only at the suffix: a directory-marker key such as `photos/` is
      listed like any data blob. */
  lemma DirectoryMarkerListed()
    ensures IsListed("photos/")
  {
  }

  /** An endpoint already on the browser host is left as it is. */
  lemma ExampleUrl()
    ensures PublicUrl("http://localhost:9000", "test-bucket", "file1.mp3")
            == "http://localhost:9000/test-bucket/file1.mp3"
  {
    AbsentWhenCharMissing("http://localhost:9000" + "/" + "test-bucket" + "/" + "file1.mp3", InternalHost, 9);
  }

  /** The entry the listing test expects for `file1.mp3`: named from its metadata blob and
      addressed on the browser host. */
  lemma ExampleEntry(fetch: string -> FetchOutcome)
    requires fetch("file1.mp3.info") == Decoded(map["filename" := "My Song.mp3"])
    ensures EntryFor(App("test-bucket", "http://localhost:9000"), S3Object(Some("file1.mp3"), Some(1000)), fetch)
            == FileInfo("file1.mp3", "My Song.mp3", 1000, "http://localhost:9000/test-bucket/file1.mp3")
  {
    assert DisplayName("file1.mp3", fetch(CompanionKey("file1.mp3"))) == "My Song.mp3" by {
      assert CompanionKey("file1.mp3") == "file1.mp3.info";
    }
    ExampleUrl();
  }

  /** The listing test: a data blob and its metadata blob give one entry, named from the
      metadata and addressed on the browser host. */
  lemma ListingExample(fetch: string -> FetchOutcome)
    requires fetch("file1.mp3.info") == Decoded(map["filename" := "My Song.mp3"])
    ensures Listing(App("test-bucket", "http://localhost:9000"),
                    [S3Object(Some("file1.mp3"), Some(1000)), S3Object(Some("file1.mp3.info"), Some(100))],
                    fetch)
            == [FileInfo("file1.mp3", "My Song.mp3", 1000, "http://localhost:9000/test-bucket/file1.mp3")]
  {
    var app := App("test-bucket", "http://localhost:9000");
    var data, info := S3Object(Some("file1.mp3"), Some(1000)), S3Object(Some("file1.mp3.info"), Some(100));
    var objs := [data, info];
    assert IsListed(KeyOf(data)) by { assert "file1.mp3"[4] == '1'; }
    assert !IsListed(KeyOf(info));
    ExampleEntry(fetch);
    ListingStep(app, objs, 0, fetch);
    ListingStep(app, objs, 1, fetch);
    assert objs[..2] == objs && objs[..0] == [];
  }
}
