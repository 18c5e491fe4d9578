/**
 * The Lambda entry point `main` and the helpers it builds its answer with:
 * the storage key `<id>.mp4`, the staging file `/tmp/<key>` and
 * `lambda_response`.
 *
 * `ExpectedRun` states, as a function of the request and of the services'
 * answers, what `main` hands to `lambda_response` and which service calls
 * it makes; `HandleRequest` is `main` written as the sequence of calls the
 * Python code makes, proved to follow `ExpectedRun`; the lemmas state what
 * `ExpectedRun` guarantees.
 */
module Handler {
  import opened Options
  import opened RedditId
  import opened S3
  import opened Collaborators

  const MissingUrlMessage := "url is missing"
  const InvalidUrlMessage := "url is invalid"
  /** The extension of every stored video. */
  const MediaExtension := ".mp4"
  /** Where the video is written before it is uploaded. */
  const StagingDir := "/tmp/"
  /** The canned ACL of every upload. */
  const PublicRead := "public-read"

  /** The object passed to `json.dumps` as the response body. */
  datatype Body = LinkBody(link: string) | ErrorBody(error: string) | EmptyBody

  /** A header value: the Python dict holds a string and a boolean. */
  datatype HeaderValue = Text(text: string) | Flag(flag: bool)

  datatype Response = Response(statusCode: int, headers: map<string, HeaderValue>, body: Body)

  /** The arguments of one `lambda_response(code, body)` call. */
  datatype Reply = Reply(code: int, body: Body)

  /** The Lambda event; only its query string parameters are read. */
  datatype Event = Event(queryStringParameters: map<string, string>)

  /** What one invocation does: the reply it builds and the calls it makes. */
  datatype Run = Run(reply: Reply, calls: seq<Call>)

  /** The CORS headers of every response. */
  const CorsHeaders: map<string, HeaderValue> :=
    map["Access-Control-Allow-Origin" := Text("*"), "Access-Control-Allow-Credentials" := Flag(true)]

  /** `lambda_response`: the status code is always 200, whatever `code` says. */
  function LambdaResponse(code: int, body: Body): (r: Response)
    ensures r.statusCode == 200
    ensures r.headers.Keys == {"Access-Control-Allow-Origin", "Access-Control-Allow-Credentials"}
    ensures r.headers["Access-Control-Allow-Origin"] == Text("*")
    ensures r.headers["Access-Control-Allow-Credentials"] == Flag(true)
    ensures r.body == body
  {
    Response(200, CorsHeaders, body)
  }

  /** The `code` argument has no effect on the response. */
  lemma CodeIsIgnored(code1: int, code2: int, body: Body)
    ensures LambdaResponse(code1, body) == LambdaResponse(code2, body)
  {
  }

  /** The storage key of a post: `'{}.mp4'.format(id)`. */
  function MediaKey(id: string): (key: string)
    ensures |key| == |id| + |MediaExtension| && key[..|id|] == id
    ensures key[|id|..] == MediaExtension
  {
    id + MediaExtension
  }

  /** The post id a storage key was made from, if it is one. */
  function IdOfKey(key: string): Option<string> {
    if |key| >= |MediaExtension| && key[|key| - |MediaExtension|..] == MediaExtension
    then Some(key[..|key| - |MediaExtension|])
    else None
  }

  /** A key gives back the id it was made from, so two ids never share a key. */
  lemma MediaKeyRoundTrip(id: string)
    ensures IdOfKey(MediaKey(id)) == Some(id)
  {
  }

  /** Every key ending in `.mp4` is the key of the id read back from it. */
  lemma MediaKeyOfIdOfKey(key: string, id: string)
    requires IdOfKey(key) == Some(id)
    ensures MediaKey(id) == key
  {
  }

  /** The local file the video is written to: `'/tmp/' + key`. */
  function StagingPath(key: string): (path: string)
    ensures |path| == |StagingDir| + |key|
    ensures path[..|StagingDir|] == StagingDir && path[|StagingDir|..] == key
  {
    StagingDir + key
  }

  /** `s3_key_exists`: lists the objects of `bucket` prefixed by `key` and
      reports whether one of them is exactly `key`. */
  method S3KeyExists(services: Services, bucket: string, key: string) returns (found: bool)
    modifies services
    ensures found <==> Listed(services.listing, key)
    ensures services.calls == old(services.calls) + [ListObjects(bucket, key)]
  {
    var contents := services.ListObjectsV2(bucket, key);
    found := KeyInListing(contents, key);
  }

  /** The calls of an invocation that goes all the way, in order: one key
      for the existence check, the download target and the upload. */
  function Pipeline(url: string, bucket: string, key: string): seq<Call> {
    [ListObjects(bucket, key), Download(url, StagingPath(key)), Upload(StagingPath(key), bucket, key, PublicRead)]
  }

  /** What `main` does with `event` when the listing of the bucket is
      `listing` and the download and upload end as given. */
  function ExpectedRun(event: Event, region: string, bucket: string,
                       listing: seq<ObjectSummary>, download: DownloadOutcome, upload: UploadOutcome): (r: Run)
    ensures r.reply.code == 200 || r.reply.code == 400 || r.reply.code == 500
    ensures |r.calls| <= 3
    ensures r.calls == [] ==> r.reply.code == 400
  {
    if "url" !in event.queryStringParameters then
      Run(Reply(400, ErrorBody(MissingUrlMessage)), [])
    else
      var url := event.queryStringParameters["url"];
      match StripRedditId(url)
      case None => Run(Reply(400, ErrorBody(InvalidUrlMessage)), [])
      case Some(id) =>
        var key := MediaKey(id);
        var link := S3KeyToLink(region, bucket, key);
        var calls := Pipeline(url, bucket, key);
        if Listed(listing, key) then Run(Reply(200, LinkBody(link)), calls[..1])
        else match download
          case Unsupported => Run(Reply(400, ErrorBody(InvalidUrlMessage)), calls[..2])
          case DownloadError => Run(Reply(500, EmptyBody), calls[..2])
          case Downloaded =>
            if upload == UploadFailed then Run(Reply(500, EmptyBody), calls)
            else Run(Reply(200, LinkBody(link)), calls)
  }

  /** `main(event, context)`, with the bucket and region passed in. */
  method HandleRequest(event: Event, region: string, bucket: string, services: Services) returns (response: Response)
    modifies services
    ensures var run := ExpectedRun(event, region, bucket, services.listing, services.downloadOutcome, services.uploadOutcome);
            response == LambdaResponse(run.reply.code, run.reply.body)
            && services.calls == old(services.calls) + run.calls
  {
    if "url" !in event.queryStringParameters {
      return LambdaResponse(400, ErrorBody(MissingUrlMessage));
    }
    var url := event.queryStringParameters["url"];

    var id := StripRedditId(url);
    if id.None? {
      return LambdaResponse(400, ErrorBody(InvalidUrlMessage));
    }

    var key := MediaKey(id.value);
    var stored := S3KeyExists(services, bucket, key);
    if stored {
      var link := S3KeyToLink(region, bucket, key);
      return LambdaResponse(200, LinkBody(link));
    }

    var filename := StagingPath(key);
    var downloaded := services.YoutubeDownload(url, filename);
    match downloaded {
      case Unsupported =>
        return LambdaResponse(400, ErrorBody(InvalidUrlMessage));
      case DownloadError =>
        return LambdaResponse(500, EmptyBody);
      case Downloaded =>
    }

    var uploaded := services.UploadFile(filename, bucket, key, PublicRead);
    if uploaded == UploadFailed {
      return LambdaResponse(500, EmptyBody);
    }

    return LambdaResponse(200, LinkBody(S3KeyToLink(region, bucket, key)));
  }

  // ---------------------------------------------------------------------
  // What an invocation guarantees.
  // ---------------------------------------------------------------------

  /** Without a `url` parameter the request is rejected before anything else. */
  lemma MissingUrlRejected(event: Event, region: string, bucket: string,
                           listing: seq<ObjectSummary>, download: DownloadOutcome, upload: UploadOutcome)
    requires "url" !in event.queryStringParameters
    ensures ExpectedRun(event, region, bucket, listing, download, upload)
         == Run(Reply(400, ErrorBody("url is missing")), [])
  {
  }

  /** A url without an id is rejected before any service is called. */
  lemma InvalidUrlRejected(event: Event, region: string, bucket: string,
                           listing: seq<ObjectSummary>, download: DownloadOutcome, upload: UploadOutcome)
    requires "url" in event.queryStringParameters
    requires StripRedditId(event.queryStringParameters["url"]) == None
    ensures ExpectedRun(event, region, bucket, listing, download, upload)
         == Run(Reply(400, ErrorBody("url is invalid")), [])
  {
  }

  /** Scenario: `not-a-url` is rejected as invalid. */
  lemma NotAUrlRejected(region: string, bucket: string,
                        listing: seq<ObjectSummary>, download: DownloadOutcome, upload: UploadOutcome)
    ensures ExpectedRun(Event(map["url" := "not-a-url"]), region, bucket, listing, download, upload)
         == Run(Reply(400, ErrorBody("url is invalid")), [])
  {
  }

  /** Once an id is found, the calls made are a non-empty prefix of the full
      pipeline: the existence check first, then the download, then the
      upload, all with the one key `<id>.mp4` and its staging file. */
  lemma CallsFollowPipeline(event: Event, region: string, bucket: string,
                            listing: seq<ObjectSummary>, download: DownloadOutcome, upload: UploadOutcome, id: string)
    requires "url" in event.queryStringParameters
    requires StripRedditId(event.queryStringParameters["url"]) == Some(id)
    ensures var calls := ExpectedRun(event, region, bucket, listing, download, upload).calls;
            0 < |calls| && calls <= Pipeline(event.queryStringParameters["url"], bucket, id + ".mp4")
  {
  }

  /** On a cache hit the link is returned and nothing is downloaded or uploaded. */
  lemma CacheHitSkipsTransfer(event: Event, region: string, bucket: string,
                              listing: seq<ObjectSummary>, download: DownloadOutcome, upload: UploadOutcome, id: string)
    requires "url" in event.queryStringParameters
    requires StripRedditId(event.queryStringParameters["url"]) == Some(id)
    requires Listed(listing, MediaKey(id))
    ensures ExpectedRun(event, region, bucket, listing, download, upload)
         == Run(Reply(200, LinkBody(S3KeyToLink(region, bucket, MediaKey(id)))), [ListObjects(bucket, MediaKey(id))])
  {
  }

  /** A failed download answers by its kind and never leads to an upload. */
  lemma FailedDownloadSkipsUpload(event: Event, region: string, bucket: string,
                                  listing: seq<ObjectSummary>, download: DownloadOutcome, upload: UploadOutcome, id: string)
    requires "url" in event.queryStringParameters
    requires StripRedditId(event.queryStringParameters["url"]) == Some(id)
    requires !Listed(listing, MediaKey(id))
    requires download != Downloaded
    ensures var run := ExpectedRun(event, region, bucket, listing, download, upload);
            run.calls == [ListObjects(bucket, MediaKey(id)), Download(event.queryStringParameters["url"], "/tmp/" + MediaKey(id))]
            && run.reply == (if download == Unsupported then Reply(400, ErrorBody("url is invalid")) else Reply(500, EmptyBody))
  {
  }

  /** An upload is attempted only after a cache miss and a download that ended
      normally, and it is always the last call. */
  lemma UploadOnlyAfterDownload(event: Event, region: string, bucket: string,
                                listing: seq<ObjectSummary>, download: DownloadOutcome, upload: UploadOutcome, i: nat)
    requires var calls := ExpectedRun(event, region, bucket, listing, download, upload).calls;
             i < |calls| && calls[i].Upload?
    ensures download == Downloaded
    ensures var calls := ExpectedRun(event, region, bucket, listing, download, upload).calls;
            i == 2
            && calls[0] == ListObjects(calls[i].bucket, calls[i].key) && !Listed(listing, calls[i].key)
            && calls[1] == Download(event.queryStringParameters["url"], calls[i].filename)
            && calls[i].filename == "/tmp/" + calls[i].key && calls[i].acl == "public-read"
  {
  }

  /** A failed upload gives an empty internal-error reply. */
  lemma FailedUploadIsInternal(event: Event, region: string, bucket: string,
                               listing: seq<ObjectSummary>, id: string)
    requires "url" in event.queryStringParameters
    requires StripRedditId(event.queryStringParameters["url"]) == Some(id)
    requires !Listed(listing, MediaKey(id))
    ensures ExpectedRun(event, region, bucket, listing, Downloaded, UploadFailed).reply == Reply(500, EmptyBody)
  {
  }

  /** A successful publish answers with the very reply a cache hit for the
      same key gives. */
  lemma PublishAnswersLikeCacheHit(event: Event, region: string, bucket: string,
                                   missing: seq<ObjectSummary>, present: seq<ObjectSummary>,
                                   download: DownloadOutcome, upload: UploadOutcome, id: string)
    requires "url" in event.queryStringParameters
    requires StripRedditId(event.queryStringParameters["url"]) == Some(id)
    requires !Listed(missing, MediaKey(id)) && Listed(present, MediaKey(id))
    ensures ExpectedRun(event, region, bucket, missing, Downloaded, Uploaded).reply
         == ExpectedRun(event, region, bucket, present, download, upload).reply
         == Reply(200, LinkBody(S3KeyToLink(region, bucket, MediaKey(id))))
  {
  }

  /** Once the uploaded key shows up in the listing, the same request again is
      a cache hit with the same reply and a single listing call. */
  lemma RepeatedRequestHitsCache(event: Event, region: string, bucket: string,
                                 before: seq<ObjectSummary>, after: seq<ObjectSummary>,
                                 download: DownloadOutcome, upload: UploadOutcome)
    requires var first := ExpectedRun(event, region, bucket, before, Downloaded, Uploaded);
             |first.calls| == 3 && Listed(after, first.calls[2].key)
    ensures var first := ExpectedRun(event, region, bucket, before, Downloaded, Uploaded);
            (ExpectedRun(event, region, bucket, after, download, upload)
             == Run(first.reply, [ListObjects(bucket, first.calls[2].key)]))
  {
  }

  /** The reply's code and body always agree: 200 with a link, 400 with an
      error message, 500 with an empty body (no detail leaks). */
  lemma ReplyKinds(event: Event, region: string, bucket: string,
                   listing: seq<ObjectSummary>, download: DownloadOutcome, upload: UploadOutcome)
    ensures var reply := ExpectedRun(event, region, bucket, listing, download, upload).reply;
            (reply.code == 200 <==> reply.body.LinkBody?)
            && (reply.code == 400 <==> reply.body.ErrorBody?)
            && (reply.code == 500 <==> reply.body.EmptyBody?)
  {
  }

  /** Scenario: the full link, already stored, with the default region and
      bucket, answers with the public link of `84c4kv.mp4` after one call. */
  lemma StoredFullLinkScenario(download: DownloadOutcome, upload: UploadOutcome)
    ensures ExpectedRun(Event(map["url" := "https://www.reddit.com/r/bjj/comments/84c4kv/guikoji/"]),
                        "eu-central-1", "reddit-hosted-videos",
                        [ObjectSummary("84c4kv.mp4")], download, upload)
         == Run(Reply(200, LinkBody(S3KeyToLink("eu-central-1", "reddit-hosted-videos", "84c4kv.mp4"))),
                [ListObjects("reddit-hosted-videos", "84c4kv.mp4")])
  {
    var url := "https://www.reddit.com/r/bjj/comments/84c4kv/guikoji/";
    FullLinkExample();
    assert MediaKey("84c4kv") == "84c4kv.mp4";
    assert Listed([ObjectSummary("84c4kv.mp4")], "84c4kv.mp4") by {
      assert [ObjectSummary("84c4kv.mp4")][0].key == "84c4kv.mp4";
    }
    CacheHitSkipsTransfer(Event(map["url" := url]), "eu-central-1", "reddit-hosted-videos",
                          [ObjectSummary("84c4kv.mp4")], download, upload, "84c4kv");
  }

  /** Scenario: the short link, not yet stored, downloaded and uploaded,
      answers with the same link after the three calls. */
  lemma NewShortLinkScenario()
    ensures ExpectedRun(Event(map["url" := "https://redd.it/84c4kv"]),
                        "eu-central-1", "reddit-hosted-videos", [], Downloaded, Uploaded)
         == Run(Reply(200, LinkBody(S3KeyToLink("eu-central-1", "reddit-hosted-videos", "84c4kv.mp4"))),
                [ListObjects("reddit-hosted-videos", "84c4kv.mp4"),
                 Download("https://redd.it/84c4kv", "/tmp/84c4kv.mp4"),
                 Upload("/tmp/84c4kv.mp4", "reddit-hosted-videos", "84c4kv.mp4", "public-read")])
  {
    ShortLinkExample();
    assert MediaKey("84c4kv") == "84c4kv.mp4";
    assert StagingPath("84c4kv.mp4") == "/tmp/84c4kv.mp4";
    assert !Listed([], "84c4kv.mp4");
  }
}
