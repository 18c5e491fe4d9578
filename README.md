# reddit-dl handler, modelled in Dafny

`handler.py` is an AWS Lambda function that mirrors the video of a reddit post
to a public S3 bucket. It is given a post url and does the following:

1. It extracts an id with a regular expression. The id is the six word
   characters after the rightmost slash that is followed by six word characters
   and then by a slash or the end of the url. For a full link whose title slug
   has exactly six word characters, the slug is returned instead of the post id.
2. It builds the storage key `<id>.mp4`.
3. It lists the bucket to see whether that key is already stored (a cache hit).
4. Otherwise it downloads the video with youtube_dl to `/tmp/<key>` and uploads
   it with a `public-read` ACL.
5. It answers with the public link `https://s3-<region>.amazonaws.com/<bucket>/<key>`,
   or with an error body.

The model has five modules:

- `RedditId` holds `strip_reddit_id`, defined twice:
  - `RegexMatch` follows the order in which Python's backtracking matcher tries
    `.*(?:comments)?\/(\w{6})(?:\/|$)`. The longest `.*` is tried first. For each
    length, the `comments` group is tried before the empty alternative.
  - `StripRedditId` scans for the rightmost slash that is followed by six word
    characters and then by a slash or the end of the url.
  - A lemma proves that the two agree on every string. `.` not matching a
    newline and `$` matching before a final newline are both modelled.
- `S3` holds the public link (`s3_key_to_link`) and the loop of
  `s3_key_exists`, which looks for an exact key in a listing.
- `Collaborators` holds a `Services` class that stands for the S3 client and the
  downloader. Its answers are fixed when the object is built, and it records
  every call made to it, in order.
- `Handler` holds `lambda_response`, `s3_key_exists`, the key and staging-path builders, and
  `main` as the method `HandleRequest`. That method is proved to follow
  `ExpectedRun`, a function that gives the reply and the list of service calls
  for each request and each set of service answers. Lemmas about `ExpectedRun`
  state the branch outcomes and their ordering.
- `Options` holds the `Option` type.

`lambda_response` ignores its `code` argument and always answers with status
200. The model keeps this. `ExpectedRun` records the code that `main` passes to
`lambda_response` (400, 500 or 200), and `CodeIsIgnored` states that this code
never reaches the response.

`s3_key_exists` catches nothing, so a failed listing call raises out of the
handler (handler.py:33-36, 66). The model does not treat it as a cache miss;
that path is listed below as left out.

## Model

| member | source | states |
|---|---|---|
| `RedditId.StripRedditId` | handler.py:12-22 | The result is `None` exactly when no slash qualifies. Otherwise it is six word characters following the rightmost qualifying slash. |
| `RedditId.RegexMatch` | handler.py:19-22 | The backtracking reference of `re.match` on the pattern; any id it returns is six word characters. Its equality with the scan is `StripRedditIdIsRegexMatch`. |
| `RedditId.LastQualifying` | handler.py:19-22 | Returns the largest qualifying position below `n`, with nothing qualifying between it and `n`, or `None` when no position below `n` qualifies. |
| `RedditId.BacktrackFindsRightmost` | handler.py:19-20 | Once nothing to the right of a given `.*` length qualifies, the backtracking matcher returns the id at the last qualifying slash. The `comments` alternative never wins. |
| `RedditId.StripRedditIdIsRegexMatch` | handler.py:19-22 | For every url, the scan returns the same result as `re.match` on the pattern, tried in Python's backtracking order. |
| `RedditId.IdIsDelimited` | handler.py:19-22 | A returned id has a slash right before it, and a slash, the end of the url or a final newline right after it. |
| `RedditId.RightmostDetermines` | handler.py:19-22 | If a qualifying slash has no qualifying slash to its right, its id is the result. |
| `RedditId.FullLinkExample` | handler.py:15-22 | The docstring's full link `.../comments/84c4kv/guikoji/` yields `84c4kv`. |
| `RedditId.SixCharacterSlugExample` | handler.py:14-22 | For `.../comments/84c4kv/guikoj/`, whose slug has six characters, the slash before `84c4kv` qualifies, but the slug `guikoj` is returned: the full-link promise of the docstring does not hold for such links. |
| `RedditId.ShortLinkExample` | handler.py:17-22 | The docstring's short link `https://redd.it/84c4kv` yields `84c4kv`. |
| `RedditId.NotAUrlExample` | handler.py:20-22 | `not-a-url` yields `None` and raises nothing. |
| `RedditId.RightmostWinsExample` | handler.py:19-22 | When two slashes qualify, the id after the rightmost one is returned. |
| `S3.S3KeyToLink` | handler.py:24-29 | The link is exactly `https://s3-` + region + `.amazonaws.com/` + bucket + `/` + key. |
| `S3.LinkRoundTrip` | handler.py:26-29 | Reading the key back from a link gives the key the link was built from. |
| `S3.LinkOfKeyOfLink` | handler.py:26-29 | Any link from which a key can be read back is the link of that key. |
| `S3.LinkDeterminesKey` | handler.py:26-29 | In one bucket and region, different keys have different links. |
| `S3.KeyInListing` | handler.py:37-39 | The loop answers true exactly when some entry's key equals `key`. Otherwise it falls through to a false answer. |
| `S3.LongerKeysDoNotCount` | handler.py:33-39 | Entries whose keys only start with `key` do not make `key` listed. |
| `S3.PrefixOnlyExample` | handler.py:33-39 | `84c4kv.mp4` is not found among `84c4kv.mp4.part` and `84c4kv.mp40`. It is found once the exact key is listed. |
| `Collaborators.Services.ListObjectsV2` | handler.py:33-36 | Returns the bucket's listing and records one listing call with the bucket and prefix. |
| `Collaborators.Services.YoutubeDownload` | handler.py:73-78 | Returns the download outcome and records the url and the output path. |
| `Collaborators.Services.UploadFile` | handler.py:87 | Returns the upload outcome and records the file, bucket, key and ACL. |
| `Handler.S3KeyExists` | handler.py:31-39 | Answers whether the listing holds `key` exactly, after one listing call scoped by the prefix `key`. |
| `Handler.LambdaResponse` | handler.py:41-49 | The status code is always 200. The headers are exactly `Access-Control-Allow-Origin: *` and `Access-Control-Allow-Credentials: True`. The body is the given one. |
| `Handler.CodeIsIgnored` | handler.py:41-49 | Two calls that differ only in `code` give the same response. |
| `Handler.MediaKey` | handler.py:65 | The key is the id followed by `.mp4`. |
| `Handler.MediaKeyRoundTrip` | handler.py:65 | The id can be read back from its key, so two ids never share a key. |
| `Handler.MediaKeyOfIdOfKey` | handler.py:65 | Every key that ends in `.mp4` is the key of the id read back from it. |
| `Handler.StagingPath` | handler.py:71 | The staging file is `/tmp/` followed by the key. |
| `Handler.ExpectedRun` | handler.py:51-93 | The reply `main` passes to `lambda_response` and the service calls it makes, for each request and each set of service answers. The code is always 200, 400 or 500, at most three calls are made, and a run with no calls is a 400. |
| `Handler.HandleRequest` | handler.py:51-93 | The response is `lambda_response` of the reply `ExpectedRun` gives. The calls made are exactly the calls `ExpectedRun` lists, in order. |
| `Handler.MissingUrlRejected` | handler.py:55-57 | Without a `url` parameter, the reply is 400 `url is missing` and no service is called. |
| `Handler.InvalidUrlRejected` | handler.py:60-62 | For a url without an id, the reply is 400 `url is invalid` and no service is called. |
| `Handler.NotAUrlRejected` | handler.py:60-62 | `not-a-url` is answered with 400 `url is invalid`. |
| `Handler.CallsFollowPipeline` | handler.py:65-87 | Once an id is found, the calls are a non-empty prefix of: list `<id>.mp4`, download to `/tmp/<id>.mp4`, upload that file under `<id>.mp4` with `public-read`. |
| `Handler.CacheHitSkipsTransfer` | handler.py:66-69 | On a cache hit, the reply is 200 with the key's link and the only call is the listing. |
| `Handler.FailedDownloadSkipsUpload` | handler.py:71-83 | An unsupported url is answered with 400 `url is invalid`. Any other download error gives 500 with an empty body. Neither is followed by an upload. |
| `Handler.UploadOnlyAfterDownload` | handler.py:66-90 | An upload happens only as the third call. It follows a listing of the same key that found no exact match, and a download that ended normally to the same file, `/tmp/<key>`. The upload is `public-read`. |
| `Handler.FailedUploadIsInternal` | handler.py:85-90 | A failed upload gives 500 with an empty body. |
| `Handler.PublishAnswersLikeCacheHit` | handler.py:66-93 | A successful download and upload gives the same reply as a cache hit on the same key. |
| `Handler.RepeatedRequestHitsCache` | handler.py:66-93 | Once the uploaded key is listed, the same request is a cache hit. It gives the same reply after a single listing call. |
| `Handler.ReplyKinds` | handler.py:51-93 | Code 200 always comes with a link, 400 with an error message and 500 with an empty body. |
| `Handler.StoredFullLinkScenario` | handler.py:60-69 | The full link, already stored, with the default region and bucket, is answered with the link of `84c4kv.mp4`. Only the listing call is made. |
| `Handler.NewShortLinkScenario` | handler.py:60-93 | The short link, not yet stored, is downloaded and uploaded as `84c4kv.mp4`. The reply is the same link. |

## Left out

- The boto3 client and its network calls are not modelled. The bucket listing is an input to `Services`. Only the first page of `list_objects_v2` is read, so the listing stands for that page.
- The youtube_dl download is reduced to three outcomes: done, `UnsupportedError`, or any other exception. This leaves out its format selector (`bestvideo[filesize<100M,ext=mp4]+bestaudio/best[filesize<100M]/best`) and the ffmpeg transcoding it runs. The file it writes is not modelled, only its path.
- The upload's file contents and the object it creates are not modelled. Only the call and its arguments are recorded.
- The PATH change at import and the `print` logging are not modelled.
- The bucket and region are parameters of `HandleRequest`. In the source they come from `AWS_BUCKET` and `AWS_REGION`, with defaults `reddit-hosted-videos` and `eu-central-1`. The scenario lemmas use those defaults.
- `json.dumps` is not modelled. The body is the `Body` value passed to it: a link, an error message or empty.
- RedditId.StripRedditId: `\w` is taken as ASCII letters, digits and `_`. Python 3 also counts non-ASCII letters and digits as word characters, so those urls are modelled more narrowly.
- Some exceptions escape the handler and are not modelled. These are errors from the existence check, upload errors other than `S3UploadFailedError`, an event with no `queryStringParameters` key (a `KeyError` at handler.py:55), and an event whose `queryStringParameters` is `None`. `Handler.Event` always holds a map of parameters, so it cannot represent the last two.
- The `context` argument of `main` is unused and not modelled.
- Concurrent requests for the same post can race. The model covers one invocation at a time.
- There is no title lookup: `handler.py` builds the key from the id alone.
- The `__main__` demo block is not modelled.
