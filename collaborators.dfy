/**
 * The external services one handler invocation talks to: the S3 client
 * (`list_objects_v2`, `upload_file`) and the youtube_dl downloader. Their
 * answers are fixed when the object is built; every call is recorded in
 * `calls`, in order, so that which calls were made, with which arguments,
 * can be stated about the handler.
 */
module Collaborators {
  import opened S3

  /** How `YoutubeDL.download` ends: normally, by raising `UnsupportedError`,
      or by raising any other exception. */
  datatype DownloadOutcome = Downloaded | Unsupported | DownloadError

  /** How `upload_file` ends: normally, or by raising `S3UploadFailedError`. */
  datatype UploadOutcome = Uploaded | UploadFailed

  /** One call made to a service. */
  datatype Call =
    | ListObjects(bucket: string, prefix: string)
    | Download(url: string, outtmpl: string)
    | Upload(filename: string, bucket: string, key: string, acl: string)

  class Services {
    /** The `Contents` of the first page `list_objects_v2` returns. */
    const listing: seq<ObjectSummary>
    /** How the download ends, if one is made. */
    const downloadOutcome: DownloadOutcome
    /** How the upload ends, if one is made. */
    const uploadOutcome: UploadOutcome
    /** The calls made so far, oldest first. */
    var calls: seq<Call>

    constructor (listing: seq<ObjectSummary>, downloadOutcome: DownloadOutcome, uploadOutcome: UploadOutcome)
      ensures this.listing == listing
      ensures this.downloadOutcome == downloadOutcome
      ensures this.uploadOutcome == uploadOutcome
      ensures calls == []
    {
      this.listing := listing;
      this.downloadOutcome := downloadOutcome;
      this.uploadOutcome := uploadOutcome;
      calls := [];
    }

    /** `s3.list_objects_v2(Bucket=bucket, Prefix=prefix)['Contents']`. */
    method ListObjectsV2(bucket: string, prefix: string) returns (contents: seq<ObjectSummary>)
      modifies this
      ensures contents == listing
      ensures calls == old(calls) + [ListObjects(bucket, prefix)]
    {
      contents := listing;
      calls := calls + [ListObjects(bucket, prefix)];
    }

    /** `YoutubeDL({'outtmpl': outtmpl, ...}).download([url])`. */
    method YoutubeDownload(url: string, outtmpl: string) returns (outcome: DownloadOutcome)
      modifies this
      ensures outcome == downloadOutcome
      ensures calls == old(calls) + [Download(url, outtmpl)]
    {
      outcome := downloadOutcome;
      calls := calls + [Download(url, outtmpl)];
    }

    /** `s3.upload_file(filename, bucket, key, ExtraArgs={'ACL': acl})`. */
    method UploadFile(filename: string, bucket: string, key: string, acl: string) returns (outcome: UploadOutcome)
      modifies this
      ensures outcome == uploadOutcome
      ensures calls == old(calls) + [Upload(filename, bucket, key, acl)]
    {
      outcome := uploadOutcome;
      calls := calls + [Upload(filename, bucket, key, acl)];
    }
  }
}
