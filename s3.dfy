/**
 * The pure parts of the handler's S3 helpers: the public link of an object
 * (`s3_key_to_link`) and the exact-key search over a `list_objects_v2`
 * listing (the loop of `s3_key_exists`).
 */
module S3 {
  import opened Options

  /** One entry of the `Contents` of a `list_objects_v2` response. */
  datatype ObjectSummary = ObjectSummary(key: string)

  /** The fixed part of every public link into `bucket` in `region`. */
  function LinkPrefix(region: string, bucket: string): string {
    "https://s3-" + region + ".amazonaws.com/" + bucket + "/"
  }

  /** `s3_key_to_link`: the public address of `key` in `bucket`. */
  function S3KeyToLink(region: string, bucket: string, key: string): (link: string)
    ensures link == "https://s3-" + region + ".amazonaws.com/" + bucket + "/" + key
  {
    LinkPrefix(region, bucket) + key
  }

  /** The key a public link of `bucket` in `region` points at, if it is one. */
  function KeyOfLink(region: string, bucket: string, link: string): Option<string> {
    var prefix := LinkPrefix(region, bucket);
    if |prefix| <= |link| && link[..|prefix|] == prefix then Some(link[|prefix|..]) else None
  }

  /** Reading a link back gives the key it was made from. */
  lemma LinkRoundTrip(region: string, bucket: string, key: string)
    ensures KeyOfLink(region, bucket, S3KeyToLink(region, bucket, key)) == Some(key)
  {
  }

  /** Every link of the bucket is the link of the key read back from it. */
  lemma LinkOfKeyOfLink(region: string, bucket: string, link: string, key: string)
    requires KeyOfLink(region, bucket, link) == Some(key)
    ensures S3KeyToLink(region, bucket, key) == link
  {
  }

  /** Within one bucket and region, different keys have different links. */
  lemma LinkDeterminesKey(region: string, bucket: string, key1: string, key2: string)
    requires S3KeyToLink(region, bucket, key1) == S3KeyToLink(region, bucket, key2)
    ensures key1 == key2
  {
    LinkRoundTrip(region, bucket, key1);
    LinkRoundTrip(region, bucket, key2);
  }

  /** Some entry of the listing has exactly `key` as its key. */
  predicate Listed(contents: seq<ObjectSummary>, key: string) {
    exists i :: 0 <= i < |contents| && contents[i].key == key
  }

  /** The loop of `s3_key_exists`: true on the first entry whose key equals
      `key`, false (the Python `None`) when the loop runs out. */
  method KeyInListing(contents: seq<ObjectSummary>, key: string) returns (found: bool)
    ensures found <==> Listed(contents, key)
  {
    for i := 0 to |contents|
      invariant forall j :: 0 <= j < i ==> contents[j].key != key
    {
      if contents[i].key == key {
        return true;
      }
    }
    return false;
  }

  /** A listing is scoped by prefix, so it may hold keys that only start with
      `key`; such entries do not make `key` listed. */
  lemma LongerKeysDoNotCount(contents: seq<ObjectSummary>, key: string)
    requires forall i :: 0 <= i < |contents| ==> |contents[i].key| > |key| && contents[i].key[..|key|] == key
    ensures !Listed(contents, key)
  {
  }

  /** Scenario: `84c4kv.mp4` is not found among its longer-named neighbours. */
  lemma PrefixOnlyExample()
    ensures !Listed([ObjectSummary("84c4kv.mp4.part"), ObjectSummary("84c4kv.mp40")], "84c4kv.mp4")
    ensures Listed([ObjectSummary("84c4kv.mp4.part"), ObjectSummary("84c4kv.mp4")], "84c4kv.mp4")
  {
    var hit := [ObjectSummary("84c4kv.mp4.part"), ObjectSummary("84c4kv.mp4")];
    assert hit[1].key == "84c4kv.mp4";
  }
}
