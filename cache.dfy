/** The server's result cache: results are stored under a key built from the
    digest of the uploaded bytes and the digest of the request's prompt text. */
module Cache {
  import opened Values

  /** Length of an MD5 hex digest. */
  const DIGEST_LENGTH: nat := 32

  /** `md5(file).hexdigest() + "_" + md5(prompt.encode()).hexdigest()`; the digest and the
      UTF-8 encoder are supplied by the caller. */
  function CacheKey(md5: seq<bv8> -> string, utf8: string -> seq<bv8>, content: seq<bv8>, prompt: string): string
  {
    md5(content) + "_" + md5(utf8(prompt))
  }

  /** With fixed-width digests, two requests share a key exactly when both their
      file digests and their prompt digests agree (so equal inputs share a key). */
  lemma CacheKeyDeterminesDigests(md5: seq<bv8> -> string, utf8: string -> seq<bv8>,
                                  c1: seq<bv8>, p1: string, c2: seq<bv8>, p2: string)
    requires |md5(c1)| == DIGEST_LENGTH && |md5(c2)| == DIGEST_LENGTH
    ensures CacheKey(md5, utf8, c1, p1) == CacheKey(md5, utf8, c2, p2)
            <==> md5(c1) == md5(c2) && md5(utf8(p1)) == md5(utf8(p2))
  {
    var k1, k2 := CacheKey(md5, utf8, c1, p1), CacheKey(md5, utf8, c2, p2);
    if k1 == k2 {
      assert md5(c1) == k1[..DIGEST_LENGTH] == k2[..DIGEST_LENGTH] == md5(c2);
      assert md5(utf8(p1)) == k1[DIGEST_LENGTH + 1..] == k2[DIGEST_LENGTH + 1..] == md5(utf8(p2));
    }
  }

  /** The object stored under `key` in `entries`, if any. */
  function Stored(entries: map<string, Object>, key: string): Option<Object>
  {
    if key in entries then Some(entries[key]) else None
  }

  /** The cache directory, one stored JSON object per key. */
  class ResultCache {
    var entries: map<string, Object>

    constructor ()
      ensures entries == map[]
    {
      entries := map[];
    }

    /** `get_cached_result`: the object stored under `key`, or nothing. */
    method Get(key: string) returns (r: Option<Object>)
      ensures r.Some? <==> key in entries
      ensures r.Some? ==> r.value == entries[key]
    {
      if key in entries {
        r := Some(entries[key]);
      } else {
        r := None;
      }
    }

    /** `save_to_cache`: stores `result` under `key`, replacing what was there;
        every other key keeps its entry. */
    method Save(key: string, result: Object)
      modifies this
      ensures key in entries && entries[key] == result
      ensures forall k :: k != key ==> (k in entries <==> k in old(entries))
      ensures forall k :: k != key && k in entries ==> entries[k] == old(entries)[k]
    {
      entries := entries[key := result];
    }
  }
}
