/** `Blob`, `ArrayBuffer` and the document's blob URL store behind
    `URL.createObjectURL` / `URL.revokeObjectURL`. The store is kept as ghost
    state: the URLs that are live, every URL ever handed out with its Blob, and
    the log of revoke calls. */
module Blobs {
  import opened Js

  /** A `blob:` URL. URLs are numbered in creation order and never reused. */
  datatype Url = BlobUrl(id: nat)

  /** `new Blob([bytes], { type: mimeType })`. */
  datatype Blob = Blob(bytes: seq<byte>, mimeType: string)

  /** An `ArrayBuffer`: an object, so two buffers with equal bytes are still two
      different keys for `===`, `useMemo` and effect dependencies. */
  class ArrayBuffer {
    const bytes: seq<byte>

    constructor (bytes: seq<byte>)
      ensures this.bytes == bytes
    {
      this.bytes := bytes;
    }

    /** `byteLength`. */
    function ByteLength(): nat
    {
      |bytes|
    }
  }

  class UrlRegistry {
    /** Number of `URL.createObjectURL` calls so far; the next URL's id. */
    var created: nat
    /** URLs created and not yet revoked. */
    ghost var live: set<Url>
    /** Every URL handed out, with the Blob it stands for. */
    ghost var blobs: map<Url, Blob>
    /** Every `URL.revokeObjectURL` call, in order. */
    ghost var revokeLog: seq<Url>

    ghost predicate Valid()
      reads this
    {
      (forall u :: u in blobs ==> u.id < created) && live <= blobs.Keys
    }

    constructor ()
      ensures Valid()
      ensures created == 0 && live == {} && blobs == map[] && revokeLog == []
    {
      created := 0;
      live := {};
      blobs := map[];
      revokeLog := [];
    }

    /** `URL.createObjectURL(blob)`: a URL never seen before, live from now on. */
    method CreateObjectURL(blob: Blob) returns (url: Url)
      requires Valid()
      modifies this
      ensures Valid()
      ensures url == BlobUrl(old(created)) && url !in old(blobs)
      ensures created == old(created) + 1
      ensures live == old(live) + {url} && blobs == old(blobs)[url := blob]
      ensures revokeLog == old(revokeLog)
    {
      url := BlobUrl(created);
      created := created + 1;
      live := live + {url};
      blobs := blobs[url := blob];
    }

    /** `URL.revokeObjectURL(url)`: the URL stops being live; revoking a URL that
        is not live does nothing else, but the call is still logged. */
    method RevokeObjectURL(url: Url)
      requires Valid()
      modifies this
      ensures Valid()
      ensures created == old(created) && blobs == old(blobs)
      ensures live == old(live) - {url} && revokeLog == old(revokeLog) + [url]
    {
      live := live - {url};
      revokeLog := revokeLog + [url];
    }
  }

  /** How many times `url` occurs in a revoke log. */
  function Count(log: seq<Url>, url: Url): (n: nat)
    ensures n <= |log|
  {
    if log == [] then 0 else (if log[|log| - 1] == url then 1 else 0) + Count(log[..|log| - 1], url)
  }

  lemma {:induction false} CountAppend(log: seq<Url>, extra: seq<Url>, url: Url)
    ensures Count(log + extra, url) == Count(log, url) + Count(extra, url)
    decreases |extra|
  {
    if extra == [] {
      assert log + extra == log;
    } else {
      assert (log + extra)[..|log + extra| - 1] == log + extra[..|extra| - 1];
      CountAppend(log, extra[..|extra| - 1], url);
    }
  }
}
