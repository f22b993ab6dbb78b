/** The URL-cleanup effect that `useBase64ToObjectURL` and `useBinaryToObjectURL`
    share word for word (`useEffect(..., [objectURL])`): when the memoised URL
    changes, the previous run's cleanup revokes the old URL, and the new run
    revokes `previousUrlRef` again if it differs from the new URL, then stores
    the new URL (or `null`) in `previousUrlRef`. */
module RevokePreviousEffect {
  import opened Js
  import opened Blobs

  /** The old URL `u` leaves the live set and is logged as revoked twice. */
  ghost predicate RevokedTwice(r0: set<Url>, l0: seq<Url>, r1: set<Url>, l1: seq<Url>, u: Url)
  {
    r1 == r0 - {u} && l1 == l0 + [u, u]
  }

  class UrlEffect {
    const registry: UrlRegistry
    /** The effect has run at least once (it first runs after the first render). */
    var ran: bool
    /** The `objectURL` the last run saw: its dependency and what its cleanup revokes. */
    var seen: Option<Url>
    /** `previousUrlRef.current`. */
    var previousUrlRef: Option<Url>

    ghost predicate Valid()
      reads this
    {
      (ran ==> previousUrlRef == seen) && (!ran ==> previousUrlRef == None && seen == None)
    }

    constructor (registry: UrlRegistry)
      ensures Valid() && this.registry == registry
      ensures !ran && seen == None && previousUrlRef == None
    {
      this.registry := registry;
      ran, seen, previousUrlRef := false, None, None;
    }

    /** The commit after a render that produced `objectUrl`. The effect re-runs
        only when its dependency changed; the revoke of the old URL then happens
        twice, once in the old cleanup and once in the new body. `undefined` is
        never revoked. */
    method Commit(objectUrl: Option<Url>)
      requires Valid() && registry.Valid()
      modifies this, registry
      ensures Valid() && registry.Valid()
      ensures ran && seen == objectUrl && previousUrlRef == objectUrl
      ensures registry.created == old(registry.created) && registry.blobs == old(registry.blobs)
      ensures old(ran) && old(seen).Some? && old(seen) != objectUrl ==>
        RevokedTwice(old(registry.live), old(registry.revokeLog), registry.live, registry.revokeLog, old(seen).value)
      ensures !(old(ran) && old(seen).Some? && old(seen) != objectUrl) ==>
        registry.live == old(registry.live) && registry.revokeLog == old(registry.revokeLog)
    {
      if ran && seen == objectUrl {
        return;
      }
      // the cleanup of the previous run
      if ran && seen.Some? {
        registry.RevokeObjectURL(seen.value);
      }
      // the new run
      if previousUrlRef.Some? && previousUrlRef != objectUrl {
        registry.RevokeObjectURL(previousUrlRef.value);
      }
      previousUrlRef := objectUrl;
      ran, seen := true, objectUrl;
    }

    /** Unmount runs the last cleanup: the current URL, if any, is revoked once. */
    method Unmount()
      requires Valid() && registry.Valid()
      modifies this, registry
      ensures Valid() && registry.Valid() && !ran && seen == None
      ensures registry.created == old(registry.created) && registry.blobs == old(registry.blobs)
      ensures old(ran) && old(seen).Some? ==>
        registry.live == old(registry.live) - {old(seen).value} &&
        registry.revokeLog == old(registry.revokeLog) + [old(seen).value]
      ensures !(old(ran) && old(seen).Some?) ==>
        registry.live == old(registry.live) && registry.revokeLog == old(registry.revokeLog)
    {
      if ran && seen.Some? {
        registry.RevokeObjectURL(seen.value);
      }
      ran, seen, previousUrlRef := false, None, None;
    }
  }
}

/** `useBase64ToObjectURL(base64Data, mimeType)`: a memoised Blob URL for a
    Base64 frame. The memo re-computes only when `base64Data` or `mimeType`
    changes; `null` or `""` gives `undefined` and creates nothing; otherwise the
    string is decoded with `atob`, copied byte by byte, wrapped in a Blob and
    given a fresh URL. */
module Base64ToObjectUrl {
  import opened Js
  import opened Blobs
  import Base64
  import opened RevokePreviousEffect

  /** The dependencies of the memo. */
  datatype MemoKey = MemoKey(base64Data: Option<string>, mimeType: string)

  /** The Blob the memo wraps for a Base64 string: the bytes `atob` gives. */
  function BlobOf(base64Data: string, mimeType: string): Result<Blob>
  {
    match Base64.DecodeBytes(base64Data)
    case Err(m) => Err(m)
    case Ok(bytes) => Ok(Blob(bytes, mimeType))
  }

  class Hook {
    const registry: UrlRegistry
    const effect: UrlEffect
    /** The dependencies the memo last computed with; `None` before the first render. */
    var memoKey: Option<MemoKey>
    /** The memoised `objectURL` (`None` is `undefined`). */
    var objectUrl: Option<Url>
    /** Every URL this hook has created. */
    ghost var mine: set<Url>

    /** After every completed render and commit, of the URLs this hook created at
        most the current one is live, and the effect has seen the current one. */
    ghost predicate Valid()
      reads this, effect, registry
    {
      effect.registry == registry && effect.Valid() && registry.Valid() &&
      (forall u :: u in mine ==> u in registry.blobs) &&
      (objectUrl.Some? ==> objectUrl.value in mine) &&
      (memoKey.Some? ==> effect.ran && effect.seen == objectUrl) &&
      (memoKey.None? ==> objectUrl == None && !effect.ran) &&
      (forall u :: u in mine && u in registry.live ==> Some(u) == objectUrl) &&
      (objectUrl.Some? ==> objectUrl.value in registry.live) &&
      (memoKey.Some? && memoKey.value.base64Data in {None, Some("")} ==> objectUrl == None)
    }

    constructor (registry: UrlRegistry)
      requires registry.Valid()
      ensures Valid() && this.registry == registry && fresh(effect)
      ensures memoKey == None && objectUrl == None && mine == {}
    {
      this.registry := registry;
      effect := new UrlEffect(registry);
      memoKey, objectUrl := None, None;
      mine := {};
    }

    /** One render with the given arguments followed by its commit. Returns the
        hook's value, or the error `atob` threw (the render is then discarded and
        nothing changes). */
    method Use(base64Data: Option<string>, mimeType: string) returns (r: Result<Option<Url>>)
      requires Valid()
      modifies this, effect, registry
      ensures Valid()
      // inputs unchanged: the same URL, nothing created, nothing revoked
      ensures old(memoKey) == Some(MemoKey(base64Data, mimeType)) ==>
        r == Ok(old(objectUrl)) && objectUrl == old(objectUrl) &&
        registry.created == old(registry.created) && registry.live == old(registry.live) &&
        registry.revokeLog == old(registry.revokeLog)
      // `null` or empty input: `undefined`, no URL created
      ensures old(memoKey) != Some(MemoKey(base64Data, mimeType)) &&
              (base64Data == None || base64Data == Some("")) ==>
        r == Ok(None) && objectUrl == None && registry.created == old(registry.created)
      // a string `atob` rejects: the render throws and nothing changes
      ensures old(memoKey) != Some(MemoKey(base64Data, mimeType)) && base64Data.Some? &&
              base64Data != Some("") && BlobOf(base64Data.value, mimeType).Err? ==>
        r.Err? && objectUrl == old(objectUrl) && memoKey == old(memoKey) &&
        registry.created == old(registry.created) && registry.live == old(registry.live) &&
        registry.revokeLog == old(registry.revokeLog)
      // otherwise exactly one new URL, for the decoded bytes
      ensures old(memoKey) != Some(MemoKey(base64Data, mimeType)) && base64Data.Some? &&
              base64Data != Some("") && BlobOf(base64Data.value, mimeType).Ok? ==>
        r.Ok? && r.value.Some? && r.value == objectUrl &&
        r.value.value == BlobUrl(old(registry.created)) &&
        registry.created == old(registry.created) + 1 &&
        registry.blobs[r.value.value] == BlobOf(base64Data.value, mimeType).value
      ensures r.Ok? ==> r.value == objectUrl && memoKey == Some(MemoKey(base64Data, mimeType))
      ensures r.Ok? && (base64Data == None || base64Data == Some("")) ==> r == Ok(None)
      // a changed URL: the old one is revoked, twice
      ensures r.Ok? && old(objectUrl).Some? && objectUrl != old(objectUrl) ==>
        old(objectUrl).value !in registry.live &&
        registry.revokeLog == old(registry.revokeLog) + [old(objectUrl).value, old(objectUrl).value]
      ensures r.Ok? && (old(objectUrl).None? || objectUrl == old(objectUrl)) ==>
        registry.revokeLog == old(registry.revokeLog)
    {
      var key := MemoKey(base64Data, mimeType);
      if memoKey != Some(key) {
        if base64Data == None || base64Data == Some("") {
          objectUrl := None;
        } else {
          var decoded := Base64.Atob(base64Data.value);
          if decoded.Err? {
            return Err(decoded.message);
          }
          var bytes := Base64.CopyCharCodes(decoded.value);
          var url := registry.CreateObjectURL(Blob(bytes[..], mimeType));
          objectUrl := Some(url);
          mine := mine + {url};
        }
        memoKey := Some(key);
      }
      effect.Commit(objectUrl);
      r := Ok(objectUrl);
    }

    /** Unmount: the last cleanup revokes the current URL; afterwards no URL this
        hook created is live. */
    method Unmount()
      requires Valid()
      modifies this, effect, registry
      ensures forall u :: u in mine ==> u !in registry.live
      ensures registry.created == old(registry.created)
      ensures old(objectUrl).Some? ==> registry.revokeLog == old(registry.revokeLog) + [old(objectUrl).value]
      ensures old(objectUrl).None? ==> registry.revokeLog == old(registry.revokeLog)
    {
      effect.Unmount();
      memoKey, objectUrl := None, None;
    }
  }
}

/** `useBinaryToObjectURL(binaryData, mimeType)`: the same memoised URL for an
    `ArrayBuffer` frame, wrapped in a Blob as is, with no decode step. The memo
    keys on the buffer object, not on its bytes. */
module BinaryToObjectUrl {
  import opened Js
  import opened Blobs
  import opened RevokePreviousEffect

  /** The dependencies of the memo; buffers compare by identity. */
  datatype MemoKey = MemoKey(binaryData: Option<ArrayBuffer>, mimeType: string)

  class Hook {
    const registry: UrlRegistry
    const effect: UrlEffect
    var memoKey: Option<MemoKey>
    var objectUrl: Option<Url>
    ghost var mine: set<Url>

    ghost predicate Valid()
      reads this, effect, registry
    {
      effect.registry == registry && effect.Valid() && registry.Valid() &&
      (forall u :: u in mine ==> u in registry.blobs) &&
      (objectUrl.Some? ==> objectUrl.value in mine) &&
      (memoKey.Some? ==> effect.ran && effect.seen == objectUrl) &&
      (memoKey.None? ==> objectUrl == None && !effect.ran) &&
      (forall u :: u in mine && u in registry.live ==> Some(u) == objectUrl) &&
      (objectUrl.Some? ==> objectUrl.value in registry.live) &&
      (memoKey.Some? && memoKey.value.binaryData == None ==> objectUrl == None)
    }

    constructor (registry: UrlRegistry)
      requires registry.Valid()
      ensures Valid() && this.registry == registry && fresh(effect)
      ensures memoKey == None && objectUrl == None && mine == {}
    {
      this.registry := registry;
      effect := new UrlEffect(registry);
      memoKey, objectUrl := None, None;
      mine := {};
    }

    /** One render with the given arguments followed by its commit. */
    method Use(binaryData: Option<ArrayBuffer>, mimeType: string) returns (url: Option<Url>)
      requires Valid()
      modifies this, effect, registry
      ensures Valid()
      ensures url == objectUrl && memoKey == Some(MemoKey(binaryData, mimeType))
      ensures binaryData == None ==> url == None
      // the same buffer object and type: the same URL, nothing created or revoked
      ensures old(memoKey) == Some(MemoKey(binaryData, mimeType)) ==>
        url == old(objectUrl) && registry.created == old(registry.created) &&
        registry.live == old(registry.live) && registry.revokeLog == old(registry.revokeLog)
      // `null`: `undefined`, nothing created
      ensures old(memoKey) != Some(MemoKey(binaryData, mimeType)) && binaryData == None ==>
        url == None && registry.created == old(registry.created)
      // a new buffer object, even one with the same bytes: a new URL for its bytes
      ensures old(memoKey) != Some(MemoKey(binaryData, mimeType)) && binaryData.Some? ==>
        url == Some(BlobUrl(old(registry.created))) && registry.created == old(registry.created) + 1 &&
        registry.blobs[url.value] == Blob(binaryData.value.bytes, mimeType)
      // a changed URL: the old one is revoked, twice
      ensures old(objectUrl).Some? && url != old(objectUrl) ==>
        old(objectUrl).value !in registry.live &&
        registry.revokeLog == old(registry.revokeLog) + [old(objectUrl).value, old(objectUrl).value]
      ensures old(objectUrl).None? || url == old(objectUrl) ==>
        registry.revokeLog == old(registry.revokeLog)
    {
      var key := MemoKey(binaryData, mimeType);
      if memoKey != Some(key) {
        if binaryData == None {
          objectUrl := None;
        } else {
          var created := registry.CreateObjectURL(Blob(binaryData.value.bytes, mimeType));
          objectUrl := Some(created);
          mine := mine + {created};
        }
        memoKey := Some(key);
      }
      effect.Commit(objectUrl);
      url := objectUrl;
    }

    /** Unmount: afterwards no URL this hook created is live. */
    method Unmount()
      requires Valid()
      modifies this, effect, registry
      ensures forall u :: u in mine ==> u !in registry.live
      ensures registry.created == old(registry.created)
      ensures old(objectUrl).Some? ==> registry.revokeLog == old(registry.revokeLog) + [old(objectUrl).value]
      ensures old(objectUrl).None? ==> registry.revokeLog == old(registry.revokeLog)
    {
      effect.Unmount();
      memoKey, objectUrl := None, None;
    }
  }
}

/** `useObjectURLNoCache(data, mimeType)`: a new URL on every change of its
    arguments, created inside the effect and published through state, so the
    hook returns `undefined` until its effect has run once. */
module ObjectUrlNoCache {
  import opened Js
  import opened Blobs
  import Base64

  /** `data: string | ArrayBuffer`. */
  datatype Payload = Text(text: string) | Buffer(buffer: ArrayBuffer)

  datatype Deps = Deps(data: Payload, mimeType: string)

  /** The Blob one effect run builds: a string is Base64-decoded, anything else
      is wrapped as is. There is no empty-input guard. */
  function BlobOf(data: Payload, mimeType: string): (r: Result<Blob>)
    ensures r.Ok? ==> r.value.mimeType == mimeType
    ensures data.Buffer? ==> r == Ok(Blob(data.buffer.bytes, mimeType))
    ensures data.Text? ==> (r.Ok? <==> Base64.DecodeBytes(data.text).Ok?)
  {
    match data
    case Text(s) =>
      (match Base64.DecodeBytes(s)
       case Err(m) => Err(m)
       case Ok(bytes) => Ok(Blob(bytes, mimeType)))
    case Buffer(b) => Ok(Blob(b.bytes, mimeType))
  }

  /** An empty string is a valid frame: it gives an empty Blob. */
  lemma EmptyTextGivesEmptyBlob(mimeType: string)
    ensures BlobOf(Text(""), mimeType) == Ok(Blob([], mimeType))
  {
    assert Base64.Encode([]) == "";
    Base64.DecodeBytesOfEncoded([]);
  }

  class Hook {
    const registry: UrlRegistry
    /** The `objectURL` state. */
    var objectUrl: Option<Url>
    /** `previousUrlRef.current`. */
    var previousUrlRef: Option<Url>
    /** The arguments the effect last ran with. */
    var deps: Option<Deps>
    /** The URL the pending cleanup revokes; `None` when no cleanup is pending. */
    var cleanupUrl: Option<Url>
    ghost var mine: set<Url>

    ghost predicate Valid()
      reads this, registry
    {
      registry.Valid() &&
      (forall u :: u in mine ==> u in registry.blobs) &&
      (cleanupUrl.Some? ==> previousUrlRef == cleanupUrl && objectUrl == cleanupUrl && cleanupUrl.value in mine) &&
      (forall u :: u in mine && u in registry.live ==> Some(u) == cleanupUrl)
    }

    constructor (registry: UrlRegistry)
      requires registry.Valid()
      ensures Valid() && this.registry == registry
      ensures objectUrl == None && previousUrlRef == None && deps == None && cleanupUrl == None && mine == {}
    {
      this.registry := registry;
      objectUrl, previousUrlRef, deps, cleanupUrl := None, None, None, None;
      mine := {};
    }

    /** One render followed by its commit. `rendered` is what the render returned:
        the state from before this commit's effect, so the first render gives
        `undefined`. `thrown` is the error `atob` threw inside the effect. */
    method Use(data: Payload, mimeType: string) returns (rendered: Option<Url>, thrown: Option<string>)
      requires Valid()
      modifies this, registry
      ensures Valid()
      ensures rendered == old(objectUrl)
      ensures old(deps) == Some(Deps(data, mimeType)) ==>
        thrown == None && objectUrl == old(objectUrl) && registry.created == old(registry.created) &&
        registry.live == old(registry.live) && registry.revokeLog == old(registry.revokeLog)
      // a re-run first revokes the pending cleanup's URL, then `previousUrlRef`
      ensures old(deps) != Some(Deps(data, mimeType)) ==>
        registry.revokeLog == old(registry.revokeLog) +
          (if old(cleanupUrl).Some? then [old(cleanupUrl).value] else []) +
          (if old(previousUrlRef).Some? then [old(previousUrlRef).value] else []) &&
        forall u :: u in old(mine) ==> u !in registry.live
      // and creates exactly one URL, published as state and in the ref
      ensures old(deps) != Some(Deps(data, mimeType)) && BlobOf(data, mimeType).Ok? ==>
        thrown == None && objectUrl == Some(BlobUrl(old(registry.created))) &&
        previousUrlRef == objectUrl && cleanupUrl == objectUrl &&
        registry.created == old(registry.created) + 1 &&
        registry.blobs[objectUrl.value] == BlobOf(data, mimeType).value &&
        objectUrl.value in registry.live
      // a string `atob` rejects: the effect throws after its revokes, creating nothing
      ensures old(deps) != Some(Deps(data, mimeType)) && BlobOf(data, mimeType).Err? ==>
        thrown == Some(BlobOf(data, mimeType).message) && objectUrl == old(objectUrl) &&
        registry.created == old(registry.created) && cleanupUrl == None
    {
      rendered := objectUrl;
      thrown := None;
      var next := Deps(data, mimeType);
      if deps == Some(next) {
        return;
      }
      Cleanup();
      deps := Some(next);
      thrown := RunEffect(data, mimeType);
    }

    /** The pending cleanup: it revokes the URL it captured. Afterwards no URL
        this hook created is live. */
    method Cleanup()
      requires Valid()
      modifies this, registry
      ensures Valid() && cleanupUrl == None
      ensures objectUrl == old(objectUrl) && previousUrlRef == old(previousUrlRef) && deps == old(deps) && mine == old(mine)
      ensures forall u :: u in mine ==> u !in registry.live
      ensures registry.created == old(registry.created) && registry.blobs == old(registry.blobs)
      ensures registry.revokeLog == old(registry.revokeLog) + (if old(cleanupUrl).Some? then [old(cleanupUrl).value] else [])
    {
      if cleanupUrl.Some? {
        registry.RevokeObjectURL(cleanupUrl.value);
      }
      cleanupUrl := None;
    }

    /** The effect body: revoke `previousUrlRef`, build the Blob, create and
        publish its URL. */
    method RunEffect(data: Payload, mimeType: string) returns (thrown: Option<string>)
      requires Valid() && cleanupUrl == None && forall u :: u in mine ==> u !in registry.live
      modifies this, registry
      ensures Valid() && deps == old(deps)
      ensures registry.revokeLog == old(registry.revokeLog) +
        (if old(previousUrlRef).Some? then [old(previousUrlRef).value] else [])
      ensures forall u :: u in old(mine) ==> u !in registry.live
      ensures BlobOf(data, mimeType).Ok? ==>
        thrown == None && objectUrl == Some(BlobUrl(old(registry.created))) &&
        previousUrlRef == objectUrl && cleanupUrl == objectUrl &&
        registry.created == old(registry.created) + 1 &&
        registry.blobs[objectUrl.value] == BlobOf(data, mimeType).value &&
        objectUrl.value in registry.live
      ensures BlobOf(data, mimeType).Err? ==>
        thrown == Some(BlobOf(data, mimeType).message) && objectUrl == old(objectUrl) &&
        registry.created == old(registry.created) && cleanupUrl == None
    {
      thrown := None;
      if previousUrlRef.Some? {
        registry.RevokeObjectURL(previousUrlRef.value);
      }
      var blob: Blob;
      match data {
        case Text(s) =>
          var decoded := Base64.Atob(s);
          if decoded.Err? {
            thrown := Some(decoded.message);
            return;
          }
          var bytes := Base64.CopyCharCodes(decoded.value);
          blob := Blob(bytes[..], mimeType);
        case Buffer(b) =>
          blob := Blob(b.bytes, mimeType);
      }
      var url := registry.CreateObjectURL(blob);
      objectUrl := Some(url);
      previousUrlRef := Some(url);
      cleanupUrl := Some(url);
      mine := mine + {url};
    }

    /** Unmount: the last cleanup revokes the last created URL; afterwards no
        URL this hook created is live. */
    method Unmount()
      requires Valid()
      modifies this, registry
      ensures forall u :: u in mine ==> u !in registry.live
      ensures registry.created == old(registry.created)
      ensures old(cleanupUrl).Some? ==> registry.revokeLog == old(registry.revokeLog) + [old(cleanupUrl).value]
      ensures old(cleanupUrl).None? ==> registry.revokeLog == old(registry.revokeLog)
    {
      Cleanup();
    }
  }
}

/** `useObjectURL(base64, mimeType)`: a process-wide cache from Base64 string to
    URL. A URL is created on the first call for a string and cached for good;
    the effect's cleanup revokes it on a key change or unmount but leaves it in
    the cache. */
module ObjectUrlCache {
  import opened Js
  import opened Blobs
  import Base64

  /** The module-level `objectURLCache` Map, one for every caller. */
  class UrlCache {
    var entries: map<string, Url>

    constructor ()
      ensures entries == map[]
    {
      entries := map[];
    }
  }

  class Hook {
    const registry: UrlRegistry
    const cache: UrlCache
    /** `urlRef.current`. */
    var urlRef: Option<Url>
    /** The `base64` the effect last ran with; `None` before the first commit. */
    var seen: Option<string>
    /** The `currentUrl` the pending cleanup captured. */
    var currentUrl: Option<Url>

    ghost predicate Valid()
      reads this, registry, cache
    {
      registry.Valid() &&
      (forall k :: k in cache.entries ==> cache.entries[k] in registry.blobs) &&
      (seen.Some? ==> seen.value in cache.entries && currentUrl == Some(cache.entries[seen.value]) && urlRef == currentUrl)
    }

    constructor (registry: UrlRegistry, cache: UrlCache)
      requires registry.Valid()
      requires forall k :: k in cache.entries ==> cache.entries[k] in registry.blobs
      ensures Valid() && this.registry == registry && this.cache == cache
      ensures urlRef == None && seen == None && currentUrl == None
    {
      this.registry, this.cache := registry, cache;
      urlRef, seen, currentUrl := None, None, None;
    }

    /** One render followed by its commit. Returns `urlRef.current`, or the error
        `atob` threw during the render (nothing changes then). */
    method Use(base64: string, mimeType: string) returns (r: Result<Url>)
      requires Valid()
      modifies this, registry, cache
      ensures Valid()
      // entries are never removed or replaced
      ensures forall k :: k in old(cache.entries) ==> k in cache.entries && cache.entries[k] == old(cache.entries[k])
      // a cached string: the cached URL, with no decode and no new Blob, whatever the type
      ensures base64 in old(cache.entries) ==>
        r == Ok(old(cache.entries)[base64]) && cache.entries == old(cache.entries) &&
        registry.created == old(registry.created) && registry.blobs == old(registry.blobs)
      // a new string: one new URL for its decoded bytes, cached under the string
      ensures base64 !in old(cache.entries) && Base64.DecodeBytes(base64).Ok? ==>
        r == Ok(BlobUrl(old(registry.created))) && registry.created == old(registry.created) + 1 &&
        cache.entries == old(cache.entries)[base64 := r.value] &&
        registry.blobs == old(registry.blobs)[r.value := Blob(Base64.DecodeBytes(base64).value, mimeType)]
      ensures base64 !in old(cache.entries) && Base64.DecodeBytes(base64).Err? ==>
        r.Err? && cache.entries == old(cache.entries) && registry.created == old(registry.created) &&
        registry.live == old(registry.live) && registry.revokeLog == old(registry.revokeLog) &&
        urlRef == old(urlRef) && seen == old(seen)
      ensures r.Ok? ==> urlRef == Some(r.value) && seen == Some(base64)
      // on a key change the cleanup revokes the old URL, which stays cached
      ensures r.Ok? && old(seen).Some? && old(seen) != Some(base64) ==>
        registry.revokeLog == old(registry.revokeLog) + [old(currentUrl).value] &&
        registry.live == old(registry.live) + (if base64 in old(cache.entries) then {} else {r.value}) - {old(currentUrl).value}
      ensures r.Ok? && (old(seen).None? || old(seen) == Some(base64)) ==>
        registry.revokeLog == old(registry.revokeLog)
    {
      var cached := Lookup(base64, mimeType);
      if cached.Err? {
        return Err(cached.message);
      }
      urlRef := Some(cached.value);
      // commit: the effect depends on `base64` only
      if seen != Some(base64) {
        if seen.Some? {
          registry.RevokeObjectURL(currentUrl.value);
        }
        currentUrl := urlRef;
        seen := Some(base64);
      }
      r := Ok(urlRef.value);
    }

    /** The render's cache lookup: a miss decodes the string and caches a new
        URL for its bytes. */
    method Lookup(base64: string, mimeType: string) returns (r: Result<Url>)
      requires Valid()
      modifies registry, cache
      ensures Valid() && registry.revokeLog == old(registry.revokeLog)
      ensures forall k :: k in old(cache.entries) ==> k in cache.entries && cache.entries[k] == old(cache.entries[k])
      ensures r.Ok? ==> base64 in cache.entries && cache.entries[base64] == r.value
      ensures base64 in old(cache.entries) ==>
        r == Ok(old(cache.entries)[base64]) && cache.entries == old(cache.entries) &&
        registry.created == old(registry.created) && registry.blobs == old(registry.blobs) && registry.live == old(registry.live)
      ensures base64 !in old(cache.entries) && Base64.DecodeBytes(base64).Ok? ==>
        r == Ok(BlobUrl(old(registry.created))) && registry.created == old(registry.created) + 1 &&
        cache.entries == old(cache.entries)[base64 := r.value] &&
        registry.blobs == old(registry.blobs)[r.value := Blob(Base64.DecodeBytes(base64).value, mimeType)] &&
        registry.live == old(registry.live) + {r.value}
      ensures base64 !in old(cache.entries) && Base64.DecodeBytes(base64).Err? ==>
        r.Err? && cache.entries == old(cache.entries) && registry.created == old(registry.created) &&
        registry.live == old(registry.live)
    {
      if base64 !in cache.entries {
        var decoded := Base64.Atob(base64);
        if decoded.Err? {
          return Err(decoded.message);
        }
        var bytes := Base64.CopyCharCodes(decoded.value);
        var url := registry.CreateObjectURL(Blob(bytes[..], mimeType));
        cache.entries := cache.entries[base64 := url];
      }
      r := Ok(cache.entries[base64]);
    }

    /** Unmount: the cleanup revokes the current URL; the cache keeps it. */
    method Unmount()
      requires Valid()
      modifies this, registry
      ensures cache.entries == old(cache.entries)
      ensures old(seen).Some? ==>
        registry.revokeLog == old(registry.revokeLog) + [old(currentUrl).value] &&
        old(currentUrl).value !in registry.live
      ensures old(seen).None? ==> registry.revokeLog == old(registry.revokeLog)
    {
      if seen.Some? {
        registry.RevokeObjectURL(currentUrl.value);
      }
      seen, currentUrl := None, None;
    }
  }

  /** Rendering `a`, then `b`, then `a` again returns the URL that was created for
      `a` and revoked when the key changed to `b`: the cache hands out a dead URL. */
  method RevisitedKeyGetsRevokedUrl(a: string, b: string, mimeType: string)
    returns (registry: UrlRegistry, first: Url, again: Url)
    requires a != b && Base64.DecodeBytes(a).Ok? && Base64.DecodeBytes(b).Ok?
    ensures again == first && again !in registry.live
    ensures again in registry.blobs && registry.blobs[again] == Blob(Base64.DecodeBytes(a).value, mimeType)
  {
    registry := new UrlRegistry();
    var cache := new UrlCache();
    var hook := new Hook(registry, cache);
    var r1 := hook.Use(a, mimeType);
    first := r1.value;
    var r2 := hook.Use(b, mimeType);
    var r3 := hook.Use(a, mimeType);
    again := r3.value;
  }
}
