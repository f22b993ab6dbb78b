/** `Base64ImageRenderer` (data-format test): shows the Base64 frame in an
    `<img>` whose source is a `data:` URL built from the store value. */
module DataUrlImageRenderer {
  import opened Js
  import ImageLatencyTracker
  import ImageSizeTracker
  import opened RendererParts

  /** The media type and encoding of a Base64 JPEG `data:` URL
      (`data:[<mediatype>][;base64],<data>`, section 3 of RFC 2397). */
  const DataUrlPrefix: string := "data:image/jpeg;base64,"

  /** `data:image/jpeg;base64,${data || ""}`. */
  function DataUrl(data: Option<string>): (src: string)
    ensures |src| >= |DataUrlPrefix| && src[..|DataUrlPrefix|] == DataUrlPrefix
    ensures data.Some? ==> src[|DataUrlPrefix|..] == data.value
    ensures data.None? ==> src == DataUrlPrefix
  {
    DataUrlPrefix + (if data.Some? then data.value else "")
  }

  /** The payload a `data:` URL with this prefix carries (`None` for any other
      string). */
  function Payload(src: string): (p: Option<string>)
    ensures p.Some? <==> |src| >= |DataUrlPrefix| && src[..|DataUrlPrefix|] == DataUrlPrefix
  {
    if |src| >= |DataUrlPrefix| && src[..|DataUrlPrefix|] == DataUrlPrefix then Some(src[|DataUrlPrefix|..]) else None
  }

  /** The image source carries exactly the store value, with `null` read as
      the empty payload. */
  lemma PayloadOfDataUrl(data: Option<string>)
    ensures Payload(DataUrl(data)) == Some(if data.Some? then data.value else "")
  {
  }

  /** The raw store string, which the main-thread fallback uses as its source,
      is never this renderer's source for the same frame. */
  lemma RawSourceDiffers(data: string)
    ensures DataUrl(Some(data)) != data
  {
    assert |DataUrl(Some(data))| == |DataUrlPrefix| + |data|;
  }

  class Renderer {
    const latency: ImageLatencyTracker.Tracker
    const sizes: ImageSizeTracker.Tracker
    const latencyForward: Forwarder<int>
    /** The size effect forwards only non-empty arrays. */
    const sizeForward: Forwarder<real>
    /** The store value the `[base64ImageData]` effects last ran with. */
    var seenData: Option<Option<string>>
    /** The `<img>`'s `src`. */
    var src: string

    ghost predicate Valid()
      reads this, latency, sizes, latencyForward, sizeForward
    {
      latency.Valid() && sizes.Valid() && latencyForward.Valid() && sizeForward.Valid() &&
      !latencyForward.onlyNonEmpty && sizeForward.onlyNonEmpty
    }

    constructor ()
      ensures Valid() && seenData == None && src == DataUrlPrefix
      ensures fresh(latency) && fresh(sizes) && fresh(latencyForward) && fresh(sizeForward)
      ensures latency.samples == [] && sizes.accepted == []
    {
      latency := new ImageLatencyTracker.Tracker();
      sizes := new ImageSizeTracker.Tracker();
      latencyForward := new Forwarder(false);
      sizeForward := new Forwarder(true);
      seenData := None;
      src := DataUrl(None);
    }

    /** A render with store value `data` and its commit at `now`: a new
        non-empty payload restarts the clock and adds `length / 1024`; the
        latency array is always forwarded, the size array only when non-empty. */
    method Commit(data: Option<string>, now: Millis)
      requires Valid()
      modifies this, latency, sizes, latencyForward, sizeForward
      ensures Valid() && seenData == Some(data) && src == DataUrl(data)
      ensures latency.samples == old(latency.samples)
      ensures old(seenData) != Some(data) && data.Some? && data.value != "" ==>
        latency.startRef == now && sizes.prevSize == Some(TextKB(data.value)) &&
        sizes.accepted == old(sizes.accepted) + (if old(sizes.prevSize) == Some(TextKB(data.value)) then [] else [TextKB(data.value)])
      ensures !(old(seenData) != Some(data) && data.Some? && data.value != "") ==>
        latency.startRef == old(latency.startRef) && sizes.accepted == old(sizes.accepted)
      ensures latencyForward.calls == CallsAfter(old(latencyForward.seen), old(latencyForward.calls), old(latency.latencies), old(latency.version), false)
      ensures sizeForward.calls == CallsAfter(old(sizeForward.seen), old(sizeForward.calls), old(sizes.sizes), old(sizes.version), true)
    {
      src := DataUrl(data);
      var changed := seenData != Some(data);
      seenData := Some(data);
      FrameEffects(latency, sizes, latencyForward, sizeForward,
        if changed && data.Some? && data.value != "" then Some(TextKB(data.value)) else None, now);
    }

    /** `onLoad`: `end()` on every load, paired with no `start()`. */
    method OnLoad(now: Millis)
      requires Valid()
      modifies latency
      ensures Valid() && latency.startRef == old(latency.startRef)
      ensures latency.samples == old(latency.samples) + [now - old(latency.startRef)]
    {
      latency.End(now);
    }
  }
}

/** `ObjectURLImageRenderer` (data-format test): shows the Base64 frame through
    the Blob URL of `useBase64ToObjectURL`. */
module ObjectUrlImageRenderer {
  import opened Js
  import opened Blobs
  import ImageLatencyTracker
  import ImageSizeTracker
  import opened RendererParts
  import Base64ToObjectUrl

  const JpegType: string := "image/jpeg"

  /** `base64ImageData || null`: the empty string is passed on as `null`. */
  function HookInput(data: Option<string>): (input: Option<string>)
    ensures input.Some? <==> data.Some? && data.value != ""
    ensures input.Some? ==> input == data
  {
    if data == Some("") then None else data
  }

  class Renderer {
    const registry: UrlRegistry
    const urlHook: Base64ToObjectUrl.Hook
    const latency: ImageLatencyTracker.Tracker
    const sizes: ImageSizeTracker.Tracker
    const latencyForward: Forwarder<int>
    const sizeForward: Forwarder<real>
    var seenData: Option<Option<string>>
    /** The `<img>`'s `src`: the hook's URL, `None` (`undefined`) without one. */
    var src: Option<Url>

    ghost predicate Valid()
      reads this, urlHook, urlHook.effect, registry, latency, sizes, latencyForward, sizeForward
    {
      urlHook.registry == registry && urlHook.Valid() && src == urlHook.objectUrl &&
      latency.Valid() && sizes.Valid() && latencyForward.Valid() && sizeForward.Valid() &&
      !latencyForward.onlyNonEmpty && sizeForward.onlyNonEmpty
    }

    constructor (registry: UrlRegistry)
      requires registry.Valid()
      ensures Valid() && this.registry == registry && seenData == None && src == None
      ensures fresh(urlHook) && fresh(urlHook.effect) && fresh(latency) && fresh(sizes)
      ensures fresh(latencyForward) && fresh(sizeForward)
      ensures latency.samples == [] && sizes.accepted == []
    {
      this.registry := registry;
      urlHook := new Base64ToObjectUrl.Hook(registry);
      latency := new ImageLatencyTracker.Tracker();
      sizes := new ImageSizeTracker.Tracker();
      latencyForward := new Forwarder(false);
      sizeForward := new Forwarder(true);
      seenData := None;
      src := None;
    }

    /** A render with store value `data` and its commit at `now`. A payload
        `atob` rejects makes the render throw; nothing is committed then. */
    method Commit(data: Option<string>, now: Millis) returns (thrown: Option<string>)
      requires Valid()
      modifies this, urlHook, urlHook.effect, registry, latency, sizes, latencyForward, sizeForward
      ensures Valid()
      ensures thrown.Some? ==>
        seenData == old(seenData) && src == old(src) && latency.startRef == old(latency.startRef) &&
        sizes.accepted == old(sizes.accepted) && latencyForward.calls == old(latencyForward.calls) &&
        sizeForward.calls == old(sizeForward.calls) && registry.live == old(registry.live)
      ensures thrown.None? ==>
        seenData == Some(data) && src == urlHook.objectUrl &&
        urlHook.memoKey == Some(Base64ToObjectUrl.MemoKey(HookInput(data), JpegType))
      ensures thrown.None? && HookInput(data).None? ==> src == None
      ensures latency.samples == old(latency.samples)
      ensures thrown.None? && old(seenData) != Some(data) && data.Some? && data.value != "" ==>
        latency.startRef == now && sizes.prevSize == Some(TextKB(data.value))
      ensures thrown.None? && !(old(seenData) != Some(data) && data.Some? && data.value != "") ==>
        latency.startRef == old(latency.startRef) && sizes.accepted == old(sizes.accepted)
      ensures thrown.None? ==>
        latencyForward.calls == CallsAfter(old(latencyForward.seen), old(latencyForward.calls), old(latency.latencies), old(latency.version), false) &&
        sizeForward.calls == CallsAfter(old(sizeForward.seen), old(sizeForward.calls), old(sizes.sizes), old(sizes.version), true)
    {
      var url := urlHook.Use(HookInput(data), JpegType);
      if url.Err? {
        return Some(url.message);
      }
      thrown := None;
      src := url.value;
      var changed := seenData != Some(data);
      seenData := Some(data);
      FrameEffects(latency, sizes, latencyForward, sizeForward,
        if changed && data.Some? && data.value != "" then Some(TextKB(data.value)) else None, now);
    }

    method OnLoad(now: Millis)
      requires Valid()
      modifies latency
      ensures Valid() && latency.startRef == old(latency.startRef)
      ensures latency.samples == old(latency.samples) + [now - old(latency.startRef)]
    {
      latency.End(now);
    }
  }
}

/** `BinaryImageRenderer` (data-format test): shows the binary frame through
    the Blob URL of `useBinaryToObjectURL`. */
module BinaryImageRenderer {
  import opened Js
  import opened Blobs
  import ImageLatencyTracker
  import ImageSizeTracker
  import opened RendererParts
  import BinaryToObjectUrl

  const JpegType: string := "image/jpeg"

  class Renderer {
    const registry: UrlRegistry
    const urlHook: BinaryToObjectUrl.Hook
    const latency: ImageLatencyTracker.Tracker
    const sizes: ImageSizeTracker.Tracker
    const latencyForward: Forwarder<int>
    const sizeForward: Forwarder<real>
    /** The buffer the `[binaryImageData]` effects last ran with (by identity). */
    var seenData: Option<Option<ArrayBuffer>>
    var src: Option<Url>

    ghost predicate Valid()
      reads this, urlHook, urlHook.effect, registry, latency, sizes, latencyForward, sizeForward
    {
      urlHook.registry == registry && urlHook.Valid() && src == urlHook.objectUrl &&
      latency.Valid() && sizes.Valid() && latencyForward.Valid() && sizeForward.Valid() &&
      !latencyForward.onlyNonEmpty && sizeForward.onlyNonEmpty
    }

    constructor (registry: UrlRegistry)
      requires registry.Valid()
      ensures Valid() && this.registry == registry && seenData == None && src == None
      ensures fresh(urlHook) && fresh(urlHook.effect) && fresh(latency) && fresh(sizes)
      ensures fresh(latencyForward) && fresh(sizeForward)
      ensures latency.samples == [] && sizes.accepted == []
    {
      this.registry := registry;
      urlHook := new BinaryToObjectUrl.Hook(registry);
      latency := new ImageLatencyTracker.Tracker();
      sizes := new ImageSizeTracker.Tracker();
      latencyForward := new Forwarder(false);
      sizeForward := new Forwarder(true);
      seenData := None;
      src := None;
    }

    /** A render with store value `data` and its commit at `now`. Every buffer,
        an empty one included, counts as a frame. */
    method Commit(data: Option<ArrayBuffer>, now: Millis)
      requires Valid()
      modifies this, urlHook, urlHook.effect, registry, latency, sizes, latencyForward, sizeForward
      ensures Valid() && seenData == Some(data) && src == urlHook.objectUrl
      ensures urlHook.memoKey == Some(BinaryToObjectUrl.MemoKey(data, JpegType))
      ensures data.None? ==> src == None
      ensures src.Some? ==> src.value in registry.live
      ensures latency.samples == old(latency.samples)
      ensures old(seenData) != Some(data) && data.Some? ==>
        latency.startRef == now && sizes.prevSize == Some(BufferKB(data.value))
      ensures !(old(seenData) != Some(data) && data.Some?) ==>
        latency.startRef == old(latency.startRef) && sizes.accepted == old(sizes.accepted)
      ensures latencyForward.calls == CallsAfter(old(latencyForward.seen), old(latencyForward.calls), old(latency.latencies), old(latency.version), false)
      ensures sizeForward.calls == CallsAfter(old(sizeForward.seen), old(sizeForward.calls), old(sizes.sizes), old(sizes.version), true)
    {
      src := urlHook.Use(data, JpegType);
      var changed := seenData != Some(data);
      seenData := Some(data);
      FrameEffects(latency, sizes, latencyForward, sizeForward,
        if changed && data.Some? then Some(BufferKB(data.value)) else None, now);
    }

    method OnLoad(now: Millis)
      requires Valid()
      modifies latency
      ensures Valid() && latency.startRef == old(latency.startRef)
      ensures latency.samples == old(latency.samples) + [now - old(latency.startRef)]
    {
      latency.End(now);
    }
  }
}
