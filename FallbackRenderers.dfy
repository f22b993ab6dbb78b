/** `FallbackCanvasBase64Renderer`: draws each new Base64 frame on a main-thread
    canvas through an `Image` whose `src` is the raw store string. Every attempt
    starts the latency clock before the load and stops it once when the image
    settles; nothing guards against overlapping attempts. */
module FallbackBase64Renderer {
  import opened Js
  import ImageLatencyTracker
  import ImageSizeTracker
  import opened RendererParts

  /** How an image settles: it loaded (and `drawImage` either succeeded or
      threw), or it failed to load. */
  datatype ImageOutcome = Loaded(width: nat, height: nat, drawn: bool) | LoadFailed

  class Renderer {
    const latency: ImageLatencyTracker.Tracker
    const sizes: ImageSizeTracker.Tracker
    const latencyForward: Forwarder<int>
    const sizeForward: Forwarder<real>
    /** `canvas.getContext("2d")` returns a context. */
    const hasContext: bool
    /** The store value the two data effects last ran with; `None` before the first commit. */
    var seenData: Option<Option<string>>
    /** The canvas element's `width` and `height`. */
    var canvas: Size
    /** Image loads in flight, by attempt number, with their `src`. */
    var images: map<nat, string>
    var nextImage: nat

    /** Every attempt either is still loading or has stopped the clock once. */
    ghost predicate Valid()
      reads this, latency, sizes, latencyForward, sizeForward
    {
      latency.Valid() && sizes.Valid() && latencyForward.Valid() && sizeForward.Valid() &&
      !latencyForward.onlyNonEmpty && !sizeForward.onlyNonEmpty &&
      (forall id :: id in images ==> id < nextImage) &&
      nextImage == |images| + |latency.samples|
    }

    /** The first render: fresh trackers, no effect run yet. The canvas has the
        HTML default size. */
    constructor (hasContext: bool)
      ensures Valid() && fresh(latency) && fresh(sizes) && fresh(latencyForward) && fresh(sizeForward)
      ensures this.hasContext == hasContext && seenData == None && images == map[] && nextImage == 0
      ensures latency.samples == [] && sizes.accepted == [] && latencyForward.calls == [] && sizeForward.calls == []
    {
      this.hasContext := hasContext;
      latency := new ImageLatencyTracker.Tracker();
      sizes := new ImageSizeTracker.Tracker();
      latencyForward := new Forwarder(false);
      sizeForward := new Forwarder(false);
      seenData := None;
      canvas := Size(300, 150);
      images := map[];
      nextImage := 0;
    }

    /** A render with store value `data`, then its effects in declaration order:
        the two forwards (with the arrays of this render), the size record and
        the render attempt, both keyed on `data`. */
    method Commit(data: Option<string>, now: Millis)
      requires Valid()
      modifies this, latency, sizes, latencyForward, sizeForward
      ensures Valid() && seenData == Some(data) && canvas == old(canvas)
      ensures latencyForward.calls == CallsAfter(old(latencyForward.seen), old(latencyForward.calls), old(latency.latencies), old(latency.version), false)
      ensures sizeForward.calls == CallsAfter(old(sizeForward.seen), old(sizeForward.calls), old(sizes.sizes), old(sizes.version), false)
      ensures latency.samples == old(latency.samples)
      // every new non-empty frame adds its size, whether or not it is drawn
      ensures old(seenData) != Some(data) && data.Some? && data.value != "" ==>
        sizes.prevSize == Some(TextKB(data.value)) &&
        sizes.accepted == old(sizes.accepted) + (if old(sizes.prevSize) == Some(TextKB(data.value)) then [] else [TextKB(data.value)])
      ensures !(old(seenData) != Some(data) && data.Some? && data.value != "") ==>
        sizes.accepted == old(sizes.accepted) && sizes.sizes == old(sizes.sizes) && sizes.version == old(sizes.version)
      // an attempt: the clock starts, then the raw string becomes the image source
      ensures old(seenData) != Some(data) && data.Some? && data.value != "" && hasContext ==>
        latency.startRef == now && nextImage == old(nextImage) + 1 &&
        images == old(images)[old(nextImage) := data.value]
      ensures !(old(seenData) != Some(data) && data.Some? && data.value != "" && hasContext) ==>
        latency.startRef == old(latency.startRef) && images == old(images) && nextImage == old(nextImage)
    {
      var renderedLatencies, renderedSizes := latency.latencies, sizes.sizes;
      var latenciesId, sizesId := latency.version, sizes.version;
      latencyForward.Commit(renderedLatencies, latenciesId);
      sizeForward.Commit(renderedSizes, sizesId);
      DataEffects(data, now);
    }

    /** The size record and the render attempt, both keyed on `data`. */
    method DataEffects(data: Option<string>, now: Millis)
      requires Valid()
      modifies this, latency, sizes
      ensures Valid() && seenData == Some(data) && canvas == old(canvas)
      ensures latency.samples == old(latency.samples) && latency.latencies == old(latency.latencies) && latency.version == old(latency.version)
      ensures old(seenData) != Some(data) && data.Some? && data.value != "" ==>
        sizes.prevSize == Some(TextKB(data.value)) &&
        sizes.accepted == old(sizes.accepted) + (if old(sizes.prevSize) == Some(TextKB(data.value)) then [] else [TextKB(data.value)])
      ensures !(old(seenData) != Some(data) && data.Some? && data.value != "") ==>
        sizes.accepted == old(sizes.accepted) && sizes.sizes == old(sizes.sizes) && sizes.version == old(sizes.version)
      ensures old(seenData) != Some(data) && data.Some? && data.value != "" && hasContext ==>
        latency.startRef == now && nextImage == old(nextImage) + 1 &&
        images == old(images)[old(nextImage) := data.value]
      ensures !(old(seenData) != Some(data) && data.Some? && data.value != "" && hasContext) ==>
        latency.startRef == old(latency.startRef) && images == old(images) && nextImage == old(nextImage)
    {
      if seenData != Some(data) {
        seenData := Some(data);
        if data.Some? && data.value != "" {
          sizes.AddSize(TextKB(data.value));
          if hasContext {
            latency.Start(now);
            assert nextImage !in images;
            images := images[nextImage := data.value];
            nextImage := nextImage + 1;
          }
        }
      }
    }

    /** Image `id` settles at `now`: a load resizes the canvas to the image and
        draws it; every outcome stops the clock exactly once. */
    method OnImageSettled(id: nat, outcome: ImageOutcome, now: Millis)
      requires Valid() && id in images
      modifies this, latency
      ensures Valid() && images == old(images) - {id} && nextImage == old(nextImage)
      ensures latency.samples == old(latency.samples) + [now - old(latency.startRef)]
      ensures outcome.Loaded? ==> canvas == Size(outcome.width, outcome.height)
      ensures outcome.LoadFailed? ==> canvas == old(canvas)
      ensures seenData == old(seenData)
    {
      images := images - {id};
      if outcome.Loaded? {
        canvas := Size(outcome.width, outcome.height);
      }
      latency.End(now);
    }
  }
}

/** `FallbackCanvasBinaryRenderer`: the same main-thread canvas path for an
    `ArrayBuffer` frame, through a Blob URL created per attempt and revoked when
    that attempt's image settles. The effect returns no cleanup. */
module FallbackBinaryRenderer {
  import opened Js
  import opened Blobs
  import ImageLatencyTracker
  import ImageSizeTracker
  import opened RendererParts
  import opened FallbackBase64Renderer

  const JpegType: string := "image/jpeg"

  class Renderer {
    const registry: UrlRegistry
    const latency: ImageLatencyTracker.Tracker
    const sizes: ImageSizeTracker.Tracker
    const latencyForward: Forwarder<int>
    const sizeForward: Forwarder<real>
    const hasContext: bool
    var seenData: Option<Option<ArrayBuffer>>
    var canvas: Size
    /** Image loads in flight, by attempt number, with the URL each one loads. */
    var images: map<nat, Url>
    var nextImage: nat

    /** Every attempt either is still loading, with its URL live, or has stopped
        the clock once and revoked its URL once. */
    ghost predicate Valid()
      reads this, registry, latency, sizes, latencyForward, sizeForward
    {
      registry.Valid() &&
      latency.Valid() && sizes.Valid() && latencyForward.Valid() && sizeForward.Valid() &&
      !latencyForward.onlyNonEmpty && !sizeForward.onlyNonEmpty &&
      (forall id :: id in images ==> id < nextImage && images[id] in registry.live) &&
      (forall a, b | a in images && b in images :: images[a] == images[b] ==> a == b) &&
      nextImage == |images| + |latency.samples|
    }

    constructor (registry: UrlRegistry, hasContext: bool)
      requires registry.Valid()
      ensures Valid() && fresh(latency) && fresh(sizes) && fresh(latencyForward) && fresh(sizeForward)
      ensures this.registry == registry && this.hasContext == hasContext
      ensures seenData == None && images == map[] && nextImage == 0
      ensures latency.samples == [] && sizes.accepted == []
    {
      this.registry, this.hasContext := registry, hasContext;
      latency := new ImageLatencyTracker.Tracker();
      sizes := new ImageSizeTracker.Tracker();
      latencyForward := new Forwarder(false);
      sizeForward := new Forwarder(false);
      seenData := None;
      canvas := Size(300, 150);
      images := map[];
      nextImage := 0;
    }

    /** A render with store value `data` and its effects. An attempt starts the
        clock, then creates exactly one URL for the buffer's bytes. */
    method Commit(data: Option<ArrayBuffer>, now: Millis)
      requires Valid()
      modifies this, registry, latency, sizes, latencyForward, sizeForward
      ensures Valid() && seenData == Some(data) && canvas == old(canvas)
      ensures latencyForward.calls == CallsAfter(old(latencyForward.seen), old(latencyForward.calls), old(latency.latencies), old(latency.version), false)
      ensures sizeForward.calls == CallsAfter(old(sizeForward.seen), old(sizeForward.calls), old(sizes.sizes), old(sizes.version), false)
      ensures latency.samples == old(latency.samples)
      ensures registry.revokeLog == old(registry.revokeLog)
      ensures old(seenData) != Some(data) && data.Some? ==>
        sizes.prevSize == Some(BufferKB(data.value)) &&
        sizes.accepted == old(sizes.accepted) + (if old(sizes.prevSize) == Some(BufferKB(data.value)) then [] else [BufferKB(data.value)])
      ensures !(old(seenData) != Some(data) && data.Some?) ==>
        sizes.accepted == old(sizes.accepted) && sizes.sizes == old(sizes.sizes) && sizes.version == old(sizes.version)
      ensures old(seenData) != Some(data) && data.Some? && hasContext ==>
        latency.startRef == now && nextImage == old(nextImage) + 1 &&
        registry.created == old(registry.created) + 1 &&
        images == old(images)[old(nextImage) := BlobUrl(old(registry.created))] &&
        registry.blobs == old(registry.blobs)[BlobUrl(old(registry.created)) := Blob(data.value.bytes, JpegType)] &&
        registry.live == old(registry.live) + {BlobUrl(old(registry.created))}
      // no attempt: no clock start and no URL
      ensures !(old(seenData) != Some(data) && data.Some? && hasContext) ==>
        latency.startRef == old(latency.startRef) && images == old(images) && nextImage == old(nextImage) &&
        registry.created == old(registry.created) && registry.live == old(registry.live)
    {
      var renderedLatencies, renderedSizes := latency.latencies, sizes.sizes;
      var latenciesId, sizesId := latency.version, sizes.version;
      latencyForward.Commit(renderedLatencies, latenciesId);
      sizeForward.Commit(renderedSizes, sizesId);
      DataEffects(data, now);
    }

    /** The size record and the render attempt, both keyed on `data`. */
    method DataEffects(data: Option<ArrayBuffer>, now: Millis)
      requires Valid()
      modifies this, registry, latency, sizes
      ensures Valid() && seenData == Some(data) && canvas == old(canvas)
      ensures latency.samples == old(latency.samples) && latency.latencies == old(latency.latencies) && latency.version == old(latency.version)
      ensures registry.revokeLog == old(registry.revokeLog)
      ensures old(seenData) != Some(data) && data.Some? ==>
        sizes.prevSize == Some(BufferKB(data.value)) &&
        sizes.accepted == old(sizes.accepted) + (if old(sizes.prevSize) == Some(BufferKB(data.value)) then [] else [BufferKB(data.value)])
      ensures !(old(seenData) != Some(data) && data.Some?) ==>
        sizes.accepted == old(sizes.accepted) && sizes.sizes == old(sizes.sizes) && sizes.version == old(sizes.version)
      ensures old(seenData) != Some(data) && data.Some? && hasContext ==>
        latency.startRef == now && nextImage == old(nextImage) + 1 &&
        registry.created == old(registry.created) + 1 &&
        images == old(images)[old(nextImage) := BlobUrl(old(registry.created))] &&
        registry.blobs == old(registry.blobs)[BlobUrl(old(registry.created)) := Blob(data.value.bytes, JpegType)] &&
        registry.live == old(registry.live) + {BlobUrl(old(registry.created))}
      ensures !(old(seenData) != Some(data) && data.Some? && hasContext) ==>
        latency.startRef == old(latency.startRef) && images == old(images) && nextImage == old(nextImage) &&
        registry.created == old(registry.created) && registry.live == old(registry.live)
    {
      if seenData != Some(data) {
        seenData := Some(data);
        if data.Some? {
          sizes.AddSize(BufferKB(data.value));
          if hasContext {
            StartAttempt(data.value, now);
          }
        }
      }
    }

    /** The body of the render effect past its guards: start the clock, create
        the attempt's URL and hand it to a new image. */
    method StartAttempt(buffer: ArrayBuffer, now: Millis)
      requires Valid()
      modifies this, registry, latency
      ensures Valid() && seenData == old(seenData) && canvas == old(canvas)
      ensures latency.startRef == now && latency.samples == old(latency.samples) && latency.latencies == old(latency.latencies) && latency.version == old(latency.version)
      ensures nextImage == old(nextImage) + 1 && registry.created == old(registry.created) + 1
      ensures images == old(images)[old(nextImage) := BlobUrl(old(registry.created))]
      ensures registry.blobs == old(registry.blobs)[BlobUrl(old(registry.created)) := Blob(buffer.bytes, JpegType)]
      ensures registry.live == old(registry.live) + {BlobUrl(old(registry.created))}
      ensures registry.revokeLog == old(registry.revokeLog)
    {
      latency.Start(now);
      var url := registry.CreateObjectURL(Blob(buffer.bytes, JpegType));
      assert nextImage !in images;
      assert forall id :: id in images ==> images[id] in old(registry.blobs);
      images := images[nextImage := url];
      nextImage := nextImage + 1;
    }

    /** Image `id` settles: every outcome stops the clock once and revokes that
        attempt's URL once. */
    method OnImageSettled(id: nat, outcome: ImageOutcome, now: Millis)
      requires Valid() && id in images
      modifies this, registry, latency
      ensures Valid() && images == old(images) - {id} && nextImage == old(nextImage)
      ensures latency.samples == old(latency.samples) + [now - old(latency.startRef)]
      ensures registry.revokeLog == old(registry.revokeLog) + [old(images)[id]]
      ensures registry.live == old(registry.live) - {old(images)[id]}
      ensures outcome.Loaded? ==> canvas == Size(outcome.width, outcome.height)
      ensures outcome.LoadFailed? ==> canvas == old(canvas)
    {
      var url := images[id];
      images := images - {id};
      if outcome.Loaded? {
        canvas := Size(outcome.width, outcome.height);
      }
      latency.End(now);
      registry.RevokeObjectURL(url);
    }

    /** Unmount: with no cleanup, the URL of every image still loading stays live. */
    method Unmount()
      requires Valid()
      ensures forall id :: id in images ==> images[id] in registry.live
    {
    }
  }
}
