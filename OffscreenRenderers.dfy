/** `OffscreenCanvasBase64Renderer`: hands each Base64 frame to the worker
    channel when the channel is ready and idle, and clears its one-way
    offscreen flag when the browser lacks support or the channel reports an
    initialisation error. The flag is meant to select the main-thread fallback,
    but the early `return` that shows it comes before five of the component's
    hooks: the render after the flag is cleared calls fewer hooks than the
    committed render did, so React throws "Rendered fewer hooks than expected",
    and with no error boundary above it the page unmounts. */
module OffscreenBase64Renderer {
  import opened Js
  import ImageLatencyTracker
  import ImageSizeTracker
  import opened RendererParts
  import opened WorkerProtocol
  import opened OffscreenCanvasHook

  const JpegType: string := "image/jpeg"

  /** `error && error.includes("초기화 실패")`. */
  predicate TriggersFallback(error: Option<string>)
  {
    error.Some? && Includes(error.value, InitFailureMarker)
  }

  /** Every initialisation error the channel reports clears the flag,
      `Canvas 초기화 실패` included. */
  lemma InitErrorsTriggerFallback(message: string)
    ensures TriggersFallback(Some(InitFailure(message)))
    ensures TriggersFallback(Some(CanvasInitFailed))
  {
    InitErrorsCarryMarker(message);
  }

  /** The dependencies of the render effect. */
  datatype RenderDeps = RenderDeps(data: Option<string>, isReady: bool, isProcessing: bool)

  /** The render effect runs and gets past its guard. */
  predicate Dispatches(seen: Option<RenderDeps>, deps: RenderDeps)
  {
    seen != Some(deps) && deps.data.Some? && deps.data.value != "" && deps.isReady && !deps.isProcessing
  }

  /** The end effect runs and calls `end()`: `lastRenderTime` changed to a number. */
  predicate Ends(seen: Option<Option<Millis>>, lastRenderTime: Option<Millis>)
  {
    seen != Some(lastRenderTime) && lastRenderTime.Some?
  }

  class Renderer {
    /** `transferControlToOffscreen` is a function and `Worker` exists. */
    const supported: bool
    const channel: Hook
    const latency: ImageLatencyTracker.Tracker
    const sizes: ImageSizeTracker.Tracker
    const latencyForward: Forwarder<int>
    const sizeForward: Forwarder<real>
    /** `useOffscreenCanvasFeature`. */
    var useOffscreen: bool
    /** The support-check effect (empty dependencies) has run. */
    var supportChecked: bool
    var seenError: Option<Option<string>>
    var seenData: Option<Option<string>>
    var seenRenderDeps: Option<RenderDeps>
    var seenLastRenderTime: Option<Option<Millis>>

    ghost predicate Valid()
      reads this, channel, latency, sizes, latencyForward, sizeForward
    {
      channel.Valid() && latency.Valid() && sizes.Valid() && latencyForward.Valid() && sizeForward.Valid() &&
      !latencyForward.onlyNonEmpty && !sizeForward.onlyNonEmpty &&
      (!supportChecked ==> useOffscreen)
    }

    /** The first render, with the flag on and so the canvas attached; the
        channel's own init effect is declared first and has run. */
    constructor (supported: bool)
      ensures Valid() && this.supported == supported && useOffscreen && !supportChecked
      ensures fresh(channel) && fresh(latency) && fresh(sizes) && fresh(latencyForward) && fresh(sizeForward)
      ensures channel.initTimerPending && !channel.isReady && channel.posted == [] && channel.error == None
      ensures seenError == None && seenData == None && seenRenderDeps == None && seenLastRenderTime == None
      ensures latency.samples == [] && sizes.accepted == []
    {
      this.supported := supported;
      channel := new Hook(true);
      latency := new ImageLatencyTracker.Tracker();
      sizes := new ImageSizeTracker.Tracker();
      latencyForward := new Forwarder(false);
      sizeForward := new Forwarder(false);
      useOffscreen, supportChecked := true, false;
      seenError, seenData, seenRenderDeps, seenLastRenderTime := None, None, None, None;
    }

    /** The channel's 200 ms init timer, which finds the canvas only while the
        offscreen branch is shown. */
    method OnInitTimer(canTransfer: bool, hasWorkerApi: bool, inDocument: bool)
      requires Valid() && channel.initTimerPending
      modifies channel
      ensures Valid()
      ensures !canTransfer && useOffscreen ==> channel.error == Some(InitFailure(NoTransferMessage))
      ensures canTransfer && !hasWorkerApi && useOffscreen ==> channel.error == Some(InitFailure(NoWorkerMessage))
    {
      channel.OnInitTimer(useOffscreen, canTransfer, hasWorkerApi, inDocument);
    }

    /** The two effects declared before the early return: the support check
        (first commit only) and the error watch. The flag only ever goes from
        true to false. */
    method FlagEffects()
      requires Valid()
      modifies this
      ensures Valid() && supportChecked
      ensures useOffscreen <==>
        old(useOffscreen) && (old(supportChecked) || supported) &&
        (old(seenError) == Some(channel.error) || !TriggersFallback(channel.error))
      ensures seenError == Some(channel.error)
      ensures seenData == old(seenData) && seenRenderDeps == old(seenRenderDeps) && seenLastRenderTime == old(seenLastRenderTime)
    {
      if !supportChecked {
        supportChecked := true;
        if !supported {
          useOffscreen := false;
        }
      }
      if seenError != Some(channel.error) {
        seenError := Some(channel.error);
        if TriggersFallback(channel.error) {
          useOffscreen := false;
        }
      }
    }

    /** The size effect: every new non-empty store value adds `length / 1024`,
        rendered or not. */
    method SizeEffect(data: Option<string>)
      requires Valid()
      modifies this, sizes
      ensures Valid() && seenData == Some(data)
      ensures old(seenData) != Some(data) && data.Some? && data.value != "" ==>
        sizes.prevSize == Some(TextKB(data.value)) &&
        sizes.accepted == old(sizes.accepted) + (if old(sizes.prevSize) == Some(TextKB(data.value)) then [] else [TextKB(data.value)])
      ensures !(old(seenData) != Some(data) && data.Some? && data.value != "") ==>
        sizes.accepted == old(sizes.accepted) && sizes.sizes == old(sizes.sizes) && sizes.version == old(sizes.version)
      ensures useOffscreen == old(useOffscreen) && supportChecked == old(supportChecked) && seenError == old(seenError)
      ensures seenRenderDeps == old(seenRenderDeps) && seenLastRenderTime == old(seenLastRenderTime)
    {
      if seenData != Some(data) {
        seenData := Some(data);
        if data.Some? && data.value != "" {
          sizes.AddSize(TextKB(data.value));
        }
      }
    }

    /** The render effect: with data, a ready channel and no render in flight,
        start the clock and then send the frame. */
    method RenderEffect(deps: RenderDeps, now: Millis)
      requires Valid() && deps.isReady == channel.isReady && deps.isProcessing == channel.isProcessing
      modifies this, channel, latency
      ensures Valid() && seenRenderDeps == Some(deps)
      ensures latency.samples == old(latency.samples) && latency.latencies == old(latency.latencies) && latency.version == old(latency.version)
      ensures channel.lastRenderTime == old(channel.lastRenderTime) && channel.isReady == old(channel.isReady)
      ensures channel.initTimerPending == old(channel.initTimerPending)
      ensures Dispatches(old(seenRenderDeps), deps) ==>
        latency.startRef == now && channel.isProcessing && channel.error == None &&
        channel.posted == old(channel.posted) + [Command.RenderImage(TextImage(deps.data.value), Some(JpegType))]
      ensures !Dispatches(old(seenRenderDeps), deps) ==>
        latency.startRef == old(latency.startRef) && channel.isProcessing == old(channel.isProcessing) &&
        channel.error == old(channel.error) && channel.posted == old(channel.posted)
      ensures useOffscreen == old(useOffscreen) && supportChecked == old(supportChecked) && seenError == old(seenError)
      ensures seenData == old(seenData) && seenLastRenderTime == old(seenLastRenderTime)
    {
      if seenRenderDeps != Some(deps) {
        seenRenderDeps := Some(deps);
        if deps.data.Some? && deps.data.value != "" && deps.isReady && !deps.isProcessing {
          latency.Start(now);
          var accepted := channel.RenderImage(TextImage(deps.data.value), JpegType);
        }
      }
    }

    /** The end effect: `end()` only when `lastRenderTime` changed to a number,
        so render errors and timeouts add no sample. */
    method EndEffect(lastRenderTime: Option<Millis>, now: Millis)
      requires Valid()
      modifies this, latency
      ensures Valid() && seenLastRenderTime == Some(lastRenderTime)
      ensures latency.startRef == old(latency.startRef)
      ensures latency.samples ==
        old(latency.samples) + (if Ends(old(seenLastRenderTime), lastRenderTime) then [now - old(latency.startRef)] else [])
      ensures useOffscreen == old(useOffscreen) && supportChecked == old(supportChecked) && seenError == old(seenError)
      ensures seenData == old(seenData) && seenRenderDeps == old(seenRenderDeps)
    {
      if seenLastRenderTime != Some(lastRenderTime) {
        seenLastRenderTime := Some(lastRenderTime);
        if lastRenderTime.Some? {
          latency.End(now);
        }
      }
    }

    /** A render with store value `data` and the channel's current state, then
        its commit at `now`. Returns whether the render stops at the early
        return: the flag starts on, so such a render always follows a committed
        render that called every hook, React throws on the missing ones, and
        nothing of the render commits.
        The render effect is declared before the end effect, so on the commit
        that follows a completion the clock is restarted for the next frame
        before `end()` reads it, and the recorded sample is 0. */
    method Commit(data: Option<string>, now: Millis) returns (tooFewHooks: bool)
      requires Valid()
      modifies this, channel, latency, sizes, latencyForward, sizeForward
      ensures Valid() && tooFewHooks == !old(useOffscreen)
      ensures !useOffscreen ==> supportChecked
      ensures useOffscreen <==>
        old(useOffscreen) && (old(supportChecked) || supported) &&
        (old(seenError) == Some(old(channel.error)) || !TriggersFallback(old(channel.error)))
      ensures tooFewHooks ==>
        channel.posted == old(channel.posted) && latency.samples == old(latency.samples) &&
        latency.startRef == old(latency.startRef) && sizes.accepted == old(sizes.accepted) &&
        latencyForward.calls == old(latencyForward.calls) && sizeForward.calls == old(sizeForward.calls)
      ensures !tooFewHooks ==>
        latencyForward.calls == CallsAfter(old(latencyForward.seen), old(latencyForward.calls), old(latency.latencies), old(latency.version), false) &&
        sizeForward.calls == CallsAfter(old(sizeForward.seen), old(sizeForward.calls), old(sizes.sizes), old(sizes.version), false)
      ensures !tooFewHooks && old(seenData) != Some(data) && data.Some? && data.value != "" ==>
        sizes.prevSize == Some(TextKB(data.value))
      ensures !tooFewHooks && Dispatches(old(seenRenderDeps), RenderDeps(data, old(channel.isReady), old(channel.isProcessing))) ==>
        latency.startRef == now &&
        channel.posted == old(channel.posted) + [Command.RenderImage(TextImage(data.value), Some(JpegType))]
      ensures !tooFewHooks && !Dispatches(old(seenRenderDeps), RenderDeps(data, old(channel.isReady), old(channel.isProcessing))) ==>
        latency.startRef == old(latency.startRef) && channel.posted == old(channel.posted) && channel.error == old(channel.error)
      ensures channel.initTimerPending == old(channel.initTimerPending)
      ensures tooFewHooks ==>
        channel.error == old(channel.error) && seenError == old(seenError) && supportChecked == old(supportChecked)
      ensures !tooFewHooks ==> seenError == Some(old(channel.error))
      ensures !tooFewHooks ==>
        latency.samples ==
          old(latency.samples) + (if Ends(old(seenLastRenderTime), old(channel.lastRenderTime)) then [now - latency.startRef] else [])
      ensures !tooFewHooks && Ends(old(seenLastRenderTime), old(channel.lastRenderTime)) &&
              Dispatches(old(seenRenderDeps), RenderDeps(data, old(channel.isReady), old(channel.isProcessing))) ==>
        latency.samples == old(latency.samples) + [0]
    {
      tooFewHooks := !useOffscreen;
      var deps := RenderDeps(data, channel.isReady, channel.isProcessing);
      var lastRenderTime := channel.lastRenderTime;
      var renderedLatencies, renderedSizes := latency.latencies, sizes.sizes;
      var latenciesId, sizesId := latency.version, sizes.version;
      if tooFewHooks {
        return;
      }
      FlagEffects();
      latencyForward.Commit(renderedLatencies, latenciesId);
      sizeForward.Commit(renderedSizes, sizesId);
      SizeEffect(data);
      RenderEffect(deps, now);
      EndEffect(lastRenderTime, now);
    }

    /** The same commit with the end effect declared before the render effect:
        the completion is measured against the clock start of the request that
        completed, and only then is the next frame started. */
    method CommitEndingFirst(data: Option<string>, now: Millis) returns (tooFewHooks: bool)
      requires Valid()
      modifies this, channel, latency, sizes, latencyForward, sizeForward
      ensures Valid() && tooFewHooks == !old(useOffscreen)
      ensures !tooFewHooks ==>
        latency.samples ==
          old(latency.samples) + (if Ends(old(seenLastRenderTime), old(channel.lastRenderTime)) then [now - old(latency.startRef)] else [])
      ensures !tooFewHooks && Dispatches(old(seenRenderDeps), RenderDeps(data, old(channel.isReady), old(channel.isProcessing))) ==>
        latency.startRef == now &&
        channel.posted == old(channel.posted) + [Command.RenderImage(TextImage(data.value), Some(JpegType))]
    {
      tooFewHooks := !useOffscreen;
      var deps := RenderDeps(data, channel.isReady, channel.isProcessing);
      var lastRenderTime := channel.lastRenderTime;
      var renderedLatencies, renderedSizes := latency.latencies, sizes.sizes;
      var latenciesId, sizesId := latency.version, sizes.version;
      if tooFewHooks {
        return;
      }
      FlagEffects();
      latencyForward.Commit(renderedLatencies, latenciesId);
      sizeForward.Commit(renderedSizes, sizesId);
      SizeEffect(data);
      EndEffect(lastRenderTime, now);
      RenderEffect(deps, now);
    }
  }

  /** A browser without a `Worker` constructor whose support probe is fooled:
      the channel reports `초기화 실패: WebWorker is not supported in this
      browser`, the next commit clears the offscreen flag, and the render after
      it throws on the hooks it no longer calls. */
  method MissingWorkerClearsFlag() returns (renderer: Renderer, flagCleared: bool, tooFewHooks: bool)
    ensures renderer.channel.error == Some(InitFailure(NoWorkerMessage))
    ensures flagCleared && tooFewHooks
  {
    renderer := new Renderer(true);
    tooFewHooks := renderer.Commit(None, 0);
    renderer.OnInitTimer(true, false, true);
    InitErrorsTriggerFallback(NoWorkerMessage);
    tooFewHooks := renderer.Commit(None, 200);
    flagCleared := !tooFewHooks && !renderer.useOffscreen;
    tooFewHooks := renderer.Commit(None, 250);
  }
}

/** `OffscreenCanvasBinaryRenderer`: the same renderer over the binary store.
    The frame goes to the worker as an `ArrayBuffer`, every buffer (even an
    empty one) counts as data, and the error watch looks for a mis-encoded
    copy of the init marker. The early `return` of the fallback has the same
    place before five hooks, so once the flag is cleared (here only by the
    support check) the next render throws on the missing hooks. */
module OffscreenBinaryRenderer {
  import opened Js
  import opened Blobs
  import ImageLatencyTracker
  import ImageSizeTracker
  import opened RendererParts
  import opened WorkerProtocol
  import opened OffscreenCanvasHook
  import OffscreenBase64Renderer

  const JpegType: string := "image/jpeg"

  /** The marker as this file spells it: the UTF-8 bytes of `초기화 실패`
      read back as Windows-1252 text. */
  const WrittenMarker: string :=
    "\U{EC}\U{B4}\U{2C6}\U{EA}\U{B8}\U{B0}\U{ED}\U{2122}\U{201D} \U{EC}\U{2039}\U{A4}\U{ED}\U{152}\U{A8}"

  /** The error watch as written: `error.includes(WrittenMarker)`. */
  predicate TriggersFallbackAsWritten(error: Option<string>)
  {
    error.Some? && Includes(error.value, WrittenMarker)
  }

  /** No initialisation error of the channel matches the written marker unless
      the underlying message itself carries `ì`; in particular none of the
      channel's own messages does, so an initialisation failure never clears
      the binary renderer's offscreen flag. */
  lemma InitErrorsNeverTriggerFallback(message: string)
    requires '\U{EC}' !in message
    ensures !TriggersFallbackAsWritten(Some(InitFailure(message)))
    ensures !TriggersFallbackAsWritten(Some(CanvasInitFailed))
    ensures OffscreenBase64Renderer.TriggersFallback(Some(InitFailure(message)))
  {
    assert WrittenMarker[0] == '\U{EC}';
    assert '\U{EC}' !in InitFailureMarker + ": ";
    assert InitFailure(message) == (InitFailureMarker + ": ") + message;
    NotIncludesMissingChar(InitFailure(message), WrittenMarker, 0);
    NotIncludesMissingChar(CanvasInitFailed, WrittenMarker, 0);
    OffscreenBase64Renderer.InitErrorsTriggerFallback(message);
  }

  /** The dependencies of the render effect; buffers compare by identity. */
  datatype RenderDeps = RenderDeps(data: Option<ArrayBuffer>, isReady: bool, isProcessing: bool)

  predicate Dispatches(seen: Option<RenderDeps>, deps: RenderDeps)
  {
    seen != Some(deps) && deps.data.Some? && deps.isReady && !deps.isProcessing
  }

  predicate Ends(seen: Option<Option<Millis>>, lastRenderTime: Option<Millis>)
  {
    seen != Some(lastRenderTime) && lastRenderTime.Some?
  }

  class Renderer {
    const supported: bool
    const channel: Hook
    const latency: ImageLatencyTracker.Tracker
    const sizes: ImageSizeTracker.Tracker
    const latencyForward: Forwarder<int>
    const sizeForward: Forwarder<real>
    var useOffscreen: bool
    var supportChecked: bool
    var seenError: Option<Option<string>>
    var seenData: Option<Option<ArrayBuffer>>
    var seenRenderDeps: Option<RenderDeps>
    var seenLastRenderTime: Option<Option<Millis>>

    ghost predicate Valid()
      reads this, channel, latency, sizes, latencyForward, sizeForward
    {
      channel.Valid() && latency.Valid() && sizes.Valid() && latencyForward.Valid() && sizeForward.Valid() &&
      !latencyForward.onlyNonEmpty && !sizeForward.onlyNonEmpty &&
      (!supportChecked ==> useOffscreen)
    }

    constructor (supported: bool)
      ensures Valid() && this.supported == supported && useOffscreen && !supportChecked
      ensures fresh(channel) && fresh(latency) && fresh(sizes) && fresh(latencyForward) && fresh(sizeForward)
      ensures channel.initTimerPending && !channel.isReady && channel.posted == [] && channel.error == None
      ensures seenError == None && seenData == None && seenRenderDeps == None && seenLastRenderTime == None
      ensures latency.samples == [] && sizes.accepted == []
    {
      this.supported := supported;
      channel := new Hook(true);
      latency := new ImageLatencyTracker.Tracker();
      sizes := new ImageSizeTracker.Tracker();
      latencyForward := new Forwarder(false);
      sizeForward := new Forwarder(false);
      useOffscreen, supportChecked := true, false;
      seenError, seenData, seenRenderDeps, seenLastRenderTime := None, None, None, None;
    }

    method OnInitTimer(canTransfer: bool, hasWorkerApi: bool, inDocument: bool)
      requires Valid() && channel.initTimerPending
      modifies channel
      ensures Valid()
      ensures !canTransfer && useOffscreen ==> channel.error == Some(InitFailure(NoTransferMessage))
      ensures canTransfer && !hasWorkerApi && useOffscreen ==> channel.error == Some(InitFailure(NoWorkerMessage))
    {
      channel.OnInitTimer(useOffscreen, canTransfer, hasWorkerApi, inDocument);
    }

    /** The support check and the error watch, with the marker as written. */
    method FlagEffects()
      requires Valid()
      modifies this
      ensures Valid() && supportChecked
      ensures useOffscreen <==>
        old(useOffscreen) && (old(supportChecked) || supported) &&
        (old(seenError) == Some(channel.error) || !TriggersFallbackAsWritten(channel.error))
      ensures seenError == Some(channel.error)
      ensures seenData == old(seenData) && seenRenderDeps == old(seenRenderDeps) && seenLastRenderTime == old(seenLastRenderTime)
    {
      if !supportChecked {
        supportChecked := true;
        if !supported {
          useOffscreen := false;
        }
      }
      if seenError != Some(channel.error) {
        seenError := Some(channel.error);
        if TriggersFallbackAsWritten(channel.error) {
          useOffscreen := false;
        }
      }
    }

    /** The size effect: every new buffer adds `byteLength / 1024`. */
    method SizeEffect(data: Option<ArrayBuffer>)
      requires Valid()
      modifies this, sizes
      ensures Valid() && seenData == Some(data)
      ensures old(seenData) != Some(data) && data.Some? ==>
        sizes.prevSize == Some(BufferKB(data.value)) &&
        sizes.accepted == old(sizes.accepted) + (if old(sizes.prevSize) == Some(BufferKB(data.value)) then [] else [BufferKB(data.value)])
      ensures !(old(seenData) != Some(data) && data.Some?) ==>
        sizes.accepted == old(sizes.accepted) && sizes.sizes == old(sizes.sizes) && sizes.version == old(sizes.version)
      ensures useOffscreen == old(useOffscreen) && supportChecked == old(supportChecked) && seenError == old(seenError)
      ensures seenRenderDeps == old(seenRenderDeps) && seenLastRenderTime == old(seenLastRenderTime)
    {
      if seenData != Some(data) {
        seenData := Some(data);
        if data.Some? {
          sizes.AddSize(BufferKB(data.value));
        }
      }
    }

    /** The render effect: start the clock, then send the buffer's bytes. */
    method RenderEffect(deps: RenderDeps, now: Millis)
      requires Valid() && deps.isReady == channel.isReady && deps.isProcessing == channel.isProcessing
      modifies this, channel, latency
      ensures Valid() && seenRenderDeps == Some(deps)
      ensures latency.samples == old(latency.samples) && latency.latencies == old(latency.latencies) && latency.version == old(latency.version)
      ensures channel.lastRenderTime == old(channel.lastRenderTime) && channel.isReady == old(channel.isReady)
      ensures channel.initTimerPending == old(channel.initTimerPending)
      ensures Dispatches(old(seenRenderDeps), deps) ==>
        latency.startRef == now && channel.isProcessing && channel.error == None &&
        channel.posted == old(channel.posted) + [Command.RenderImage(BufferImage(deps.data.value.bytes), Some(JpegType))]
      ensures !Dispatches(old(seenRenderDeps), deps) ==>
        latency.startRef == old(latency.startRef) && channel.isProcessing == old(channel.isProcessing) &&
        channel.error == old(channel.error) && channel.posted == old(channel.posted)
      ensures useOffscreen == old(useOffscreen) && supportChecked == old(supportChecked) && seenError == old(seenError)
      ensures seenData == old(seenData) && seenLastRenderTime == old(seenLastRenderTime)
    {
      if seenRenderDeps != Some(deps) {
        seenRenderDeps := Some(deps);
        if deps.data.Some? && deps.isReady && !deps.isProcessing {
          latency.Start(now);
          var accepted := channel.RenderImage(BufferImage(deps.data.value.bytes), JpegType);
        }
      }
    }

    method EndEffect(lastRenderTime: Option<Millis>, now: Millis)
      requires Valid()
      modifies this, latency
      ensures Valid() && seenLastRenderTime == Some(lastRenderTime)
      ensures latency.startRef == old(latency.startRef)
      ensures latency.samples ==
        old(latency.samples) + (if Ends(old(seenLastRenderTime), lastRenderTime) then [now - old(latency.startRef)] else [])
      ensures useOffscreen == old(useOffscreen) && supportChecked == old(supportChecked) && seenError == old(seenError)
      ensures seenData == old(seenData) && seenRenderDeps == old(seenRenderDeps)
    {
      if seenLastRenderTime != Some(lastRenderTime) {
        seenLastRenderTime := Some(lastRenderTime);
        if lastRenderTime.Some? {
          latency.End(now);
        }
      }
    }

    /** A render with store value `data` and its commit at `now`, effects in
        declaration order (the render effect before the end effect). As in the
        Base64 renderer, a render that stops at the early return throws on the
        hooks it no longer calls, and nothing of it commits. */
    method Commit(data: Option<ArrayBuffer>, now: Millis) returns (tooFewHooks: bool)
      requires Valid()
      modifies this, channel, latency, sizes, latencyForward, sizeForward
      ensures Valid() && tooFewHooks == !old(useOffscreen)
      ensures !useOffscreen ==> supportChecked
      ensures useOffscreen <==>
        old(useOffscreen) && (old(supportChecked) || supported) &&
        (old(seenError) == Some(old(channel.error)) || !TriggersFallbackAsWritten(old(channel.error)))
      ensures tooFewHooks ==>
        channel.posted == old(channel.posted) && latency.samples == old(latency.samples) &&
        latency.startRef == old(latency.startRef) && sizes.accepted == old(sizes.accepted) &&
        latencyForward.calls == old(latencyForward.calls) && sizeForward.calls == old(sizeForward.calls)
      ensures !tooFewHooks ==>
        latencyForward.calls == CallsAfter(old(latencyForward.seen), old(latencyForward.calls), old(latency.latencies), old(latency.version), false) &&
        sizeForward.calls == CallsAfter(old(sizeForward.seen), old(sizeForward.calls), old(sizes.sizes), old(sizes.version), false)
      ensures !tooFewHooks && old(seenData) != Some(data) && data.Some? ==>
        sizes.prevSize == Some(BufferKB(data.value))
      ensures !tooFewHooks && Dispatches(old(seenRenderDeps), RenderDeps(data, old(channel.isReady), old(channel.isProcessing))) ==>
        latency.startRef == now &&
        channel.posted == old(channel.posted) + [Command.RenderImage(BufferImage(data.value.bytes), Some(JpegType))]
      ensures !tooFewHooks && !Dispatches(old(seenRenderDeps), RenderDeps(data, old(channel.isReady), old(channel.isProcessing))) ==>
        latency.startRef == old(latency.startRef) && channel.posted == old(channel.posted) && channel.error == old(channel.error)
      ensures channel.initTimerPending == old(channel.initTimerPending)
      ensures tooFewHooks ==>
        channel.error == old(channel.error) && seenError == old(seenError) && supportChecked == old(supportChecked)
      ensures !tooFewHooks ==> seenError == Some(old(channel.error))
      ensures !tooFewHooks ==>
        latency.samples ==
          old(latency.samples) + (if Ends(old(seenLastRenderTime), old(channel.lastRenderTime)) then [now - latency.startRef] else [])
      ensures !tooFewHooks && Ends(old(seenLastRenderTime), old(channel.lastRenderTime)) &&
              Dispatches(old(seenRenderDeps), RenderDeps(data, old(channel.isReady), old(channel.isProcessing))) ==>
        latency.samples == old(latency.samples) + [0]
    {
      tooFewHooks := !useOffscreen;
      var deps := RenderDeps(data, channel.isReady, channel.isProcessing);
      var lastRenderTime := channel.lastRenderTime;
      var renderedLatencies, renderedSizes := latency.latencies, sizes.sizes;
      var latenciesId, sizesId := latency.version, sizes.version;
      if tooFewHooks {
        return;
      }
      FlagEffects();
      latencyForward.Commit(renderedLatencies, latenciesId);
      sizeForward.Commit(renderedSizes, sizesId);
      SizeEffect(data);
      RenderEffect(deps, now);
      EndEffect(lastRenderTime, now);
    }
  }

  /** A browser without a `Worker` constructor: the channel reports
      `초기화 실패: WebWorker is not supported in this browser`, yet the renderer
      keeps showing its (dead) offscreen canvas. */
  method MissingWorkerKeepsOffscreen() returns (renderer: Renderer, tooFewHooks: bool)
    ensures renderer.channel.error == Some(InitFailure(NoWorkerMessage))
    ensures renderer.useOffscreen && !tooFewHooks
  {
    // The support probe itself is fooled (a `Worker` global that throws, say);
    // only the channel's own check finds the gap.
    renderer := new Renderer(true);
    tooFewHooks := renderer.Commit(None, 0);
    renderer.OnInitTimer(true, false, true);
    assert '\U{EC}' !in NoWorkerMessage;
    InitErrorsNeverTriggerFallback(NoWorkerMessage);
    tooFewHooks := renderer.Commit(None, 200);
  }
}
