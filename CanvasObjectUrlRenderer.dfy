/** `CanvasObjectURLImageRenderer`: draws each binary frame on a canvas through
    a Blob URL from `useBinaryToObjectURL`. Each run of its main effect is one
    render attempt: `start()`, load the image under a 5 s timeout, wait 10 ms
    and two animation frames, draw, sample the pixels, and `end()` 15 ms later.
    Every deferred step first checks the attempt's `isCancelled` flag, which the
    effect's cleanup sets. The effect lists `start` and `end`, which are new
    closures on every render, so it re-runs, cancelling the attempt in flight, on
    every commit. */
module CanvasObjectUrlRenderer {
  import opened Js
  import opened Blobs
  import ImageLatencyTracker
  import ImageSizeTracker
  import opened RendererParts
  import BinaryToObjectUrl

  const JpegType: string := "image/jpeg"
  const LoadTimeout: Millis := 5000
  const RenderDelay: Millis := 10
  const EndDelay: Millis := 15
  /** `Math.min(data.length, 10000)`: the pixel pass stops below this index. */
  const MaxSampleBytes: nat := 10000

  function SampleLimit(length: nat): (n: nat)
    ensures n <= length && n <= MaxSampleBytes
    ensures n == length || n == MaxSampleBytes
  {
    if length < MaxSampleBytes then length else MaxSampleBytes
  }

  /** The sum of the bytes at multiples of 4 below `n`: the red channel of the
      first `n / 4` pixels, rounded up. */
  function RedSum(data: seq<byte>, n: nat): int
    requires n <= |data|
  {
    if n == 0 then 0 else RedSum(data, n - 1) + (if (n - 1) % 4 == 0 then data[n - 1] as int else 0)
  }

  /** One step of the pass: from a multiple of 4 to any bound up to 4 further on
      adds exactly one byte. */
  lemma {:induction false} RedSumStep(data: seq<byte>, i: nat, m: nat)
    requires i % 4 == 0 && i < m <= i + 4 && m <= |data|
    ensures RedSum(data, m) == RedSum(data, i) + data[i] as int
    decreases m - i
  {
    if m > i + 1 {
      RedSumStep(data, i, m - 1);
    }
  }

  /** The pass reads only bytes below the bound: it agrees on any two arrays that
      share those bytes. */
  lemma {:induction false} RedSumPrefix(data: seq<byte>, other: seq<byte>, n: nat)
    requires n <= |data| && n <= |other| && data[..n] == other[..n]
    ensures RedSum(data, n) == RedSum(other, n)
  {
    if n > 0 {
      assert data[..n - 1] == data[..n][..n - 1];
      assert other[..n - 1] == other[..n][..n - 1];
      assert data[n - 1] == data[..n][n - 1];
      RedSumPrefix(data, other, n - 1);
    }
  }

  /** The sum lies between 0 and 255 for every sampled byte. */
  lemma {:induction false} RedSumBounds(data: seq<byte>, n: nat)
    requires n <= |data|
    ensures 0 <= RedSum(data, n) <= 255 * ((n + 3) / 4)
  {
    if n > 0 {
      RedSumBounds(data, n - 1);
      var q, r := (n - 1) / 4, (n - 1) % 4;
      assert n - 1 == 4 * q + r && 0 <= r < 4;
      assert (n + 3) / 4 == q + 1;
      assert (n + 2) / 4 == if r == 0 then q else q + 1;
    }
  }

  /** `for (let i = 0; i < Math.min(data.length, 10000); i += 4) sum += data[i]`. */
  method SumSampled(data: seq<byte>) returns (sum: int)
    ensures sum == RedSum(data, SampleLimit(|data|))
    ensures 0 <= sum <= 255 * 2500
  {
    var limit := SampleLimit(|data|);
    sum := 0;
    var i := 0;
    while i < limit
      invariant i % 4 == 0 && i <= limit + 3
      invariant sum == RedSum(data, if i <= limit then i else limit)
    {
      var next := if i + 4 <= limit then i + 4 else limit;
      RedSumStep(data, i, next);
      sum := sum + data[i] as int;
      i := i + 4;
    }
    RedSumBounds(data, limit);
  }

  /** Where an attempt stands: waiting for the image, in the 10 ms delay, in
      the first or second animation frame, in the 15 ms delay after drawing, or
      done. */
  datatype Phase = Loading | Delaying | FirstFrame | SecondFrame | Settling | Finished

  /** One run of the main effect. `ends` counts its calls to `end()`. */
  datatype Attempt = Attempt(url: Url, start: Millis, phase: Phase, cancelled: bool, timeoutArmed: bool, ends: nat)

  /** `end()` is still possible for this attempt. */
  predicate Open(a: Attempt)
  {
    !a.cancelled && a.phase != Finished
  }

  ghost predicate WellFormed(a: Attempt)
  {
    a.ends <= 1 && (Open(a) ==> a.ends == 0) &&
    (a.timeoutArmed ==> !a.cancelled && a.phase == Loading)
  }

  class Renderer {
    const registry: UrlRegistry
    const urlHook: BinaryToObjectUrl.Hook
    const latency: ImageLatencyTracker.Tracker
    const sizes: ImageSizeTracker.Tracker
    const latencyForward: Forwarder<int>
    const sizeForward: Forwarder<real>
    var canvas: Size
    /** Every attempt, oldest first; an attempt is named by its index. */
    var attempts: seq<Attempt>

    ghost predicate Valid()
      reads this, urlHook, urlHook.effect, registry, latency, sizes, latencyForward, sizeForward
    {
      urlHook.registry == registry && urlHook.Valid() && latency.Valid() && sizes.Valid() &&
      latencyForward.Valid() && sizeForward.Valid() && !latencyForward.onlyNonEmpty && !sizeForward.onlyNonEmpty &&
      (forall i :: 0 <= i < |attempts| ==> WellFormed(attempts[i])) &&
      // only the latest attempt can still be live, and it owns the clock
      (forall i :: 0 <= i < |attempts| - 1 ==> attempts[i].cancelled) &&
      (|attempts| > 0 ==> latency.startRef == attempts[|attempts| - 1].start)
    }

    constructor (registry: UrlRegistry)
      requires registry.Valid()
      ensures Valid() && this.registry == registry && attempts == [] && canvas == Size(300, 150)
      ensures fresh(urlHook) && fresh(urlHook.effect) && fresh(latency) && fresh(sizes)
      ensures fresh(latencyForward) && fresh(sizeForward)
      ensures latency.samples == [] && sizes.accepted == []
    {
      this.registry := registry;
      urlHook := new BinaryToObjectUrl.Hook(registry);
      latency := new ImageLatencyTracker.Tracker();
      sizes := new ImageSizeTracker.Tracker();
      latencyForward := new Forwarder(false);
      sizeForward := new Forwarder(false);
      canvas := Size(300, 150);
      attempts := [];
    }

    /** The cleanup of the previous run: the latest attempt is cancelled and its
        timeout cleared. */
    method CancelLatest()
      requires Valid()
      modifies this
      ensures Valid() && |attempts| == |old(attempts)| && canvas == old(canvas)
      ensures forall i :: 0 <= i < |attempts| ==> attempts[i].cancelled && attempts[i].ends == old(attempts[i].ends)
      ensures forall i :: 0 <= i < |attempts| ==> attempts[i].url == old(attempts[i].url) && attempts[i].start == old(attempts[i].start)
    {
      if |attempts| > 0 {
        var last := |attempts| - 1;
        attempts := attempts[last := attempts[last].(cancelled := true, timeoutArmed := false)];
      }
    }

    /** A render with store value `data` and its commit at `now`. The main effect
        runs on every commit: it cancels the attempt in flight and, when there
        is a URL and a buffer, calls `start()` and begins loading that URL. */
    method Commit(data: Option<ArrayBuffer>, now: Millis)
      requires Valid()
      modifies this, urlHook, urlHook.effect, registry, latency, sizes, latencyForward, sizeForward
      ensures Valid()
      ensures urlHook.memoKey == Some(BinaryToObjectUrl.MemoKey(data, JpegType))
      ensures data.Some? ==> sizes.prevSize == Some(BufferKB(data.value))
      ensures data.None? ==> sizes.accepted == old(sizes.accepted)
      ensures latencyForward.calls == CallsAfter(old(latencyForward.seen), old(latencyForward.calls), old(latency.latencies), old(latency.version), false)
      ensures sizeForward.calls == CallsAfter(old(sizeForward.seen), old(sizeForward.calls), old(sizes.sizes), old(sizes.version), false)
      ensures latency.samples == old(latency.samples)
      // every earlier attempt is cancelled, whatever changed
      ensures |attempts| >= |old(attempts)|
      ensures forall i :: 0 <= i < |old(attempts)| ==> attempts[i].cancelled && attempts[i].ends == old(attempts[i].ends)
      ensures data.Some? && urlHook.objectUrl.Some? ==>
        |attempts| == |old(attempts)| + 1 && latency.startRef == now &&
        attempts[|attempts| - 1] == Attempt(urlHook.objectUrl.value, now, Loading, false, true, 0) &&
        urlHook.objectUrl.value in registry.live
      ensures !(data.Some? && urlHook.objectUrl.Some?) ==>
        |attempts| == |old(attempts)| && latency.startRef == old(latency.startRef)
    {
      var url := RenderHooks(data);
      CancelLatest();
      if url.Some? && data.Some? {
        StartAttempt(url.value, now);
      }
    }

    /** The part of a commit before the main effect: the memoised URL, the size
        effect and the two forwarding effects. */
    method RenderHooks(data: Option<ArrayBuffer>) returns (url: Option<Url>)
      requires Valid()
      modifies urlHook, urlHook.effect, registry, sizes, latencyForward, sizeForward
      ensures Valid() && url == urlHook.objectUrl
      ensures urlHook.memoKey == Some(BinaryToObjectUrl.MemoKey(data, JpegType))
      ensures data.Some? ==> sizes.prevSize == Some(BufferKB(data.value))
      ensures data.None? ==> sizes.accepted == old(sizes.accepted)
      ensures latencyForward.calls == CallsAfter(old(latencyForward.seen), old(latencyForward.calls), latency.latencies, latency.version, false)
      ensures sizeForward.calls == CallsAfter(old(sizeForward.seen), old(sizeForward.calls), old(sizes.sizes), old(sizes.version), false)
    {
      url := urlHook.Use(data, JpegType);
      SizeEffects(data);
    }

    /** The size effect, which runs on every commit with a buffer, and the two
        forwards with the arrays of this render. */
    method SizeEffects(data: Option<ArrayBuffer>)
      requires Valid()
      modifies sizes, latencyForward, sizeForward
      ensures Valid()
      ensures data.Some? ==> sizes.prevSize == Some(BufferKB(data.value))
      ensures data.None? ==> sizes.accepted == old(sizes.accepted)
      ensures latencyForward.calls == CallsAfter(old(latencyForward.seen), old(latencyForward.calls), latency.latencies, latency.version, false)
      ensures sizeForward.calls == CallsAfter(old(sizeForward.seen), old(sizeForward.calls), old(sizes.sizes), old(sizes.version), false)
    {
      var renderedSizes, sizesId := sizes.sizes, sizes.version;
      if data.Some? {
        sizes.AddSize(BufferKB(data.value));
      }
      latencyForward.Commit(latency.latencies, latency.version);
      sizeForward.Commit(renderedSizes, sizesId);
    }

    /** The body of the main effect past its guard: `start()`, then load `url`
        under an armed timeout. */
    method StartAttempt(url: Url, now: Millis)
      requires Valid() && forall i :: 0 <= i < |attempts| ==> attempts[i].cancelled
      modifies this, latency
      ensures Valid() && canvas == old(canvas)
      ensures attempts == old(attempts) + [Attempt(url, now, Loading, false, true, 0)]
      ensures latency.startRef == now && latency.samples == old(latency.samples)
    {
      latency.Start(now);
      attempts := attempts + [Attempt(url, now, Loading, false, true, 0)];
    }

    /** Ends attempt `id` at `now` and marks it finished. */
    method Finish(id: nat, now: Millis)
      requires Valid() && id < |attempts| && Open(attempts[id]) && !attempts[id].timeoutArmed
      modifies this, latency
      ensures Valid() && |attempts| == |old(attempts)| && canvas == old(canvas)
      ensures attempts == old(attempts)[id := old(attempts[id]).(phase := Finished, ends := old(attempts[id].ends) + 1)]
      ensures latency.samples == old(latency.samples) + [now - old(attempts[id].start)]
      ensures latency.startRef == old(latency.startRef)
    {
      latency.End(now);
      attempts := attempts[id := attempts[id].(phase := Finished, ends := attempts[id].ends + 1)];
    }

    /** The 5 s timer: if it is still armed the attempt is cancelled, the load
        abandoned and `end()` called. */
    method OnTimeout(id: nat, now: Millis)
      requires Valid() && id < |attempts|
      modifies this, latency
      ensures Valid() && |attempts| == |old(attempts)| && canvas == old(canvas)
      ensures old(attempts[id].timeoutArmed) ==>
        attempts == old(attempts)[id := old(attempts[id]).(cancelled := true, timeoutArmed := false, ends := old(attempts[id].ends) + 1)] &&
        latency.samples == old(latency.samples) + [now - old(attempts[id].start)]
      ensures !old(attempts[id].timeoutArmed) ==> attempts == old(attempts) && latency.samples == old(latency.samples)
    {
      if attempts[id].timeoutArmed {
        latency.End(now);
        attempts := attempts[id := attempts[id].(cancelled := true, timeoutArmed := false, ends := attempts[id].ends + 1)];
      }
    }

    /** `img.onload`: clears the timeout and waits 10 ms. */
    method OnLoad(id: nat)
      requires Valid() && id < |attempts|
      modifies this
      ensures Valid() && |attempts| == |old(attempts)| && canvas == old(canvas)
      ensures Open(old(attempts[id])) && old(attempts[id].phase) == Loading ==>
        attempts == old(attempts)[id := old(attempts[id]).(phase := Delaying, timeoutArmed := false)]
      ensures !(Open(old(attempts[id])) && old(attempts[id].phase) == Loading) ==> attempts == old(attempts)
    {
      if Open(attempts[id]) && attempts[id].phase == Loading {
        attempts := attempts[id := attempts[id].(phase := Delaying, timeoutArmed := false)];
      }
    }

    /** `img.onerror`: clears the timeout and calls `end()`. */
    method OnError(id: nat, now: Millis)
      requires Valid() && id < |attempts|
      modifies this, latency
      ensures Valid() && |attempts| == |old(attempts)| && canvas == old(canvas)
      ensures Open(old(attempts[id])) && old(attempts[id].phase) == Loading ==>
        attempts == old(attempts)[id := old(attempts[id]).(phase := Finished, timeoutArmed := false, ends := old(attempts[id].ends) + 1)] &&
        latency.samples == old(latency.samples) + [now - old(attempts[id].start)]
      ensures !(Open(old(attempts[id])) && old(attempts[id].phase) == Loading) ==>
        attempts == old(attempts) && latency.samples == old(latency.samples)
    {
      if Open(attempts[id]) && attempts[id].phase == Loading {
        attempts := attempts[id := attempts[id].(timeoutArmed := false)];
        Finish(id, now);
      }
    }

    /** The 10 ms delay ends: wait for an animation frame. */
    method OnDelay(id: nat)
      requires Valid() && id < |attempts|
      modifies this
      ensures Valid() && canvas == old(canvas)
      ensures attempts == if Open(old(attempts[id])) && old(attempts[id].phase) == Delaying
        then old(attempts)[id := old(attempts[id]).(phase := FirstFrame)] else old(attempts)
    {
      if Open(attempts[id]) && attempts[id].phase == Delaying {
        attempts := attempts[id := attempts[id].(phase := FirstFrame)];
      }
    }

    /** The first animation frame: wait for the next one. */
    method OnFirstFrame(id: nat)
      requires Valid() && id < |attempts|
      modifies this
      ensures Valid() && canvas == old(canvas)
      ensures attempts == if Open(old(attempts[id])) && old(attempts[id].phase) == FirstFrame
        then old(attempts)[id := old(attempts[id]).(phase := SecondFrame)] else old(attempts)
    {
      if Open(attempts[id]) && attempts[id].phase == FirstFrame {
        attempts := attempts[id := attempts[id].(phase := SecondFrame)];
      }
    }

    /** The second animation frame: with no canvas or no 2D context, `end()`
        at once; otherwise resize the canvas to the image, draw and read the
        pixels back (`pixels` is `None` when that throws, which also ends the
        attempt), sum the sample and wait 15 ms. */
    method OnSecondFrame(id: nat, now: Millis, canvasPresent: bool, hasContext: bool, image: Size, pixels: Option<seq<byte>>)
      returns (sample: Option<int>)
      requires Valid() && id < |attempts|
      modifies this, latency
      ensures Valid() && |attempts| == |old(attempts)|
      ensures !(Open(old(attempts[id])) && old(attempts[id].phase) == SecondFrame) ==>
        attempts == old(attempts) && latency.samples == old(latency.samples) && canvas == old(canvas) && sample == None
      ensures Open(old(attempts[id])) && old(attempts[id].phase) == SecondFrame ==>
        canvas == (if canvasPresent then image else old(canvas)) &&
        (if canvasPresent && hasContext && pixels.Some? then
          attempts == old(attempts)[id := old(attempts[id]).(phase := Settling)] &&
          latency.samples == old(latency.samples) &&
          sample == Some(RedSum(pixels.value, SampleLimit(|pixels.value|)))
        else
          attempts == old(attempts)[id := old(attempts[id]).(phase := Finished, ends := old(attempts[id].ends) + 1)] &&
          latency.samples == old(latency.samples) + [now - old(attempts[id].start)] &&
          sample == None)
    {
      sample := None;
      if !(Open(attempts[id]) && attempts[id].phase == SecondFrame) {
        return;
      }
      if !canvasPresent {
        Finish(id, now);
        return;
      }
      canvas := image;
      if !hasContext || pixels.None? {
        Finish(id, now);
        return;
      }
      var sum := SumSampled(pixels.value);
      sample := Some(sum);
      attempts := attempts[id := attempts[id].(phase := Settling)];
    }

    /** The 15 ms delay after drawing: `end()` unless cancelled meanwhile. */
    method OnSettled(id: nat, now: Millis)
      requires Valid() && id < |attempts|
      modifies this, latency
      ensures Valid() && |attempts| == |old(attempts)| && canvas == old(canvas)
      ensures Open(old(attempts[id])) && old(attempts[id].phase) == Settling ==>
        attempts == old(attempts)[id := old(attempts[id]).(phase := Finished, ends := old(attempts[id].ends) + 1)] &&
        latency.samples == old(latency.samples) + [now - old(attempts[id].start)]
      ensures !(Open(old(attempts[id])) && old(attempts[id].phase) == Settling) ==>
        attempts == old(attempts) && latency.samples == old(latency.samples)
    {
      if Open(attempts[id]) && attempts[id].phase == Settling {
        Finish(id, now);
      }
    }

    /** Unmount: the attempt in flight is cancelled and the URL hook revokes its
        URL, so none of the hook's URLs stays live. */
    method Unmount()
      requires Valid()
      modifies this, urlHook, urlHook.effect, registry
      ensures forall i :: 0 <= i < |attempts| ==> attempts[i].cancelled
      ensures |attempts| == |old(attempts)|
      ensures forall u :: u in urlHook.mine ==> u !in registry.live
    {
      CancelLatest();
      urlHook.Unmount();
    }
  }

  /** A cancelled attempt never ends again: every event for it leaves the
      latency samples and the attempt as they were. */
  method CancelledAttemptIsSilent(r: Renderer, id: nat, now: Millis, image: Size, pixels: seq<byte>)
    requires r.Valid() && id < |r.attempts| && r.attempts[id].cancelled
    modifies r, r.latency
    ensures r.latency.samples == old(r.latency.samples) && r.attempts == old(r.attempts)
  {
    r.OnTimeout(id, now);
    r.OnLoad(id);
    r.OnError(id, now);
    r.OnDelay(id);
    r.OnFirstFrame(id);
    var sample := r.OnSecondFrame(id, now, true, true, image, Some(pixels));
    r.OnSettled(id, now);
  }
}
