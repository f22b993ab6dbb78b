/** Pieces every render component shares: the effects that forward a metric
    array to the parent, and the size in kilobytes it records per frame. */
module RendererParts {
  import opened Js
  import opened Blobs
  import ImageLatencyTracker
  import ImageSizeTracker
  import Window

  /** `payload.length / 1024`: the size the Base64 renderers record. */
  function TextKB(data: string): (kb: real)
    ensures kb >= 0.0
    ensures kb * 1024.0 == |data| as real
  {
    |data| as real / 1024.0
  }

  /** `payload.byteLength / 1024`: the size the binary renderers record. */
  function BufferKB(buffer: ArrayBuffer): (kb: real)
    ensures kb >= 0.0
    ensures kb * 1024.0 == buffer.ByteLength() as real
  {
    buffer.ByteLength() as real / 1024.0
  }

  /** The calls an array-forwarding effect has made after one more commit with
      the array `values`, whose identity is `id`: React compares the dependency
      by identity, so the effect runs whenever the array is a new one, even one
      equal in value to the last; it makes no call for an empty array in the
      variants that skip it. */
  function CallsAfter<T(==)>(seen: Option<nat>, calls: seq<seq<T>>, values: seq<T>, id: nat, onlyNonEmpty: bool): (r: seq<seq<T>>)
    ensures r == calls || r == calls + [values]
    ensures r != calls <==> seen != Some(id) && !(onlyNonEmpty && values == [])
  {
    if seen == Some(id) || (onlyNonEmpty && values == []) then calls else calls + [values]
  }

  /** `useEffect(() => { if (onUpdate) onUpdate(values) }, [values])`, with the
      parent's callback present. */
  class Forwarder<T(==)> {
    /** The `values.length > 0` guard of the size effects in the data-format renderers. */
    const onlyNonEmpty: bool
    /** Identity of the array the effect last ran with; `None` before the first commit. */
    var seen: Option<nat>
    /** The contents of that array. */
    ghost var seenValues: seq<T>
    /** Every array handed to the parent, in order. */
    var calls: seq<seq<T>>

    /** Without the guard the parent always holds the array last seen; with it
        the parent never receives an empty one. */
    ghost predicate Valid()
      reads this
    {
      (!onlyNonEmpty && seen.Some? ==> calls != [] && calls[|calls| - 1] == seenValues) &&
      (onlyNonEmpty ==> forall i :: 0 <= i < |calls| ==> calls[i] != [])
    }

    constructor (onlyNonEmpty: bool)
      ensures Valid() && this.onlyNonEmpty == onlyNonEmpty && seen == None && calls == []
    {
      this.onlyNonEmpty := onlyNonEmpty;
      seen := None;
      seenValues := [];
      calls := [];
    }

    /** A commit that renders the array `values`, whose identity is `id`. */
    method Commit(values: seq<T>, id: nat)
      requires Valid()
      modifies this
      ensures Valid() && seen == Some(id)
      ensures old(seen) != Some(id) ==> seenValues == values
      ensures old(seen) == Some(id) ==> seenValues == old(seenValues)
      ensures calls == CallsAfter(old(seen), old(calls), values, id, onlyNonEmpty)
    {
      if seen != Some(id) {
        if !(onlyNonEmpty && values == []) {
          calls := calls + [values];
        }
        seen := Some(id);
        seenValues := values;
      }
    }
  }

  /** A window that is full of equal samples stays equal in value after one
      more such sample, yet the tracker's `end()` makes a new array, so the
      forwarding effect still hands it to the parent. */
  lemma {:induction false} EqualWindowStillForwarded(calls: seq<seq<int>>, window: seq<int>, id: nat, x: int)
    requires |window| == Window.Capacity
    requires forall i :: 0 <= i < |window| ==> window[i] == x
    ensures Window.Append(window, x) == window
    ensures CallsAfter(Some(id), calls, Window.Append(window, x), id + 1, false) == calls + [window]
  {
    Window.AppendIsLast(window, x);
    var w := Window.Append(window, x);
    assert w == window[1..] + [x];
    assert forall i :: 0 <= i < |w| ==> w[i] == window[i];
  }

  /** The effects every image renderer runs on a commit, in declaration order:
      `start()` when a new frame arrived, forward the latency array rendered
      with, record the new frame's size, forward the size array rendered with.
      `newFrame` is the new frame's size, `None` when the frame effects are
      skipped. */
  method FrameEffects(latency: ImageLatencyTracker.Tracker, sizes: ImageSizeTracker.Tracker,
                      latencyForward: Forwarder<int>, sizeForward: Forwarder<real>,
                      newFrame: Option<real>, now: Millis)
    requires latency.Valid() && sizes.Valid() && latencyForward.Valid() && sizeForward.Valid()
    modifies latency, sizes, latencyForward, sizeForward
    ensures latency.Valid() && sizes.Valid() && latencyForward.Valid() && sizeForward.Valid()
    ensures latency.samples == old(latency.samples) && latency.latencies == old(latency.latencies)
    ensures latency.version == old(latency.version)
    ensures newFrame.Some? ==>
      latency.startRef == now && sizes.prevSize == Some(newFrame.value) &&
      sizes.accepted == old(sizes.accepted) + (if old(sizes.prevSize) == newFrame then [] else [newFrame.value]) &&
      sizes.version == old(sizes.version) + (if old(sizes.prevSize) == newFrame then 0 else 1)
    ensures newFrame.None? ==>
      latency.startRef == old(latency.startRef) && sizes.accepted == old(sizes.accepted) &&
      sizes.prevSize == old(sizes.prevSize) && sizes.version == old(sizes.version)
    ensures latencyForward.calls ==
      CallsAfter(old(latencyForward.seen), old(latencyForward.calls), old(latency.latencies), old(latency.version), latencyForward.onlyNonEmpty)
    ensures sizeForward.calls ==
      CallsAfter(old(sizeForward.seen), old(sizeForward.calls), old(sizes.sizes), old(sizes.version), sizeForward.onlyNonEmpty)
  {
    var renderedLatencies, renderedSizes := latency.latencies, sizes.sizes;
    var latenciesId, sizesId := latency.version, sizes.version;
    if newFrame.Some? {
      latency.Start(now);
    }
    latencyForward.Commit(renderedLatencies, latenciesId);
    if newFrame.Some? {
      sizes.AddSize(newFrame.value);
    }
    sizeForward.Commit(renderedSizes, sizesId);
  }
}
