/** The bounded sample window both metric trackers keep:
    `setX(prev => [...prev.slice(-99), x])`. */
module Window {
  /** Most samples a tracker keeps. */
  const Capacity: nat := 100

  /** The last `n` elements of `s` (all of `s` when it is shorter). */
  function Last<T>(s: seq<T>, n: nat): (r: seq<T>)
    ensures |r| == if |s| <= n then |s| else n
  {
    if |s| <= n then s else s[|s| - n..]
  }

  /** `[...prev.slice(-99), x]`. */
  function Append<T>(prev: seq<T>, x: T): seq<T>
  {
    prev[(if |prev| > Capacity - 1 then |prev| - (Capacity - 1) else 0)..] + [x]
  }

  /** Appending keeps exactly the 100 most recent values of everything appended:
      the window never exceeds 100 entries, the new value is last, and when the
      window was full the oldest entry is the one evicted while the others keep
      their order. */
  lemma AppendIsLast<T>(prev: seq<T>, x: T)
    ensures Append(prev, x) == Last(prev + [x], Capacity)
    ensures |Append(prev, x)| <= Capacity && Append(prev, x)[|Append(prev, x)| - 1] == x
    ensures |prev| < Capacity ==> Append(prev, x) == prev + [x]
    ensures |prev| == Capacity ==> Append(prev, x) == prev[1..] + [x]
  {
    var r := Append(prev, x);
    if |prev| > Capacity - 1 {
      assert (prev + [x])[|prev + [x]| - Capacity..] == prev[|prev| - (Capacity - 1)..] + [x];
    }
  }

  /** A window of the last 100 values is updated by `Append` into the window of
      the last 100 values after one more. */
  lemma {:induction false} AppendToLast<T>(all: seq<T>, x: T)
    ensures Append(Last(all, Capacity), x) == Last(all + [x], Capacity)
  {
    AppendIsLast(Last(all, Capacity), x);
    if |all| > Capacity {
      var w := Last(all, Capacity);
      assert Last(w + [x], Capacity) == w[1..] + [x];
      assert Last(all + [x], Capacity) == all[|all| - Capacity + 1..] + [x];
      assert w[1..] == all[|all| - Capacity + 1..];
    }
  }
}

/** `useImageLatencyTracker`: `start()` stamps the clock, `end()` appends
    `now - start` to a window of the last 100 latencies. There is no pairing of
    `start` with `end` and no time-based suppression. */
module ImageLatencyTracker {
  import opened Js
  import Window

  class Tracker {
    /** `startRef.current`; 0 until the first `start()`. */
    var startRef: Millis
    /** The `latencies` state. */
    var latencies: seq<int>
    /** Which array `latencies` holds: every `setLatencies` builds a new one,
        so this counts the updates (0 for the initial `[]`). */
    var version: nat
    /** Every latency recorded so far. */
    ghost var samples: seq<int>

    ghost predicate Valid()
      reads this
    {
      latencies == Window.Last(samples, Window.Capacity)
    }

    constructor ()
      ensures Valid() && samples == []
      ensures startRef == 0 && latencies == [] && version == 0
    {
      startRef := 0;
      latencies := [];
      version := 0;
      samples := [];
    }

    /** `start()`: overwrites the stamp; nothing is recorded. */
    method Start(now: Millis)
      modifies this
      ensures startRef == now
      ensures latencies == old(latencies) && version == old(version) && samples == old(samples)
    {
      startRef := now;
    }

    /** `end()`: records `now - startRef`, measured from 0 if `start()` never ran.
        The stamp is kept, so a second `end()` measures from the same origin. */
    method End(now: Millis)
      requires Valid()
      modifies this
      ensures Valid()
      ensures startRef == old(startRef)
      ensures samples == old(samples) + [now - old(startRef)]
      ensures latencies == Window.Append(old(latencies), now - old(startRef))
      ensures version == old(version) + 1
    {
      Window.AppendToLast(samples, now - startRef);
      latencies := Window.Append(latencies, now - startRef);
      version := version + 1;
      samples := samples + [now - startRef];
    }
  }
}

/** `useImageSizeTracker`: `addSize(x)` appends `x` to a window of the last 100
    sizes unless `x` equals the last value it accepted. */
module ImageSizeTracker {
  import opened Js
  import Window

  /** No two neighbouring values are equal. */
  ghost predicate NoRepeats(s: seq<real>)
  {
    forall i :: 0 < i < |s| ==> s[i] != s[i - 1]
  }

  class Tracker {
    /** The `sizes` state. */
    var sizes: seq<real>
    /** Which array `sizes` holds: each accepted value makes a new one. */
    var version: nat
    /** `prevSizeRef.current`: the last accepted value, `null` at first. */
    var prevSize: Option<real>
    /** Every value accepted so far. */
    ghost var accepted: seq<real>

    ghost predicate Valid()
      reads this
    {
      sizes == Window.Last(accepted, Window.Capacity) &&
      NoRepeats(accepted) &&
      (accepted == [] ==> prevSize == None) &&
      (accepted != [] ==> prevSize == Some(accepted[|accepted| - 1]))
    }

    constructor ()
      ensures Valid() && accepted == []
      ensures sizes == [] && prevSize == None && version == 0
    {
      sizes := [];
      version := 0;
      prevSize := None;
      accepted := [];
    }

    /** `addSize(size)`. The comparison is with the last ACCEPTED value only, so
        10, 20, 10 records three entries. */
    method AddSize(size: real)
      requires Valid()
      modifies this
      ensures Valid()
      ensures old(prevSize) != Some(size) ==>
        sizes == Window.Append(old(sizes), size) && prevSize == Some(size) &&
        accepted == old(accepted) + [size] && version == old(version) + 1
      ensures old(prevSize) == Some(size) ==>
        sizes == old(sizes) && prevSize == old(prevSize) && accepted == old(accepted) && version == old(version)
    {
      if prevSize != Some(size) {
        Window.AppendToLast(accepted, size);
        sizes := Window.Append(sizes, size);
        version := version + 1;
        prevSize := Some(size);
        accepted := accepted + [size];
      }
    }
  }
}
