/** `useThrottle(callback, delay)`: the returned function runs the callback
    only when at least `delay` ms have passed since the last call it let
    through. */
module Throttle {
  import opened Js

  class Throttled<A> {
    const delay: Millis
    /** `lastCallRef.current`: 0 until the first call that runs. */
    var lastCall: Millis
    /** The arguments of every call that ran the callback, in order. */
    var invoked: seq<A>
    /** The times of those calls. */
    ghost var times: seq<Millis>

    /** The runs are `delay` apart, the first one no earlier than `delay`, and
        the stamp is the time of the last run. */
    ghost predicate Valid()
      reads this
    {
      |times| == |invoked| &&
      (times == [] ==> lastCall == 0) &&
      (times != [] ==> lastCall == times[|times| - 1] && times[0] >= delay) &&
      (forall i :: 0 < i < |times| ==> times[i] - times[i - 1] >= delay)
    }

    constructor (delay: Millis)
      ensures Valid() && this.delay == delay && lastCall == 0 && invoked == [] && times == []
    {
      this.delay := delay;
      lastCall := 0;
      invoked := [];
      times := [];
    }

    /** A call at `now`. A suppressed call does not move the stamp, so it does
        not extend the window. */
    method Call(args: A, now: Millis) returns (ran: bool)
      requires Valid()
      modifies this
      ensures Valid()
      ensures ran <==> now - old(lastCall) >= delay
      ensures ran ==> invoked == old(invoked) + [args] && lastCall == now && times == old(times) + [now]
      ensures !ran ==> invoked == old(invoked) && lastCall == old(lastCall) && times == old(times)
    {
      ran := now - lastCall >= delay;
      if ran {
        invoked := invoked + [args];
        lastCall := now;
        times := times + [now];
      }
    }
  }
}

/** `useDebounce(callback, delay)`: every call cancels the pending timer and
    arms a new one `delay` ms later with its own arguments. */
module Debounce {
  import opened Js

  /** A timer armed by a call: the arguments it will pass and when it is due. */
  datatype Scheduled<A> = Scheduled(args: A, due: Millis)

  class Debounced<A> {
    const delay: Millis
    /** `timeoutRef.current`: the id of the last armed timer. It is not
        cleared when that timer fires. */
    var timeoutRef: Option<nat>
    /** The timers that are armed and have neither fired nor been cleared. */
    var pending: map<nat, Scheduled<A>>
    /** The next id `setTimeout` hands out; ids start at 1, so they are truthy. */
    var nextTimer: nat
    /** The arguments the callback ran with, in order. */
    var invoked: seq<A>

    /** At most one timer is armed, and it is the one the ref names. */
    ghost predicate Valid()
      reads this
    {
      nextTimer >= 1 &&
      (forall id :: id in pending ==> timeoutRef == Some(id)) &&
      (timeoutRef.Some? ==> 1 <= timeoutRef.value < nextTimer)
    }

    constructor (delay: Millis)
      ensures Valid() && this.delay == delay && timeoutRef == None && pending == map[] && invoked == []
    {
      this.delay := delay;
      timeoutRef := None;
      pending := map[];
      nextTimer := 1;
      invoked := [];
    }

    /** A call at `now`: afterwards exactly one timer is armed, carrying this
        call's arguments. */
    method Call(args: A, now: Millis)
      requires Valid()
      modifies this
      ensures Valid()
      ensures pending == map[old(nextTimer) := Scheduled(args, now + delay)]
      ensures timeoutRef == Some(old(nextTimer)) && invoked == old(invoked)
    {
      if timeoutRef.Some? {
        pending := pending - {timeoutRef.value};
      }
      var id := nextTimer;
      nextTimer := nextTimer + 1;
      pending := pending[id := Scheduled(args, now + delay)];
      timeoutRef := Some(id);
      assert forall t :: t in pending ==> t == id;
    }

    /** Timer `id` fires and runs the callback with its arguments. There is no
        unmount cleanup, so this happens whether or not the component is still
        mounted. */
    method Fire(id: nat)
      requires Valid() && id in pending
      modifies this
      ensures Valid() && pending == map[] && timeoutRef == old(timeoutRef)
      ensures invoked == old(invoked) + [old(pending[id].args)]
    {
      invoked := invoked + [pending[id].args];
      pending := pending - {id};
      assert forall t :: t in pending ==> false;
    }
  }

  /** A burst of three calls followed by the timer gives one run, with the last
      call's arguments. */
  method BurstRunsOnce<A>(delay: Millis, first: A, second: A, last: A) returns (d: Debounced<A>)
    ensures d.invoked == [last] && d.pending == map[]
  {
    d := new Debounced(delay);
    d.Call(first, 0);
    d.Call(second, 1);
    d.Call(last, 2);
    var id := d.timeoutRef.value;
    d.Fire(id);
  }
}

/** `useFrameStats()`: a per-second interval turns the frame counter into `fps`,
    `totalFrames` and `droppedFrames`; `dropRate` is derived from the last two. */
module FrameStats {
  /** `Math.max(expected - received, 0)`. */
  function Shortfall(expected: int, received: nat): (n: nat)
    ensures n + received >= expected
    ensures n > 0 ==> n + received == expected
  {
    if expected > received then expected - received else 0
  }

  /** `dropRate`: the share of dropped frames among all frames, in percent. */
  function DropRate(totalFrames: nat, droppedFrames: nat): (r: real)
    ensures 0.0 <= r <= 100.0
    ensures totalFrames + droppedFrames == 0 ==> r == 0.0
    ensures totalFrames + droppedFrames > 0 ==> r * (totalFrames + droppedFrames) as real == droppedFrames as real * 100.0
  {
    if totalFrames + droppedFrames > 0 then
      droppedFrames as real / (totalFrames + droppedFrames) as real * 100.0
    else 0.0
  }

  class Stats {
    var fps: nat
    var totalFrames: nat
    var droppedFrames: nat
    /** `frameCount.current`: frames counted in the current second. */
    var frameCount: nat
    /** The `fps` the interval callback closed over: its value at the first
        render, since the effect has empty dependencies. */
    const capturedFps: nat

    constructor ()
      ensures fps == 0 && totalFrames == 0 && droppedFrames == 0 && frameCount == 0 && capturedFps == 0
    {
      fps, totalFrames, droppedFrames, frameCount := 0, 0, 0, 0;
      capturedFps := 0;
    }

    /** `countFrame()`. */
    method CountFrame()
      modifies this
      ensures frameCount == old(frameCount) + 1
      ensures fps == old(fps) && totalFrames == old(totalFrames) && droppedFrames == old(droppedFrames)
    {
      frameCount := frameCount + 1;
    }

    /** The 1000 ms tick as written: the shortfall is measured against the
        captured `fps`, which is 0, so no drop is ever counted. */
    method Tick()
      requires capturedFps == 0
      modifies this
      ensures fps == old(frameCount) && frameCount == 0
      ensures totalFrames == old(totalFrames) + old(frameCount)
      ensures droppedFrames == old(droppedFrames)
    {
      var received := frameCount;
      var dropped := Shortfall(capturedFps, received);
      fps := received;
      droppedFrames := droppedFrames + dropped;
      totalFrames := totalFrames + received;
      frameCount := 0;
    }

    /** The tick as intended: the shortfall against the previous second's rate
        is added to the dropped frames. */
    method TickWithCurrentFps()
      modifies this
      ensures fps == old(frameCount) && frameCount == 0
      ensures totalFrames == old(totalFrames) + old(frameCount)
      ensures droppedFrames == old(droppedFrames) + Shortfall(old(fps), old(frameCount))
      ensures old(frameCount) < old(fps) ==> droppedFrames == old(droppedFrames) + old(fps) - old(frameCount)
    {
      var received := frameCount;
      var dropped := Shortfall(fps, received);
      fps := received;
      droppedFrames := droppedFrames + dropped;
      totalFrames := totalFrames + received;
      frameCount := 0;
    }

    /** `count` calls of `countFrame()`. */
    method CountFrames(count: nat)
      modifies this
      ensures frameCount == old(frameCount) + count
      ensures fps == old(fps) && totalFrames == old(totalFrames) && droppedFrames == old(droppedFrames)
    {
      var i := 0;
      while i < count
        invariant 0 <= i <= count
        invariant frameCount == old(frameCount) + i
        invariant fps == old(fps) && totalFrames == old(totalFrames) && droppedFrames == old(droppedFrames)
      {
        CountFrame();
        i := i + 1;
      }
    }
  }

  /** A second with `full` frames followed by a second with fewer: the tick as
      written still reports no dropped frame, the intended one reports the
      difference. */
  method SlowSecondGoesUncounted(full: nat, fewer: nat) returns (asWritten: Stats, intended: Stats)
    requires fewer < full
    ensures asWritten.droppedFrames == 0 && asWritten.fps == fewer
    ensures intended.droppedFrames == full - fewer && intended.fps == fewer
  {
    asWritten := new Stats();
    asWritten.CountFrames(full);
    asWritten.Tick();
    asWritten.CountFrames(fewer);
    asWritten.Tick();
    intended := new Stats();
    intended.CountFrames(full);
    intended.TickWithCurrentFps();
    intended.CountFrames(fewer);
    intended.TickWithCurrentFps();
  }
}

/** `useDroppedFrames()`: frames later than one 60 Hz interval after the
    previous frame count the whole intervals missed. Times are in hundredths of
    a millisecond, so the interval of 16.67 ms is 1667. */
module DroppedFrames {
  import opened Js

  const FrameInterval: int := 1667

  /** `Math.floor((current - (last + 16.67)) / 16.67)` for a late frame, 0
      otherwise: the number of whole intervals that fit in the lateness. */
  function MissedFrames(last: int, current: int): (n: nat)
    ensures current <= last + FrameInterval ==> n == 0
    ensures current > last + FrameInterval ==>
      n * FrameInterval <= current - (last + FrameInterval) < (n + 1) * FrameInterval
  {
    if current > last + FrameInterval then (current - (last + FrameInterval)) / FrameInterval else 0
  }

  class Counter {
    var droppedFrames: nat
    /** `lastFrameTime.current`: `None` before the first frame. */
    var lastFrameTime: Option<int>

    constructor ()
      ensures droppedFrames == 0 && lastFrameTime == None
    {
      droppedFrames := 0;
      lastFrameTime := None;
    }

    /** `markFrame(currentTime)`: the first frame only records its time; every
        frame becomes the new reference, even one earlier than the last. */
    method MarkFrame(currentTime: int)
      modifies this
      ensures lastFrameTime == Some(currentTime)
      ensures old(lastFrameTime).None? ==> droppedFrames == old(droppedFrames)
      ensures old(lastFrameTime).Some? ==>
        droppedFrames == old(droppedFrames) + MissedFrames(old(lastFrameTime).value, currentTime)
    {
      if lastFrameTime.Some? {
        var expectedNext := lastFrameTime.value + FrameInterval;
        if currentTime > expectedNext {
          droppedFrames := droppedFrames + (currentTime - expectedNext) / FrameInterval;
        }
      }
      lastFrameTime := Some(currentTime);
    }
  }
}

/** `useFps()`: an animation-frame loop counts frames and publishes the count
    once at least 1000 ms have passed since the window started. */
module Fps {
  import opened Js

  const WindowLength: Millis := 1000

  class Meter {
    var fps: nat
    /** `frameCount.current`. */
    var frameCount: nat
    /** `lastTime.current`: the start of the current window. */
    var lastTime: Millis
    /** When the meter was created (the first render's `performance.now()`). */
    ghost const origin: Millis
    /** The times at which `fps` was published. */
    ghost var published: seq<Millis>

    /** Publications are at least a window apart, the first a window after the
        meter was created, and the window starts at the last one. */
    ghost predicate Valid()
      reads this
    {
      (published == [] ==> lastTime == origin) &&
      (published != [] ==> lastTime == published[|published| - 1] && published[0] - origin >= WindowLength) &&
      (forall i :: 0 < i < |published| ==> published[i] - published[i - 1] >= WindowLength)
    }

    constructor (now: Millis)
      ensures Valid() && fps == 0 && frameCount == 0 && lastTime == now && origin == now && published == []
    {
      fps, frameCount, lastTime := 0, 0, now;
      origin := now;
      published := [];
    }

    /** One animation frame at `now`. */
    method Update(now: Millis)
      requires Valid()
      modifies this
      ensures Valid()
      ensures now - old(lastTime) >= WindowLength ==>
        fps == old(frameCount) + 1 && frameCount == 0 && lastTime == now && published == old(published) + [now]
      ensures now - old(lastTime) < WindowLength ==>
        fps == old(fps) && frameCount == old(frameCount) + 1 && lastTime == old(lastTime) && published == old(published)
    {
      frameCount := frameCount + 1;
      if now - lastTime >= WindowLength {
        fps := frameCount;
        frameCount := 0;
        lastTime := now;
        published := published + [now];
      }
    }
  }
}

/** `useTotalFrames()`: a ref and a state counter, both bumped by `markFrame`. */
module TotalFrames {
  class Counter {
    var totalFrames: nat
    var frameCountRef: nat

    ghost predicate Valid()
      reads this
    {
      totalFrames == frameCountRef
    }

    constructor ()
      ensures Valid() && totalFrames == 0 && frameCountRef == 0
    {
      totalFrames, frameCountRef := 0, 0;
    }

    method MarkFrame()
      requires Valid()
      modifies this
      ensures Valid()
      ensures totalFrames == old(totalFrames) + 1 && frameCountRef == old(frameCountRef) + 1
    {
      frameCountRef := frameCountRef + 1;
      totalFrames := totalFrames + 1;
    }
  }
}

/** `useElapsedTime()`: `start()` records the wall-clock start once; from then
    on a 1 s interval publishes the whole seconds elapsed. */
module ElapsedTime {
  import opened Js

  /** `Math.floor(elapsed / 1000)`. */
  function WholeSeconds(elapsed: int): (s: int)
    ensures s * 1000 <= elapsed < (s + 1) * 1000
  {
    elapsed / 1000
  }

  class Timer {
    var elapsedSec: int
    var started: bool
    /** `startTimeRef.current`. */
    var startTime: Option<Millis>
    /** The interval of the `[started]` effect is running. */
    var intervalArmed: bool

    ghost predicate Valid()
      reads this
    {
      (started <==> startTime.Some?) && (intervalArmed <==> started)
    }

    constructor ()
      ensures Valid() && elapsedSec == 0 && !started && startTime == None && !intervalArmed
    {
      elapsedSec, started, startTime, intervalArmed := 0, false, None, false;
    }

    /** `start()` and the commit it causes: only the first call sets the start
        time and arms the interval. */
    method Start(now: Millis)
      requires Valid()
      modifies this
      ensures Valid() && started && elapsedSec == old(elapsedSec)
      ensures !old(started) ==> startTime == Some(now)
      ensures old(started) ==> startTime == old(startTime)
    {
      if !started {
        startTime := Some(now);
        started := true;
        intervalArmed := true;
      }
    }

    /** The interval fires at `now`; before `start()` no interval runs. */
    method Tick(now: Millis)
      requires Valid()
      modifies this
      ensures Valid() && started == old(started) && startTime == old(startTime) && intervalArmed == old(intervalArmed)
      ensures old(started) ==> elapsedSec == WholeSeconds(now - startTime.value)
      ensures !old(started) ==> elapsedSec == old(elapsedSec)
    {
      if intervalArmed {
        elapsedSec := (now - startTime.value) / 1000;
      }
    }
  }
}

/** `useLatency()`: end-to-end latency from a frame's server timestamp. */
module Latency {
  import opened Js

  /** Timestamps below 10^12 are read as seconds since the epoch. */
  const SecondsThreshold: real := 1000000000000.0

  /** Epoch seconds of 9 September 2001, the first 10-digit seconds timestamp. */
  const FirstTenDigitSeconds: real := 1000000000.0

  /** The timestamp in milliseconds: the value is either kept or scaled by
      1000, and any timestamp of a date since September 2001, in seconds or in
      milliseconds, comes out as a 13-digit millisecond timestamp. */
  function TimestampMs(timestamp: real): (ms: real)
    ensures ms == timestamp || ms == timestamp * 1000.0
    ensures timestamp >= FirstTenDigitSeconds ==> ms >= SecondsThreshold
  {
    if timestamp < SecondsThreshold then timestamp * 1000.0 else timestamp
  }

  /** A date since September 2001 gives the same milliseconds whether the
      frame carries it in seconds or in milliseconds. */
  lemma SameInstantEitherUnit(seconds: real)
    requires FirstTenDigitSeconds <= seconds < SecondsThreshold
    ensures TimestampMs(seconds) == TimestampMs(seconds * 1000.0) == seconds * 1000.0
  {
  }

  class Hook {
    /** `latency` in seconds; `None` until the first calculation. */
    var latency: Option<real>

    constructor ()
      ensures latency == None
    {
      latency := None;
    }

    /** `calculateLatency(timestamp, renderTimeSec)` with `Date.now()` = `nowEpoch`.
        The render time cancels out: the result is the time since the frame's
        timestamp, in seconds. */
    method CalculateLatency(timestamp: real, renderTimeSec: real, nowEpoch: real)
      modifies this
      ensures latency == Some((nowEpoch - TimestampMs(timestamp)) / 1000.0)
    {
      var renderStartEpoch := nowEpoch - renderTimeSec * 1000.0;
      var timestampMs := if timestamp < SecondsThreshold then timestamp * 1000.0 else timestamp;
      var latencyMs := renderTimeSec * 1000.0 - (timestampMs - renderStartEpoch);
      latency := Some(latencyMs / 1000.0);
    }
  }
}

/** `useLatencyCalculator()`: receipt-to-render latency in seconds. */
module LatencyCalculator {
  import opened Js

  class Hook {
    var latencySec: Option<real>

    constructor ()
      ensures latencySec == None
    {
      latencySec := None;
    }

    /** Overwrites the value with the difference in seconds; a render before
        receipt gives a negative latency. */
    method CalculateLatency(receivedTime: real, renderTime: real)
      modifies this
      ensures latencySec.Some? && latencySec.value * 1000.0 == renderTime - receivedTime
      ensures latencySec.value < 0.0 <==> renderTime < receivedTime
    {
      var latency := renderTime - receivedTime;
      latencySec := Some(latency / 1000.0);
    }
  }
}

/** `useRenderTime()`: a millisecond reading stored in seconds. */
module RenderTime {
  import opened Js

  class Hook {
    var renderTime: Option<real>

    constructor ()
      ensures renderTime == None
    {
      renderTime := None;
    }

    /** Overwrites the value with `performanceNow / 1000`, independent of the
        previous one. */
    method UpdateRenderTime(performanceNow: real)
      modifies this
      ensures renderTime.Some? && renderTime.value * 1000.0 == performanceNow
      ensures renderTime.value == 0.0 <==> performanceNow == 0.0
    {
      renderTime := Some(performanceNow / 1000.0);
    }
  }

  /** The metrics view lists the render time only when it is truthy, so a
      stored 0 reads as absent. */
  predicate Shown(renderTime: Option<real>)
  {
    renderTime.Some? && renderTime.value != 0.0
  }
}

/** `useCpuLoadEstimate()`: per animation frame, busy time over elapsed time.
    The busy time is reset to 0 each frame and then incremented by exactly the
    elapsed time, so the estimate is always 100 %. */
module CpuLoad {
  /** A JavaScript number that is a percentage or `NaN` (from `0 / 0`). */
  datatype Load = Percent(value: real) | NotANumber

  class Estimator {
    var load: Load
    /** `lastTimeRef.current`. */
    var lastTime: real
    /** `busyTimeRef.current`. */
    var busyTime: real

    ghost predicate Valid()
      reads this
    {
      busyTime == 0.0 && (load.Percent? ==> 0.0 <= load.value <= 100.0)
    }

    constructor (now: real)
      ensures Valid() && load == Percent(0.0) && lastTime == now
    {
      load := Percent(0.0);
      lastTime := now;
      busyTime := 0.0;
    }

    /** `measure()` at `now`. */
    method Measure(now: real)
      requires Valid()
      modifies this
      ensures Valid() && lastTime == now
      ensures now != old(lastTime) ==> load == Percent(100.0)
      ensures now == old(lastTime) ==> load == NotANumber
    {
      var elapsed := now - lastTime;
      busyTime := busyTime + elapsed;
      lastTime := now;
      if elapsed == 0.0 {
        load := NotANumber;
      } else {
        var ratio := busyTime / elapsed * 100.0;
        assert busyTime / elapsed == 1.0;
        load := Percent(if ratio < 100.0 then ratio else 100.0);
      }
      busyTime := 0.0;
    }
  }
}

/** `calculateAverage(values)`: the mean rounded to two decimal places. */
module Average {
  /** `values.reduce((acc, val) => acc + val, 0)`. */
  function Sum(values: seq<real>): real
  {
    if values == [] then 0.0 else Sum(values[..|values| - 1]) + values[|values| - 1]
  }

  /** `Math.round(x)`: the nearest integer, halves rounded up. */
  function Round(x: real): (n: int)
    ensures n as real - 0.5 <= x < n as real + 0.5
  {
    (x + 0.5).Floor
  }

  function Mean(values: seq<real>): real
    requires values != []
  {
    Sum(values) / |values| as real
  }

  /** The result is a whole number of hundredths within half a hundredth of
      the mean, and 0 for an empty list. */
  function CalculateAverage(values: seq<real>): (r: real)
    ensures values == [] ==> r == 0.0
    ensures (r * 100.0).Floor as real == r * 100.0
    ensures values != [] ==> -0.005 < r - Mean(values) <= 0.005
  {
    if values == [] then 0.0 else Round(Sum(values) / |values| as real * 100.0) as real / 100.0
  }

  /** Taking out any one element takes its value out of the sum. */
  lemma {:induction false} SumRemove(s: seq<real>, j: nat)
    requires j < |s|
    ensures Sum(s) == Sum(s[..j] + s[j + 1..]) + s[j]
  {
    var n := |s| - 1;
    if j < n {
      SumRemove(s[..n], j);
      assert s[..n][..j] + s[..n][j + 1..] == (s[..j] + s[j + 1..])[..n - 1];
      assert (s[..j] + s[j + 1..])[n - 1] == s[n];
    } else {
      assert s[..j] + s[j + 1..] == s[..n];
    }
  }

  /** The sum does not depend on the order of the values. */
  lemma {:induction false} SumPermutation(a: seq<real>, b: seq<real>)
    requires multiset(a) == multiset(b)
    ensures Sum(a) == Sum(b)
    decreases |a|
  {
    if a != [] {
      var n := |a| - 1;
      var x := a[n];
      assert x in multiset(b);
      var j :| 0 <= j < |b| && b[j] == x;
      SumRemove(b, j);
      var rest := b[..j] + b[j + 1..];
      assert b == b[..j] + [b[j]] + b[j + 1..];
      assert a == a[..n] + [x];
      calc {
        multiset(a[..n]) + multiset{x};
        multiset(a);
        multiset(b);
        multiset(b[..j]) + multiset{x} + multiset(b[j + 1..]);
        multiset(rest) + multiset{x};
      }
      assert multiset(a[..n]) == multiset(a[..n]) + multiset{x} - multiset{x};
      assert multiset(rest) == multiset(rest) + multiset{x} - multiset{x};
      SumPermutation(a[..n], rest);
    } else {
      assert |b| == |multiset(b)| == 0;
    }
  }

  /** Permuting the list does not change the average. */
  lemma AveragePermutation(a: seq<real>, b: seq<real>)
    requires multiset(a) == multiset(b)
    ensures CalculateAverage(a) == CalculateAverage(b)
  {
    SumPermutation(a, b);
    assert |a| == |multiset(a)| == |multiset(b)| == |b|;
  }
}
