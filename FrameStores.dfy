/** The single-slot frame store that the Base64 socket receiver writes into
    (a zustand store in the source). It keeps only the latest admitted frame:
    a frame is dropped when it equals the stored one or arrives less than 50 ms
    after the last admitted one. */
module Base64ImageStore {
  import opened Js

  /** Minimum spacing of admitted updates, in milliseconds. */
  const MinInterval: int := 50

  datatype Update = Update(payload: string, time: Millis)

  /** The admission rule of `setImageData`. */
  predicate Admits(stored: Option<string>, lastUpdate: Millis, data: string, now: Millis)
  {
    stored != Some(data) && now - lastUpdate >= MinInterval
  }

  /** Updates admitted since the store was created or last cleared: the first at
      50 ms or later (the clock is compared against `lastUpdate = 0`) and each
      at least 50 ms after the one before. */
  ghost predicate Spaced(h: seq<Update>)
  {
    (h != [] ==> h[0].time >= MinInterval) &&
    forall i :: 0 < i < |h| ==> h[i].time >= h[i - 1].time + MinInterval
  }

  /** No admitted payload repeats the one admitted just before it: a frame
      equal to the stored one is rejected until a different one is admitted. */
  ghost predicate Alternating(h: seq<Update>)
  {
    forall i :: 0 < i < |h| ==> h[i].payload != h[i - 1].payload
  }

  class Store {
    var imageData: Option<string>
    var lastUpdate: Millis
    /** The updates admitted since creation or the last `clearImageData`. */
    ghost var admitted: seq<Update>

    /** The slot holds the most recent admitted payload, nothing is queued,
        admitted updates are spaced by at least 50 ms and never repeat the
        payload admitted just before. */
    ghost predicate Valid()
      reads this
    {
      Spaced(admitted) && Alternating(admitted) &&
      (admitted == [] ==> imageData == None && lastUpdate == 0) &&
      (admitted != [] ==>
        imageData == Some(admitted[|admitted| - 1].payload) &&
        lastUpdate == admitted[|admitted| - 1].time)
    }

    constructor ()
      ensures Valid() && admitted == []
      ensures imageData == None && lastUpdate == 0
    {
      imageData := None;
      lastUpdate := 0;
      admitted := [];
    }

    /** `setImageData(data)` called when the clock reads `now`. */
    method SetImageData(data: string, now: Millis)
      requires Valid()
      modifies this
      ensures Valid()
      ensures Admits(old(imageData), old(lastUpdate), data, now) ==>
        imageData == Some(data) && lastUpdate == now &&
        admitted == old(admitted) + [Update(data, now)]
      ensures !Admits(old(imageData), old(lastUpdate), data, now) ==>
        imageData == old(imageData) && lastUpdate == old(lastUpdate) && admitted == old(admitted)
    {
      if imageData == Some(data) || now - lastUpdate < MinInterval {
        return;
      }
      imageData, lastUpdate := Some(data), now;
      admitted := admitted + [Update(data, now)];
    }

    /** `clearImageData()`: back to the initial state. Since `lastUpdate` returns
        to 0, the next frame at 50 ms or later is admitted even if it comes
        sooner than 50 ms after the last frame admitted before the clear. */
    method ClearImageData()
      modifies this
      ensures Valid() && admitted == []
      ensures imageData == None && lastUpdate == 0
    {
      imageData, lastUpdate := None, 0;
      admitted := [];
    }
  }

  /** The store is a rate limit: admitted updates are at least 50 ms apart
      pairwise in proportion to how many lie between them, so by the time of
      the n-th admitted frame at least 50·n ms have passed since the store was
      created or cleared. */
  lemma {:induction false} AdmittedRate(h: seq<Update>)
    requires Spaced(h)
    ensures forall i, j :: 0 <= i <= j < |h| ==> h[j].time - h[i].time >= MinInterval * (j - i)
    ensures h != [] ==> h[|h| - 1].time >= MinInterval * |h|
  {
    if |h| > 1 {
      var p := h[..|h| - 1];
      assert forall i :: 0 <= i < |p| ==> p[i] == h[i];
      AdmittedRate(p);
    }
  }
}

/** The single-slot store that the binary socket receiver writes into. Only the
    50 ms spacing applies: there is no equality test, so even the very same
    buffer is admitted again once 50 ms have passed. */
module BinaryStore {
  import opened Js
  import opened Blobs

  const MinInterval: int := 50

  datatype Update = Update(buffer: ArrayBuffer, time: Millis)

  /** The admission rule of `setBinaryData`: the payload plays no part. */
  predicate Admits(lastUpdate: Millis, now: Millis)
  {
    now - lastUpdate >= MinInterval
  }

  ghost predicate Spaced(h: seq<Update>)
  {
    (h != [] ==> h[0].time >= MinInterval) &&
    forall i :: 0 < i < |h| ==> h[i].time >= h[i - 1].time + MinInterval
  }

  class Store {
    var binary: Option<ArrayBuffer>
    var lastUpdate: Millis
    ghost var admitted: seq<Update>

    ghost predicate Valid()
      reads this
    {
      Spaced(admitted) &&
      (admitted == [] ==> binary == None && lastUpdate == 0) &&
      (admitted != [] ==>
        binary == Some(admitted[|admitted| - 1].buffer) &&
        lastUpdate == admitted[|admitted| - 1].time)
    }

    constructor ()
      ensures Valid() && admitted == []
      ensures binary == None && lastUpdate == 0
    {
      binary := None;
      lastUpdate := 0;
      admitted := [];
    }

    /** `setBinaryData(data)` called when the clock reads `now`. */
    method SetBinaryData(data: ArrayBuffer, now: Millis)
      requires Valid()
      modifies this
      ensures Valid()
      ensures Admits(old(lastUpdate), now) ==>
        binary == Some(data) && lastUpdate == now &&
        admitted == old(admitted) + [Update(data, now)]
      ensures !Admits(old(lastUpdate), now) ==>
        binary == old(binary) && lastUpdate == old(lastUpdate) && admitted == old(admitted)
    {
      if now - lastUpdate < MinInterval {
        return;
      }
      binary, lastUpdate := Some(data), now;
      admitted := admitted + [Update(data, now)];
    }

    /** `clearBinaryData()`. */
    method ClearBinaryData()
      modifies this
      ensures Valid() && admitted == []
      ensures binary == None && lastUpdate == 0
    {
      binary, lastUpdate := None, 0;
      admitted := [];
    }
  }

  /** The same rate limit as the Base64 store's: the n-th admitted buffer comes
      at least 50·n ms after the store was created or cleared. */
  lemma {:induction false} AdmittedRate(h: seq<Update>)
    requires Spaced(h)
    ensures forall i, j :: 0 <= i <= j < |h| ==> h[j].time - h[i].time >= MinInterval * (j - i)
    ensures h != [] ==> h[|h| - 1].time >= MinInterval * |h|
  {
    if |h| > 1 {
      var p := h[..|h| - 1];
      assert forall i :: 0 <= i < |p| ==> p[i] == h[i];
      AdmittedRate(p);
    }
  }
}
