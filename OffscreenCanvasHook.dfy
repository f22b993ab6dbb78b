/** `useOffscreenCanvas()`: the main-thread side of the worker render channel.
    One effect (empty dependencies) arms a 200 ms timer that checks support,
    creates the worker, waits 50 ms, transfers the canvas and posts
    `INIT_CANVAS`; `renderImage` posts one request at a time under a 5 s
    timeout; worker messages update the hook's state. */
module OffscreenCanvasHook {
  import opened Js
  import opened WorkerProtocol

  const InitDelay: Millis := 200
  const SettleDelay: Millis := 50
  const RenderTimeout: Millis := 5000
  const CanvasWidth: nat := 200
  const CanvasHeight: nat := 150

  /** The marker every initialisation error carries. */
  const InitFailureMarker: string := "초기화 실패"
  const NoTransferMessage: string := "OffscreenCanvas is not supported in this browser"
  const NoWorkerMessage: string := "WebWorker is not supported in this browser"
  const NotMountedMessage: string := "Canvas is not mounted in DOM"
  const TransferFailedPrefix: string := "Canvas control transfer failed: "
  const CanvasInitFailed: string := "Canvas " + InitFailureMarker
  const RenderFailed: string := "렌더링 오류 발생"
  const RenderTimedOut: string := "렌더링 타임아웃 (5초)"
  const WorkerFailed: string := "WebWorker 오류 발생"

  /** The error state the outer `catch` of the initialiser sets: `초기화 실패: ${message}`. */
  function InitFailure(message: string): (e: string)
    ensures |e| == |InitFailureMarker| + 2 + |message|
    ensures e[|e| - |message|..] == message
  {
    InitFailureMarker + ": " + message
  }

  /** Every initialisation failure, and the handler's own `Canvas 초기화 실패`,
      contains the marker. */
  lemma InitErrorsCarryMarker(message: string)
    ensures Includes(InitFailure(message), InitFailureMarker)
    ensures Includes(CanvasInitFailed, InitFailureMarker)
  {
    IncludesPrefix(InitFailureMarker, ": " + message);
    assert InitFailure(message) == InitFailureMarker + (": " + message);
    assert OccursAt(CanvasInitFailed, InitFailureMarker, 7);
  }

  /** The error `RENDER_ERROR` sets: the worker's message, or the default when
      it is missing or empty (`error || "렌더링 오류 발생"`). */
  function RenderErrorText(error: Option<string>): (e: string)
    ensures e != ""
    ensures error.Some? && error.value != "" ==> e == error.value
  {
    if error.Some? && error.value != "" then error.value else RenderFailed
  }

  class Hook {
    /** The component is mounted (its effects have not been torn down). */
    var mounted: bool
    /** The init effect got past its early return and registered its cleanup. */
    var cleanupRegistered: bool
    /** The 200 ms init timer is armed. */
    var initTimerPending: bool
    /** The initialiser is in its 50 ms wait before the transfer. */
    var settlePending: bool
    /** `workerRef.current` is set. */
    var worker: bool
    /** The worker was terminated by the cleanup. */
    var terminated: bool
    /** Every message posted to the worker, in order. */
    var posted: seq<Command>
    var isReady: bool
    var isProcessing: bool
    var lastRenderTime: Option<Millis>
    var processingStats: Option<Timing>
    /** Declared by the hook; no handler ever sets it. */
    var imageProcessingResult: Option<ProcessingResult>
    var error: Option<string>
    /** Render timeouts that are armed and have neither fired nor been cleared. */
    var pendingTimeouts: set<nat>
    /** `_currentTimeoutId` on the worker object: the last armed render timeout. */
    var currentTimeoutId: Option<nat>
    var nextTimer: nat

    ghost predicate Valid()
      reads this
    {
      (isReady ==> worker) && (worker ==> mounted && !terminated) &&
      (initTimerPending ==> mounted && !worker && !terminated && !settlePending && posted == []) &&
      (settlePending ==> posted == [] && (mounted ==> worker)) &&
      (!cleanupRegistered ==> !worker && !initTimerPending && !settlePending && !isReady) &&
      (forall t :: t in pendingTimeouts ==> t < nextTimer) &&
      (currentTimeoutId.Some? ==> currentTimeoutId.value < nextTimer) &&
      // `INIT_CANVAS` is posted at most once, before every render request
      (isReady ==> |posted| > 0) &&
      (|posted| > 0 ==> posted[0] == InitCanvas(true, CanvasWidth, CanvasHeight)) &&
      (forall i :: 0 < i < |posted| ==> posted[i].RenderImage?) &&
      imageProcessingResult == None
    }

    /** The first render and its commit. The init effect returns early, arming
        nothing, when the canvas element is not attached. */
    constructor (canvasAttached: bool)
      ensures Valid() && mounted && !worker && !terminated && posted == []
      ensures !isReady && !isProcessing && lastRenderTime == None && processingStats == None && error == None
      ensures pendingTimeouts == {} && currentTimeoutId == None
      ensures initTimerPending == canvasAttached && cleanupRegistered == canvasAttached && !settlePending
    {
      mounted, worker, terminated := true, false, false;
      posted := [];
      isReady, isProcessing := false, false;
      lastRenderTime, processingStats, imageProcessingResult, error := None, None, None, None;
      pendingTimeouts, currentTimeoutId, nextTimer := {}, None, 0;
      initTimerPending, cleanupRegistered, settlePending := canvasAttached, canvasAttached, false;
    }

    /** The 200 ms timer runs the initialiser up to its 50 ms wait. The checks
        come in the source's order; a missing worker API is found before any
        worker exists, a detached canvas after the worker was created. */
    method OnInitTimer(canvasPresent: bool, canTransfer: bool, hasWorkerApi: bool, inDocument: bool)
      requires Valid() && initTimerPending
      modifies this
      ensures Valid() && !initTimerPending
      ensures posted == old(posted) && isProcessing == old(isProcessing) && pendingTimeouts == old(pendingTimeouts)
      ensures mounted == old(mounted) && terminated == old(terminated) && lastRenderTime == old(lastRenderTime)
      ensures !canvasPresent ==> !worker && !settlePending && error == old(error) && isReady == old(isReady)
      ensures canvasPresent && !canTransfer ==>
        !worker && !settlePending && !isReady && error == Some(InitFailure(NoTransferMessage))
      ensures canvasPresent && canTransfer && !hasWorkerApi ==>
        !worker && !settlePending && !isReady && error == Some(InitFailure(NoWorkerMessage))
      ensures canvasPresent && canTransfer && hasWorkerApi && !inDocument ==>
        worker && !settlePending && !isReady &&
        error == Some(InitFailure(TransferFailedPrefix + NotMountedMessage))
      ensures canvasPresent && canTransfer && hasWorkerApi && inDocument ==>
        worker && settlePending && isReady == old(isReady) && error == old(error)
    {
      initTimerPending := false;
      if !canvasPresent {
        return;
      }
      if !canTransfer {
        error := Some(InitFailure(NoTransferMessage));
        isReady := false;
        return;
      }
      if !hasWorkerApi {
        error := Some(InitFailure(NoWorkerMessage));
        isReady := false;
        return;
      }
      worker := true;
      if !inDocument {
        error := Some(InitFailure(TransferFailedPrefix + NotMountedMessage));
        isReady := false;
        return;
      }
      settlePending := true;
    }

    /** The 50 ms wait ends: the canvas is transferred and `INIT_CANVAS` posted
        with the 200×150 canvas, then the channel is declared ready. A transfer
        that throws is reported under the init marker. After unmount the state
        setters have no effect. */
    method OnSettle(transferError: Option<string>)
      requires Valid() && settlePending
      modifies this
      ensures Valid() && !settlePending
      ensures isProcessing == old(isProcessing) && pendingTimeouts == old(pendingTimeouts) && worker == old(worker)
      ensures lastRenderTime == old(lastRenderTime) && processingStats == old(processingStats) && mounted == old(mounted)
      ensures !old(mounted) ==> posted == old(posted) && isReady == old(isReady) && error == old(error)
      ensures old(mounted) && transferError.Some? ==>
        posted == old(posted) && !isReady &&
        error == Some(InitFailure(TransferFailedPrefix + transferError.value))
      ensures old(mounted) && transferError.None? ==>
        posted == old(posted) + [InitCanvas(true, CanvasWidth, CanvasHeight)] && |posted| == 1 &&
        isReady && error == None
    {
      settlePending := false;
      if !mounted {
        return;
      }
      if transferError.Some? {
        error := Some(InitFailure(TransferFailedPrefix + transferError.value));
        isReady := false;
        return;
      }
      posted := posted + [InitCanvas(true, CanvasWidth, CanvasHeight)];
      isReady := true;
      error := None;
    }

    /** `renderImage(imageData, mimeType)`. Returns whether the request was sent. */
    method RenderImage(imageData: ImageData, mimeType: string) returns (accepted: bool)
      requires Valid()
      modifies this
      ensures Valid()
      ensures accepted <==> old(worker) && old(isReady) && !old(isProcessing)
      // a rejected call changes nothing
      ensures !accepted ==>
        posted == old(posted) && isProcessing == old(isProcessing) && error == old(error) &&
        pendingTimeouts == old(pendingTimeouts) && currentTimeoutId == old(currentTimeoutId) &&
        nextTimer == old(nextTimer)
      // an accepted one posts exactly one request under one new timeout
      ensures accepted ==>
        isProcessing && error == None &&
        posted == old(posted) + [Command.RenderImage(imageData, Some(mimeType))] &&
        old(nextTimer) !in old(pendingTimeouts) &&
        pendingTimeouts == old(pendingTimeouts) + {old(nextTimer)} &&
        currentTimeoutId == Some(old(nextTimer))
      ensures isReady == old(isReady) && lastRenderTime == old(lastRenderTime) && worker == old(worker)
      ensures initTimerPending == old(initTimerPending)
    {
      if !worker || !isReady || isProcessing {
        return false;
      }
      isProcessing := true;
      error := None;
      var timeoutId := nextTimer;
      nextTimer := nextTimer + 1;
      pendingTimeouts := pendingTimeouts + {timeoutId};
      posted := posted + [Command.RenderImage(imageData, Some(mimeType))];
      currentTimeoutId := Some(timeoutId);
      accepted := true;
    }

    /** The clear in both completion branches: the timeout whose id is stored on
        the worker object is cancelled and the id forgotten. */
    method ClearCurrentTimeout()
      requires Valid()
      modifies this
      ensures Valid() && currentTimeoutId == None
      ensures old(currentTimeoutId).Some? ==> pendingTimeouts == old(pendingTimeouts) - {old(currentTimeoutId).value}
      ensures old(currentTimeoutId).None? ==> pendingTimeouts == old(pendingTimeouts)
      ensures isProcessing == old(isProcessing) && error == old(error) && isReady == old(isReady)
      ensures lastRenderTime == old(lastRenderTime) && processingStats == old(processingStats)
      ensures posted == old(posted) && worker == old(worker) && mounted == old(mounted)
    {
      if currentTimeoutId.Some? {
        pendingTimeouts := pendingTimeouts - {currentTimeoutId.value};
        currentTimeoutId := None;
      }
    }

    /** `worker.onmessage` with the fields of `event.data`, at clock reading `now`.
        A terminated worker delivers nothing. */
    method OnMessage(m: Message, now: Millis)
      requires Valid()
      modifies this
      ensures Valid()
      ensures posted == old(posted) && isReady == old(isReady) && worker == old(worker)
      ensures imageProcessingResult == None
      ensures !old(worker) ==>
        error == old(error) && isProcessing == old(isProcessing) && lastRenderTime == old(lastRenderTime) &&
        pendingTimeouts == old(pendingTimeouts)
      ensures old(worker) && m.kind == CanvasReadyType ==>
        error == (if m.dataSuccess then old(error) else Some(CanvasInitFailed)) &&
        isProcessing == old(isProcessing) && lastRenderTime == old(lastRenderTime) &&
        pendingTimeouts == old(pendingTimeouts)
      // both completions clear the stored timeout and the processing flag
      ensures old(worker) && (m.kind == RenderCompleteType || m.kind == RenderErrorType) ==>
        !isProcessing && currentTimeoutId == None &&
        pendingTimeouts == old(pendingTimeouts) - (if old(currentTimeoutId).Some? then {old(currentTimeoutId).value} else {})
      // only a completion sets the render time and the stats, whether or not its timeout already fired
      ensures old(worker) && m.kind == RenderCompleteType ==>
        lastRenderTime == Some(now) && error == old(error) &&
        processingStats == (if m.timing.Some? then m.timing else old(processingStats))
      // only an error sets the error
      ensures old(worker) && m.kind == RenderErrorType ==>
        lastRenderTime == old(lastRenderTime) && processingStats == old(processingStats) &&
        error == Some(RenderErrorText(m.error))
      // every other type, `PROCESSING_COMPLETE` included, is only logged
      ensures old(worker) && m.kind !in {CanvasReadyType, RenderCompleteType, RenderErrorType} ==>
        error == old(error) && isProcessing == old(isProcessing) && lastRenderTime == old(lastRenderTime) &&
        processingStats == old(processingStats) && pendingTimeouts == old(pendingTimeouts)
    {
      if !worker {
        return;
      }
      if m.kind == CanvasReadyType {
        if !m.dataSuccess {
          error := Some(CanvasInitFailed);
        }
      } else if m.kind == RenderCompleteType {
        ClearCurrentTimeout();
        isProcessing := false;
        lastRenderTime := Some(now);
        if m.timing.Some? {
          processingStats := m.timing;
        }
      } else if m.kind == RenderErrorType {
        ClearCurrentTimeout();
        isProcessing := false;
        error := Some(RenderErrorText(m.error));
      }
    }

    /** `worker.onerror`: it leaves any armed render timeout running. */
    method OnWorkerError()
      requires Valid()
      modifies this
      ensures Valid()
      ensures old(worker) ==> error == Some(WorkerFailed) && !isProcessing
      ensures !old(worker) ==> error == old(error) && isProcessing == old(isProcessing)
      ensures pendingTimeouts == old(pendingTimeouts) && currentTimeoutId == old(currentTimeoutId)
      ensures posted == old(posted) && isReady == old(isReady) && lastRenderTime == old(lastRenderTime)
    {
      if worker {
        error := Some(WorkerFailed);
        isProcessing := false;
      }
    }

    /** A render timeout fires: processing is released with the timeout error.
        The stored id is not cleared, and the request is not withdrawn. */
    method OnRenderTimeout(id: nat)
      requires Valid() && id in pendingTimeouts
      modifies this
      ensures Valid()
      ensures pendingTimeouts == old(pendingTimeouts) - {id} && currentTimeoutId == old(currentTimeoutId)
      ensures old(mounted) ==> !isProcessing && error == Some(RenderTimedOut)
      ensures !old(mounted) ==> isProcessing == old(isProcessing) && error == old(error)
      ensures posted == old(posted) && isReady == old(isReady) && lastRenderTime == old(lastRenderTime)
    {
      pendingTimeouts := pendingTimeouts - {id};
      if mounted {
        isProcessing := false;
        error := Some(RenderTimedOut);
      }
    }

    /** Unmount runs the init effect's cleanup, if it registered one: the init
        timer is cleared, the worker terminated and forgotten, and the channel
        marked not ready. Armed render timeouts are left running. */
    method Teardown()
      requires Valid()
      modifies this
      ensures Valid() && !mounted && !worker && !isReady && !initTimerPending
      ensures terminated == (old(terminated) || old(worker))
      ensures pendingTimeouts == old(pendingTimeouts) && currentTimeoutId == old(currentTimeoutId)
      ensures posted == old(posted) && error == old(error) && lastRenderTime == old(lastRenderTime)
    {
      if cleanupRegistered {
        initTimerPending := false;
        if worker {
          terminated := true;
          worker := false;
        }
        isReady := false;
      }
      mounted := false;
    }
  }
}
