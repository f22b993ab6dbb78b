/** The hook and the worker composed: what the main thread sees when the
    messages the worker actually posts reach the hook's handler. */
module RenderChannel {
  import opened Js
  import opened WorkerProtocol
  import OffscreenWorker
  import opened OffscreenCanvasHook

  /** Brings a fresh hook through a successful initialisation and hands the
      posted `INIT_CANVAS` to a fresh worker. */
  method InitChannel(now: Millis) returns (hook: Hook, worker: OffscreenWorker.Worker)
    ensures fresh(hook) && fresh(worker) && hook.Valid() && worker.Valid()
    ensures hook.mounted && hook.worker && hook.isReady && !hook.isProcessing && hook.error == None
    ensures hook.pendingTimeouts == {} && hook.lastRenderTime == None
    ensures hook.posted == [InitCanvas(true, CanvasWidth, CanvasHeight)]
    ensures worker.canvas == Some(Size(CanvasWidth, CanvasHeight))
    ensures worker.trace == [OffscreenWorker.Posted(WorkerReady), OffscreenWorker.Posted(CanvasReady(true, None))]
  {
    hook := new Hook(true);
    hook.OnInitTimer(true, true, true, true);
    hook.OnSettle(None);
    worker := new OffscreenWorker.Worker();
    worker.OnMessage(hook.posted[0], now, now);
  }

  /** The worker answers a successful `INIT_CANVAS` with `success` at the top
      level, the handler looks for `data.success`, so a channel that
      initialised correctly reports `Canvas 초기화 실패` while staying ready. */
  method ReadyReplyReadsAsFailure(now: Millis) returns (hook: Hook)
    ensures hook.isReady && hook.error == Some(CanvasInitFailed)
    ensures Includes(hook.error.value, InitFailureMarker)
  {
    var worker;
    hook, worker := InitChannel(now);
    var reply := worker.trace[|worker.trace| - 1].reply;
    hook.OnMessage(Fields(reply), now);
    InitErrorsCarryMarker("");
  }

  /** The handler for `CANVAS_READY` as evidently intended: it reads the
      `success` flag where the worker puts it. */
  function ReadyError(r: Reply): (e: Option<string>)
    requires r.CanvasReady?
    ensures e.None? <==> r.success
    ensures e.Some? ==> Includes(e.value, InitFailureMarker)
  {
    InitErrorsCarryMarker("");
    if r.success then None else Some(CanvasInitFailed)
  }

  /** A render that times out is not forgotten: when its completion arrives
      afterwards, it still sets `lastRenderTime`, next to the timeout error. */
  method LateCompletionAfterTimeout(now: Millis, timing: Timing) returns (hook: Hook)
    ensures hook.lastRenderTime == Some(now + RenderTimeout + 1)
    ensures hook.error == Some(RenderTimedOut)
    ensures !hook.isProcessing && hook.pendingTimeouts == {}
  {
    var worker;
    hook, worker := InitChannel(now);
    var accepted := hook.RenderImage(TextImage(""), "image/jpeg");
    var id := hook.currentTimeoutId.value;
    hook.OnRenderTimeout(id);
    hook.OnMessage(Fields(RenderComplete(timing, Dimensions(1, 1))), now + RenderTimeout + 1);
  }
}
