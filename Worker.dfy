/** The messages exchanged between the main thread and the offscreen-canvas
    worker. Each side is modelled by its own module; this one fixes the shapes
    both agree on (and the one field where they do not). */
module WorkerProtocol {
  import opened Js

  /** The `imageData` of a render request, by the `typeof`/`instanceof` test
      the worker applies to it. */
  datatype ImageData = TextImage(text: string) | BufferImage(bytes: seq<byte>) | OtherImage

  /** A message to the worker, by its `type`. `InitCanvas.transferred` is
      false when the message carries no canvas object. */
  datatype Command =
    | InitCanvas(transferred: bool, width: nat, height: nat)
    | RenderImage(imageData: ImageData, mimeType: Option<string>)
    | Cleanup
    | Unknown(kind: string)

  datatype Timing = Timing(blobCreation: int, imageLoad: int, rendering: int, total: int)

  datatype Dimensions = Dimensions(width: nat, height: nat)

  datatype ProcessingResult = ProcessingResult(avgBrightness: real, processingTime: int, pixelsAnalyzed: nat)

  /** A message from the worker, as the worker builds it. */
  datatype Reply =
    | WorkerReady
    | CanvasReady(success: bool, error: Option<string>)
    | RenderComplete(timing: Timing, dimensions: Dimensions)
    | RenderError(reason: string)
    | ProcessingComplete(result: ProcessingResult)
    | CleanupComplete

  /** What the main thread's handler takes out of `event.data` with
      `const { type, data, timing, error }`. `dataSuccess` is whether
      `data?.success` is truthy. */
  datatype Message = Message(kind: string, dataSuccess: bool, timing: Option<Timing>, error: Option<string>)

  const CanvasReadyType: string := "CANVAS_READY"
  const RenderCompleteType: string := "RENDER_COMPLETE"
  const RenderErrorType: string := "RENDER_ERROR"

  /** The fields the handler destructures from a worker reply. The worker puts
      `success` at the top level of `CANVAS_READY` and sends no `data` field in
      any reply, so `data?.success` is never truthy. */
  function Fields(r: Reply): (m: Message)
    ensures !m.dataSuccess
    ensures r.CanvasReady? <==> m.kind == CanvasReadyType
    ensures r.RenderComplete? <==> m.kind == RenderCompleteType
    ensures r.RenderError? <==> m.kind == RenderErrorType
    ensures m.timing.Some? <==> r.RenderComplete?
  {
    match r
    case WorkerReady => Message("WORKER_READY", false, None, None)
    case CanvasReady(_, e) => Message(CanvasReadyType, false, None, e)
    case RenderComplete(t, _) => Message(RenderCompleteType, false, Some(t), None)
    case RenderError(e) => Message(RenderErrorType, false, None, Some(e))
    case ProcessingComplete(_) => Message("PROCESSING_COMPLETE", false, None, None)
    case CleanupComplete => Message("CLEANUP_COMPLETE", false, None, None)
  }
}

/** The worker script: a canvas slot, the render pipeline (decode, Blob,
    `createImageBitmap`, draw, pixel pass, report) and cleanup. Everything it
    posts, and every bitmap it closes, goes into one ordered trace. */
module OffscreenWorker {
  import opened Js
  import opened Blobs
  import Base64
  import opened WorkerProtocol

  const NotInitialized: string := "Canvas not initialized"
  const UnsupportedType: string := "Unsupported image data type"
  const DefaultMimeType: string := "image/jpeg"
  /** The `TypeError` thrown by `initOffscreenCanvas` when the message carries no canvas. */
  const NoCanvasMessage: string := "Cannot read properties of undefined (reading 'getContext')"
  /** The `TypeError` thrown in the bitmap callback when cleanup has nulled the canvas. */
  const CanvasGoneMessage: string := "Cannot set properties of null (setting 'width')"
  /** `Math.min(data.length, 40000)`: at most 10000 RGBA pixels are sampled. */
  const MaxSampleBytes: nat := 40000

  /** The decoded image `createImageBitmap` resolves with. */
  datatype Bitmap = Bitmap(width: nat, height: nat)

  /** A render waiting for `createImageBitmap`: its clock readings and its Blob. */
  datatype Job = Job(startTime: Millis, blobTime: Millis, blob: Blob)

  datatype Effect = Posted(reply: Reply) | ClosedBitmap(job: nat)

  /** `new Blob([...], { type: mimeType })` for a render request: a string is
      Base64-decoded and copied, an `ArrayBuffer` is wrapped as is, anything
      else is rejected. */
  function BlobFor(imageData: ImageData, mimeType: Option<string>): (r: Result<Blob>)
    ensures r.Ok? ==> r.value.mimeType == (if mimeType.Some? then mimeType.value else DefaultMimeType)
    ensures imageData.BufferImage? ==> r.Ok? && r.value.bytes == imageData.bytes
    ensures imageData.OtherImage? ==> r == Err(UnsupportedType)
    ensures imageData.TextImage? ==> (r.Ok? <==> Base64.DecodeBytes(imageData.text).Ok?)
  {
    var mime := if mimeType.Some? then mimeType.value else DefaultMimeType;
    match imageData
    case TextImage(s) =>
      (match Base64.DecodeBytes(s)
       case Err(m) => Err(m)
       case Ok(bytes) => Ok(Blob(bytes, mime)))
    case BufferImage(bytes) => Ok(Blob(bytes, mime))
    case OtherImage => Err(UnsupportedType)
  }

  /** The four durations of `RENDER_COMPLETE`, from the four clock readings. */
  function TimingOf(job: Job, loadTime: Millis, endTime: Millis): (t: Timing)
    ensures t.blobCreation + t.imageLoad + t.rendering == t.total
    ensures t.total == endTime - job.startTime
  {
    Timing(job.blobTime - job.startTime, loadTime - job.blobTime, endTime - loadTime, endTime - job.startTime)
  }

  // ---------------------------------------------------------------------------
  // The brightness pass of `performImageProcessing`

  /** The brightness `(r + g + b) / 3` of pixel `k` of RGBA data. */
  function PixelBrightness(data: seq<byte>, k: nat): (b: real)
    requires 4 * k + 3 <= |data|
    ensures 0.0 <= b <= 255.0
  {
    (data[4 * k] as int + data[4 * k + 1] as int + data[4 * k + 2] as int) as real / 3.0
  }

  /** The summed brightness of the first `n` pixels. */
  function BrightnessSum(data: seq<byte>, n: nat): real
    requires 4 * n <= |data|
  {
    if n == 0 then 0.0 else BrightnessSum(data, n - 1) + PixelBrightness(data, n - 1)
  }

  lemma {:induction false} BrightnessSumBounds(data: seq<byte>, n: nat)
    requires 4 * n <= |data|
    ensures 0.0 <= BrightnessSum(data, n) <= 255.0 * n as real
  {
    if n > 0 {
      BrightnessSumBounds(data, n - 1);
    }
  }

  function SampleSize(data: seq<byte>): (n: nat)
    ensures n <= |data| && n <= MaxSampleBytes
    ensures n == |data| || n == MaxSampleBytes
  {
    if |data| < MaxSampleBytes then |data| else MaxSampleBytes
  }

  /** The reported mean brightness over the sampled pixels. */
  function AverageBrightness(data: seq<byte>): (avg: real)
    requires 4 <= |data| && |data| % 4 == 0
    ensures 0.0 <= avg <= 255.0
  {
    var n := SampleSize(data) / 4;
    BrightnessSumBounds(data, n);
    BrightnessSum(data, n) / n as real
  }

  /** The sampling loop: it steps over the first `min(length, 40000)` bytes four
      at a time and sums the pixel brightnesses. */
  method SumBrightness(data: seq<byte>) returns (total: real, sampleSize: nat)
    requires |data| % 4 == 0
    ensures sampleSize == SampleSize(data) && sampleSize % 4 == 0
    ensures total == BrightnessSum(data, sampleSize / 4)
  {
    total := 0.0;
    sampleSize := if |data| < MaxSampleBytes then |data| else MaxSampleBytes;
    var i := 0;
    while i < sampleSize
      invariant i % 4 == 0 && i <= sampleSize
      invariant total == BrightnessSum(data, i / 4)
    {
      total := total + (data[i] as int + data[i + 1] as int + data[i + 2] as int) as real / 3.0;
      i := i + 4;
    }
  }

  /** `performImageProcessing` on the pixels `getImageData` returned for a
      non-empty canvas: the `PROCESSING_COMPLETE` result. */
  method PerformImageProcessing(pixels: seq<byte>, processingTime: int) returns (result: ProcessingResult)
    requires 4 <= |pixels| && |pixels| % 4 == 0
    ensures result.pixelsAnalyzed == SampleSize(pixels) / 4 && result.pixelsAnalyzed <= 10000
    ensures result.avgBrightness == AverageBrightness(pixels)
    ensures 0.0 <= result.avgBrightness <= 255.0
    ensures result.processingTime == processingTime
  {
    var total, sampleSize := SumBrightness(pixels);
    result := ProcessingResult(total / (sampleSize / 4) as real, processingTime, sampleSize / 4);
  }

  // ---------------------------------------------------------------------------
  // The worker

  class Worker {
    /** `offscreenCanvas` with its size; `None` when null or undefined. The 2D
        context is set exactly when the canvas is, as far as any check of the
        script can tell, so it is not kept separately. */
    var canvas: Option<Size>
    /** Renders waiting for their `createImageBitmap` promise, by job number. */
    var jobs: map<nat, Job>
    var nextJob: nat
    /** Every `postMessage` and `imageBitmap.close()`, in order. */
    var trace: seq<Effect>

    ghost predicate Valid()
      reads this
    {
      forall id :: id in jobs ==> id < nextJob
    }

    /** The script's last statement announces the worker. */
    constructor ()
      ensures Valid()
      ensures canvas == None && jobs == map[] && trace == [Posted(WorkerReady)]
    {
      canvas := None;
      jobs := map[];
      nextJob := 0;
      trace := [Posted(WorkerReady)];
    }

    /** `self.onmessage`: dispatch on the message type. `startTime` and
        `blobTime` are the clock readings a render request takes. */
    method OnMessage(cmd: Command, startTime: Millis, blobTime: Millis)
      requires Valid()
      modifies this
      ensures Valid()
      // an unknown type is only logged
      ensures cmd.Unknown? ==> canvas == old(canvas) && jobs == old(jobs) && trace == old(trace)
      ensures cmd.InitCanvas? && cmd.transferred ==>
        canvas == Some(Size(cmd.width, cmd.height)) && jobs == old(jobs) &&
        trace == old(trace) + [Posted(CanvasReady(true, None))]
      ensures cmd.InitCanvas? && !cmd.transferred ==>
        canvas == None && jobs == old(jobs) &&
        trace == old(trace) + [Posted(CanvasReady(false, Some(NoCanvasMessage)))]
      // cleanup always answers, initialised or not
      ensures cmd.Cleanup? ==>
        canvas == None && jobs == old(jobs) && trace == old(trace) + [Posted(CleanupComplete)]
      ensures cmd.RenderImage? && old(canvas).None? ==>
        canvas == old(canvas) && jobs == old(jobs) && trace == old(trace) + [Posted(RenderError(NotInitialized))]
      ensures cmd.RenderImage? && old(canvas).Some? && BlobFor(cmd.imageData, cmd.mimeType).Err? ==>
        canvas == old(canvas) && jobs == old(jobs) &&
        trace == old(trace) + [Posted(RenderError(BlobFor(cmd.imageData, cmd.mimeType).message))]
      // a render that got its Blob waits for the bitmap, posting nothing yet
      ensures cmd.RenderImage? && old(canvas).Some? && BlobFor(cmd.imageData, cmd.mimeType).Ok? ==>
        canvas == old(canvas) && trace == old(trace) && nextJob == old(nextJob) + 1 &&
        jobs == old(jobs)[old(nextJob) := Job(startTime, blobTime, BlobFor(cmd.imageData, cmd.mimeType).value)]
    {
      match cmd {
        case InitCanvas(transferred, width, height) =>
          if transferred {
            canvas := Some(Size(width, height));
            trace := trace + [Posted(CanvasReady(true, None))];
          } else {
            canvas := None;
            trace := trace + [Posted(CanvasReady(false, Some(NoCanvasMessage)))];
          }
        case RenderImage(imageData, mimeType) =>
          if canvas.None? {
            trace := trace + [Posted(RenderError(NotInitialized))];
            return;
          }
          var mime := if mimeType.Some? then mimeType.value else DefaultMimeType;
          var blob: Blob;
          match imageData {
            case TextImage(s) =>
              var decoded := Base64.Atob(s);
              if decoded.Err? {
                trace := trace + [Posted(RenderError(decoded.message))];
                return;
              }
              var bytes := Base64.CopyCharCodes(decoded.value);
              blob := Blob(bytes[..], mime);
            case BufferImage(bytes) =>
              blob := Blob(bytes, mime);
            case OtherImage =>
              trace := trace + [Posted(RenderError(UnsupportedType))];
              return;
          }
          jobs := jobs[nextJob := Job(startTime, blobTime, blob)];
          nextJob := nextJob + 1;
        case Cleanup =>
          canvas := None;
          trace := trace + [Posted(CleanupComplete)];
        case Unknown(_) =>
      }
    }

    /** The `createImageBitmap` promise of job `id` settles. On success the
        callback resizes the canvas to the bitmap, draws it, runs the pixel pass
        on `pixels` (what `getImageData` returns for the new size), closes the
        bitmap and reports. A rejection, or a canvas that cleanup removed in the
        meantime, gives one `RENDER_ERROR` instead. */
    method OnBitmap(id: nat, outcome: Result<Bitmap>, loadTime: Millis, endTime: Millis,
                    pixels: seq<byte>, processingTime: int)
      requires Valid() && id in jobs
      requires |pixels| % 4 == 0
      requires outcome.Ok? ==> (|pixels| == 0 <==> outcome.value.width == 0 || outcome.value.height == 0)
      modifies this
      ensures Valid() && jobs == old(jobs) - {id} && nextJob == old(nextJob)
      ensures outcome.Err? ==>
        canvas == old(canvas) && trace == old(trace) + [Posted(RenderError(outcome.message))]
      ensures outcome.Ok? && old(canvas).None? ==>
        canvas == old(canvas) && trace == old(trace) + [Posted(RenderError(CanvasGoneMessage))]
      // the pixel report first (none for an empty canvas, where `getImageData`
      // throws), then the bitmap is closed, then the completion with the bitmap's size
      ensures outcome.Ok? && old(canvas).Some? ==>
        canvas == Some(Size(outcome.value.width, outcome.value.height)) &&
        trace == old(trace) +
          (if |pixels| > 0
           then [Posted(ProcessingComplete(ProcessingResult(AverageBrightness(pixels), processingTime, SampleSize(pixels) / 4)))]
           else []) +
          [ClosedBitmap(id),
           Posted(RenderComplete(TimingOf(old(jobs)[id], loadTime, endTime),
                                 Dimensions(outcome.value.width, outcome.value.height)))]
    {
      var job := jobs[id];
      jobs := jobs - {id};
      if outcome.Err? {
        trace := trace + [Posted(RenderError(outcome.message))];
        return;
      }
      if canvas.None? {
        trace := trace + [Posted(RenderError(CanvasGoneMessage))];
        return;
      }
      var bitmap := outcome.value;
      canvas := Some(Size(bitmap.width, bitmap.height));
      var report := [];
      if |pixels| > 0 {
        var result := PerformImageProcessing(pixels, processingTime);
        report := [Posted(ProcessingComplete(result))];
      }
      trace := trace + report + [ClosedBitmap(id), Posted(RenderComplete(TimingOf(job, loadTime, endTime), Dimensions(bitmap.width, bitmap.height)))];
    }
  }
}
