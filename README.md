# socket-poc in Dafny

socket-poc is a React benchmark. It streams JPEG frames from two WebSocket
servers: one sends Base64 text and one sends binary `ArrayBuffer`s. It shows
each frame through five display strategies and times every one. This project
models the benchmark's core and proves properties of it:

- the two single-slot frame stores and their 50 ms admission rule;
- the latency and size trackers, each with a 100-entry window;
- Base64 decoding (`atob` and the char-code copy loop) and its round trip;
- the four object-URL hooks, over a model of the browser's blob URL store;
- the offscreen-canvas channel: the `useOffscreenCanvas` hook, the worker
  script, and the two composed;
- the five renderers: direct data URL, Base64 object URL, binary object URL,
  the two offscreen renderers, the two main-thread fallbacks, and the canvas
  object-URL renderer;
- the metric hooks: throttle and debounce, frame statistics, dropped frames,
  fps, total frames, elapsed time, the latency calculators, render time, CPU
  load, and the rounded average;
- the page: strategy toggling, which sockets are requested, routing of
  strategies to renderers, and which arrays reach the statistics panel.

## How React is modelled

- A hook or component whose refs and state change in place is a `class`.
  Each ref or state value is a field.
- A render followed by its commit is one method, usually `Commit(data, now)`.
  It runs the effects in declaration order. Each effect compares its
  dependencies with the ones it last ran with; `seen*` fields hold those.
  Strings and numbers compare by value. `ArrayBuffer`s compare by identity,
  because `ArrayBuffer` is a class. The latency and size arrays compare by
  identity too: each tracker has a `version` counter that goes up whenever
  its `setState` builds a new array, and the forwarding effects compare that
  counter, so a new array equal in value to the last one is still forwarded.
- Values a render captured (the latency and size arrays, the flags of the
  render guard) are read before any effect of that commit runs.
- Asynchronous callbacks are their own event methods: image `onload` and
  `onerror`, timers, animation frames, worker messages. Clock readings are
  parameters (`now`).
- `URL.createObjectURL` and `URL.revokeObjectURL` act on `Blobs.UrlRegistry`.
  It keeps the live URLs, the Blob behind every URL, and the log of every
  revoke call as ghost state.
- The main thread and the worker communicate through message values. The
  hook records what it posted. The worker records an ordered trace of what
  it posted and of every bitmap it closed.

## Model

| member | source | states |
|---|---|---|
| Base64ImageStore.Store.constructor | src/store/useBase64ImageStore.ts:11-13 | The store starts with no frame and `lastUpdate` 0. |
| Base64ImageStore.Store.SetImageData | src/store/useBase64ImageStore.ts:14-24 | An admitted call stores the payload and `now` and appends it to the admitted history. A rejected call changes nothing. `Valid` keeps admitted updates at least 50 ms apart, with the slot holding the latest one. No admitted payload repeats the one admitted just before it. |
| Base64ImageStore.AdmittedRate | src/store/useBase64ImageStore.ts:19-21 | The store is a rate limit. Admitted updates `j - i` apart in the history are at least `50·(j - i)` ms apart. The n-th admitted frame comes at least `50·n` ms after creation or the last clear. |
| Base64ImageStore.Store.ClearImageData | src/store/useBase64ImageStore.ts:25 | Both fields go back to their initial values, and the admitted history restarts. |
| BinaryStore.Store.constructor | src/store/useBinaryStore.ts:11-13 | The store starts with no buffer and `lastUpdate` 0. |
| BinaryStore.Store.SetBinaryData | src/store/useBinaryStore.ts:14-24 | Admission depends on the elapsed time alone, so the same buffer is admitted again after 50 ms. An admitted call stores the buffer and `now`. A rejected call changes nothing. Admitted updates stay 50 ms apart. |
| BinaryStore.AdmittedRate | src/store/useBinaryStore.ts:19-21 | The same rate limit for buffers: admitted updates `j - i` apart in the history are at least `50·(j - i)` ms apart, and the n-th comes at least `50·n` ms after creation or the last clear. |
| BinaryStore.Store.ClearBinaryData | src/store/useBinaryStore.ts:25 | Restores `null` and 0. |
| Window.Last | src/hooks/useImageLatencyTracker.ts:13 | The window has `n` elements, or all of them when the sequence is shorter. |
| Window.AppendIsLast | src/hooks/useImageLatencyTracker.ts:13 | `[...prev.slice(-99), x]` has at most 100 entries and ends in `x`. Below capacity it is `prev + [x]`. At capacity it drops the oldest entry and keeps the order of the others. |
| Window.AppendToLast | src/hooks/useImageSizeTracker.ts:9 | Appending to the window of everything recorded so far gives the window of everything recorded including `x`. |
| ImageLatencyTracker.Tracker.constructor | src/hooks/useImageLatencyTracker.ts:4-5 | The start stamp is 0 and no latency is recorded. |
| ImageLatencyTracker.Tracker.Start | src/hooks/useImageLatencyTracker.ts:7-9 | `start` overwrites the stamp and records nothing. Starts do not nest. |
| ImageLatencyTracker.Tracker.End | src/hooks/useImageLatencyTracker.ts:11-14 | `end` records `now - startRef` as the newest window entry and keeps the stamp. Two ends after one start record two samples from the same origin. Before any start, the sample is measured from 0. Every `end` makes a new array (the version goes up by one). |
| ImageSizeTracker.Tracker.constructor | src/hooks/useImageSizeTracker.ts:4-5 | No sizes are recorded and no previous size is set. |
| ImageSizeTracker.Tracker.AddSize | src/hooks/useImageSizeTracker.ts:7-12 | A value unequal to the last accepted one is appended to the window and becomes the previous size. An accepted value makes a new array (the version goes up by one). An equal value changes nothing. `Valid` keeps the accepted history free of neighbouring repeats, so 10, 20, 10 records three entries. |
| Base64.SextetOf | src/hooks/useBase64ToObjectURL.ts:16 | Only alphabet characters have a 6-bit value, and `=` has none. |
| Base64.SextetOfChar | src/hooks/useBase64ToObjectURL.ts:16 | Each alphabet character decodes to the value it encodes. |
| Base64.StripWhitespace | src/hooks/useBase64ToObjectURL.ts:16 | `atob` first drops ASCII whitespace. The result holds no whitespace, and a character occurs in it iff it occurs in the input and is not whitespace. The text never gets longer. |
| Base64.Sextets | src/hooks/useBase64ToObjectURL.ts:16 | Each character maps to its 6-bit value, or the whole text is rejected. |
| Base64.Latin1 | src/hooks/useBase64ToObjectURL.ts:16 | The binary string `atob` returns has one character per decoded byte. |
| Base64.EncodedLengthMod4 | src/hooks/useBase64ToObjectURL.ts:16 | An encoded frame never leaves a single 6-bit value over, the length the decoder rejects. |
| Base64.Atob | src/hooks/useBase64ToObjectURL.ts:16 | Every character of a string `atob` returns is below 256, so it is a binary string. |
| Base64.CopyCharCodes | src/hooks/useBase64ToObjectURL.ts:17-22 | The copy loop fills a fresh byte array of the string's length with byte `i` equal to char code `i`. |
| Base64.CharCodeBytes | src/hooks/useBase64ToObjectURL.ts:20-22 | The copy has one byte per character. |
| Base64.CharCodesOfLatin1 | src/hooks/useObjectURL.ts:9-15 | Copying the char codes of a decoded binary string gives back its bytes. |
| Base64.DecodeEncoded | public/offscreen-canvas-worker.js:68-72 | Decoding the 6-bit groups of the standard encoding gives back the bytes. |
| Base64.EncodeRoundTrip | src/hooks/useBase64ToObjectURL.ts:16 | `atob` of the padded standard Base64 text of any bytes succeeds and gives those bytes as a binary string. |
| Base64.DecodeBytesOfEncoded | src/hooks/useBase64ToObjectURL.ts:16-24 | Decode-and-copy of any encoded frame gives back exactly the frame's bytes. |
| Base64.StripPaddingOfEncoded | src/hooks/useBase64ToObjectURL.ts:16 | Stripping the padding of an encoded frame leaves exactly its 6-bit characters. |
| Base64.EncodedHasNoWhitespace | src/hooks/useBase64ToObjectURL.ts:16 | An encoded frame contains no character that the decoder skips. |
| Blobs.UrlRegistry.CreateObjectURL | src/hooks/useBinaryToObjectURL.ts:16-17 | Every created URL is new and live from then on, and it stands for the given Blob. |
| Blobs.UrlRegistry.RevokeObjectURL | src/hooks/useBase64ToObjectURL.ts:34 | The URL stops being live and the call is logged. Revoking a dead URL changes nothing else. |
| Blobs.UrlRegistry.constructor | src/hooks/useBase64ToObjectURL.ts:25 | The document starts with no blob URL. |
| RevokePreviousEffect.UrlEffect.Commit | src/hooks/useBase64ToObjectURL.ts:31-46 | When the URL changed, the old URL is revoked twice: once by the previous cleanup and once by the new run's check. Otherwise nothing is revoked. Afterwards `previousUrlRef` holds the current URL or null. |
| RevokePreviousEffect.UrlEffect.constructor | src/hooks/useBase64ToObjectURL.ts:7 | `previousUrlRef` starts null and the effect has not run. |
| RevokePreviousEffect.UrlEffect.Unmount | src/hooks/useBase64ToObjectURL.ts:41-45 | Unmount revokes the current URL once, and an undefined URL is never revoked. |
| Base64ToObjectUrl.Hook.Use | src/hooks/useBase64ToObjectURL.ts:10-46 | Unchanged arguments give the same URL and create nothing. A null or empty string gives `undefined` and creates no URL. Otherwise the hook creates one URL for the decoded bytes, or returns the `atob` error. A replaced URL is revoked twice. `Valid` keeps at most one URL of this hook live. |
| Base64ToObjectUrl.Hook.constructor | src/hooks/useBase64ToObjectURL.ts:7-10 | No memoised URL before the first render. |
| Base64ToObjectUrl.Hook.Unmount | src/hooks/useBase64ToObjectURL.ts:41-45 | After unmount, no URL this hook created is live. |
| BinaryToObjectUrl.Hook.Use | src/hooks/useBinaryToObjectURL.ts:10-38 | The memo keys on buffer identity, so an equal-bytes buffer gets a new URL. A null buffer gives `undefined`. The Blob wraps the buffer's bytes without a decode step. A replaced URL is revoked twice. |
| BinaryToObjectUrl.Hook.constructor | src/hooks/useBinaryToObjectURL.ts:7-10 | No memoised URL before the first render. |
| BinaryToObjectUrl.Hook.Unmount | src/hooks/useBinaryToObjectURL.ts:33-37 | After unmount, no URL this hook created is live. |
| ObjectUrlNoCache.BlobOf | src/hooks/useObjectURLNoCache.ts:16-30 | A string is Base64-decoded and a buffer is wrapped as is, both with the given MIME type. |
| ObjectUrlNoCache.EmptyTextGivesEmptyBlob | src/hooks/useObjectURLNoCache.ts:18-33 | There is no null guard: an empty string gives an empty Blob. |
| ObjectUrlNoCache.Hook.constructor | src/hooks/useObjectURLNoCache.ts:7-8 | No URL is published before the first effect runs. |
| ObjectUrlNoCache.Hook.Use | src/hooks/useObjectURLNoCache.ts:10-41 | A render returns the URL state from before its effect. Each effect run revokes the URL from the previous cleanup and the previous ref. It then creates exactly one URL and publishes it as both the state and the ref. A decoding error aborts the run after those revokes. |
| ObjectUrlNoCache.Hook.Cleanup | src/hooks/useObjectURLNoCache.ts:36-38 | The cleanup revokes the URL its run created. Afterwards no URL of the hook is live. |
| ObjectUrlNoCache.Hook.RunEffect | src/hooks/useObjectURLNoCache.ts:11-34 | The effect body revokes the previous URL before it creates a new one. It creates nothing when decoding throws. |
| ObjectUrlNoCache.Hook.Unmount | src/hooks/useObjectURLNoCache.ts:36-38 | After unmount, no URL created by the hook is live. |
| ObjectUrlCache.UrlCache.constructor | src/hooks/useObjectURL.ts:3 | The module-level cache starts empty. One cache is shared by every hook instance. |
| ObjectUrlCache.Hook.Use | src/hooks/useObjectURL.ts:5-33 | On a cache hit, nothing is decoded or created. On a miss, one URL is created and cached. Entries are never removed or changed. A change of key revokes the previous URL but leaves it in the cache. |
| ObjectUrlCache.Hook.constructor | src/hooks/useObjectURL.ts:6 | `urlRef` starts null and the effect has not run. |
| ObjectUrlCache.Hook.Lookup | src/hooks/useObjectURL.ts:8-22 | Only the first call for a key decodes and creates a URL, so `mimeType` matters only then. Later calls return the cached URL. |
| ObjectUrlCache.Hook.Unmount | src/hooks/useObjectURL.ts:25-31 | Unmount revokes the current URL and leaves the cache unchanged. |
| ObjectUrlCache.RevisitedKeyGetsRevokedUrl | src/hooks/useObjectURL.ts:22-31 | Rendering `a`, then `b`, then `a` returns the URL first created for `a`, which is no longer live. |
| WorkerProtocol.Fields | src/hooks/useOffscreenCanvas.ts:77 | The handler's `data?.success` is never truthy for any reply the worker sends. The message type is preserved, and `timing` is present only on `RENDER_COMPLETE`. |
| OffscreenWorker.BlobFor | public/offscreen-canvas-worker.js:59-83 | A string is Base64-decoded, an `ArrayBuffer` is wrapped as is, and anything else gives "Unsupported image data type". The MIME type defaults to `image/jpeg`. |
| OffscreenWorker.TimingOf | public/offscreen-canvas-worker.js:115-141 | blobCreation + imageLoad + rendering = total, and total is the end time minus the start time. |
| OffscreenWorker.PixelBrightness | public/offscreen-canvas-worker.js:185-188 | A pixel's brightness `(r + g + b) / 3` lies in [0, 255]. |
| OffscreenWorker.BrightnessSumBounds | public/offscreen-canvas-worker.js:184-189 | The summed brightness of `n` pixels lies in [0, 255n]. |
| OffscreenWorker.SampleSize | public/offscreen-canvas-worker.js:182 | The sample is `min(length, 40000)` bytes. |
| OffscreenWorker.AverageBrightness | public/offscreen-canvas-worker.js:191 | The reported mean brightness lies in [0, 255]. |
| OffscreenWorker.SumBrightness | public/offscreen-canvas-worker.js:181-189 | The loop visits the first `min(length, 40000)` bytes in steps of 4 and sums the pixel brightnesses. |
| OffscreenWorker.PerformImageProcessing | public/offscreen-canvas-worker.js:165-216 | `pixelsAnalyzed` is `min(length, 40000) / 4`, at most 10000. `avgBrightness` is the mean over those pixels. |
| OffscreenWorker.Worker.constructor | public/offscreen-canvas-worker.js:230-233 | The script starts with no canvas and announces `WORKER_READY`. |
| OffscreenWorker.Worker.OnMessage | public/offscreen-canvas-worker.js:2-83 | Messages are dispatched on type, and an unknown type gets no reply. `INIT_CANVAS` replies `CANVAS_READY` with a top-level `success`. `CLEANUP` always replies, even without a canvas. A render without a canvas gets "Canvas not initialized". A failed decode or an unsupported payload gets exactly one `RENDER_ERROR`. Otherwise the render waits for its bitmap and posts nothing yet. |
| OffscreenWorker.Worker.OnBitmap | public/offscreen-canvas-worker.js:93-161 | A rejected bitmap gives one `RENDER_ERROR`. On success the canvas takes the bitmap's size. The trace then gets `PROCESSING_COMPLETE` (none for an empty canvas), the closing of the bitmap, and `RENDER_COMPLETE` with the bitmap's dimensions, in that order. |
| OffscreenCanvasHook.InitFailure | src/hooks/useOffscreenCanvas.ts:187-189 | The init error is as long as the marker, `: ` and the message together, and it ends with the message. |
| OffscreenCanvasHook.InitErrorsCarryMarker | src/hooks/useOffscreenCanvas.ts:84 | Every init failure, and the handler's "Canvas 초기화 실패", contains "초기화 실패". |
| OffscreenCanvasHook.RenderErrorText | src/hooks/useOffscreenCanvas.ts:118 | `RENDER_ERROR` sets the worker's message, or the non-empty default when the message is missing. |
| OffscreenCanvasHook.Hook.constructor | src/hooks/useOffscreenCanvas.ts:49-53 | The first commit arms the 200 ms init timer only when the canvas is attached. No worker exists and nothing is posted. |
| OffscreenCanvasHook.Hook.OnInitTimer | src/hooks/useOffscreenCanvas.ts:55-146 | Without a canvas nothing happens. A missing `transferControlToOffscreen`, a missing `Worker` or a detached canvas sets "초기화 실패: …" and `isReady` false. Otherwise the worker is created and the 50 ms wait begins. |
| OffscreenCanvasHook.Hook.OnSettle | src/hooks/useOffscreenCanvas.ts:148-191 | On success `INIT_CANVAS` (200 by 150, transferred) is posted once, `isReady` becomes true and the error is cleared. A transfer failure sets the wrapped init error and `isReady` false. |
| OffscreenCanvasHook.Hook.RenderImage | src/hooks/useOffscreenCanvas.ts:208-245 | A render is accepted iff there is a worker, the channel is ready and no render is in flight. A rejected call changes nothing. An accepted call sets `isProcessing`, clears the error, arms one 5000 ms timeout and posts exactly one `RENDER_IMAGE`. |
| OffscreenCanvasHook.Hook.ClearCurrentTimeout | src/hooks/useOffscreenCanvas.ts:90-93 | Only the timeout whose id is stored on the worker is cleared, and the id is reset. |
| OffscreenCanvasHook.Hook.OnMessage | src/hooks/useOffscreenCanvas.ts:76-125 | `CANVAS_READY` without `data.success` sets "Canvas 초기화 실패". Both completions clear the pending timeout and `isProcessing`. Only `RENDER_COMPLETE` sets `lastRenderTime` and the timings, and only `RENDER_ERROR` sets the error. Every other type changes nothing, so `imageProcessingResult` stays null. |
| OffscreenCanvasHook.Hook.OnWorkerError | src/hooks/useOffscreenCanvas.ts:128-132 | A worker error sets "WebWorker 오류 발생" and clears `isProcessing`, leaving any armed timeout running. |
| OffscreenCanvasHook.Hook.OnRenderTimeout | src/hooks/useOffscreenCanvas.ts:223-229 | The timeout clears `isProcessing` and sets "렌더링 타임아웃 (5초)". |
| OffscreenCanvasHook.Hook.Teardown | src/hooks/useOffscreenCanvas.ts:197-204 | Teardown clears the init timer, terminates the worker, drops the ref and clears `isReady`. It does not clear a pending render timeout. |
| RenderChannel.InitChannel | src/hooks/useOffscreenCanvas.ts:195 | Hook and worker composed: a successful initialisation posts one `INIT_CANVAS`, and the worker then holds a 200 by 150 canvas. |
| RenderChannel.ReadyReplyReadsAsFailure | src/hooks/useOffscreenCanvas.ts:80-86 | The worker's successful `CANVAS_READY` reply leaves the ready channel with the error "Canvas 초기화 실패", which carries the init marker. |
| RenderChannel.ReadyError | public/offscreen-canvas-worker.js:33-43 | Read from the top-level `success` field, the reply gives no error exactly when the worker succeeded. |
| RenderChannel.LateCompletionAfterTimeout | src/hooks/useOffscreenCanvas.ts:88-96 | A completion that arrives after its timeout fired is not ignored: it still sets `lastRenderTime`. |
| OffscreenBase64Renderer.InitErrorsTriggerFallback | src/components/data-render-test/OffscreenCanvasBase64Renderer.tsx:57-64 | Every init error of the channel clears the offscreen flag, "Canvas 초기화 실패" included. |
| OffscreenBase64Renderer.Renderer.constructor | src/components/data-render-test/OffscreenCanvasBase64Renderer.tsx:18-33 | The first render has the flag on and the channel's init timer armed. |
| OffscreenBase64Renderer.Renderer.OnInitTimer | src/components/data-render-test/OffscreenCanvasBase64Renderer.tsx:131-132 | The channel finds its canvas only while the offscreen branch is shown. |
| OffscreenBase64Renderer.Renderer.FlagEffects | src/components/data-render-test/OffscreenCanvasBase64Renderer.tsx:36-64 | The flag only goes from true to false. It is cleared when the browser lacks support or a new error contains "초기화 실패". |
| OffscreenBase64Renderer.Renderer.SizeEffect | src/components/data-render-test/OffscreenCanvasBase64Renderer.tsx:91-96 | Every new non-empty store value adds `length / 1024`, rendered or not. |
| OffscreenBase64Renderer.Renderer.RenderEffect | src/components/data-render-test/OffscreenCanvasBase64Renderer.tsx:99-114 | A render is dispatched only with data, a ready channel and no render in flight. `start` comes immediately before `renderImage`. |
| OffscreenBase64Renderer.Renderer.EndEffect | src/components/data-render-test/OffscreenCanvasBase64Renderer.tsx:117-124 | `end` runs only when `lastRenderTime` changes to a number, so errors and timeouts add no sample. |
| OffscreenBase64Renderer.Renderer.Commit | src/components/data-render-test/OffscreenCanvasBase64Renderer.tsx:36-124 | A render after the flag is cleared stops at the early return, before five hooks the committed render called: it is reported as throwing, and nothing of it commits. Otherwise the support check and error watch run, the arrays are forwarded on change, sizes are tracked, and renders are dispatched under the guard. A sample is recorded after each completion, and it is 0 when the same commit dispatches the next frame. |
| OffscreenBase64Renderer.Renderer.CommitEndingFirst | src/components/data-render-test/OffscreenCanvasBase64Renderer.tsx:99-124 | With the end effect first, each completion is measured from its own request's start. |
| OffscreenBase64Renderer.MissingWorkerClearsFlag | src/components/data-render-test/OffscreenCanvasBase64Renderer.tsx:57-74 | A missing `Worker` reported by the channel clears the offscreen flag on the next commit. The render after that throws on the hooks it no longer calls. |
| OffscreenBinaryRenderer.InitErrorsNeverTriggerFallback | src/components/data-render-test/OffscreenCanvasBinaryRenderer.tsx:57-64 | The binary renderer's marker matches none of the channel's init errors. The Base64 renderer's marker matches all of them. |
| OffscreenBinaryRenderer.Renderer.constructor | src/components/data-render-test/OffscreenCanvasBinaryRenderer.tsx:18-33 | The first render has the flag on and the channel's init timer armed. |
| OffscreenBinaryRenderer.Renderer.OnInitTimer | src/components/data-render-test/OffscreenCanvasBinaryRenderer.tsx:131-132 | The channel finds its canvas only while the offscreen branch is shown. |
| OffscreenBinaryRenderer.Renderer.FlagEffects | src/components/data-render-test/OffscreenCanvasBinaryRenderer.tsx:36-64 | The flag is one-way. It is tripped by lack of support, or by an error containing the marker as this file spells it. |
| OffscreenBinaryRenderer.Renderer.SizeEffect | src/components/data-render-test/OffscreenCanvasBinaryRenderer.tsx:91-96 | Every new buffer adds `byteLength / 1024`. |
| OffscreenBinaryRenderer.Renderer.RenderEffect | src/components/data-render-test/OffscreenCanvasBinaryRenderer.tsx:99-114 | A render is dispatched only with a buffer, a ready channel and no render in flight. `renderImage` receives the buffer itself. |
| OffscreenBinaryRenderer.Renderer.EndEffect | src/components/data-render-test/OffscreenCanvasBinaryRenderer.tsx:117-124 | `end` runs only on a new non-null `lastRenderTime`. |
| OffscreenBinaryRenderer.Renderer.Commit | src/components/data-render-test/OffscreenCanvasBinaryRenderer.tsx:36-124 | The same orchestration for buffers. A render after the flag is cleared throws and commits nothing. Arrays are forwarded on change, and the sample is 0 when the same commit dispatches the next frame. |
| OffscreenBinaryRenderer.MissingWorkerKeepsOffscreen | src/components/data-render-test/OffscreenCanvasBinaryRenderer.tsx:57-64 | A missing `Worker` reported by the channel leaves the binary renderer on its dead offscreen canvas. |
| FallbackBase64Renderer.Renderer.constructor | src/components/data-render-test/FallbackCanvasBase64Renderer.tsx:16-19 | The first render has fresh trackers and no image in flight. |
| FallbackBase64Renderer.Renderer.Commit | src/components/data-render-test/FallbackCanvasBase64Renderer.tsx:21-90 | The arrays are forwarded on change and each new value's size is tracked. A new frame starts an attempt only with a 2D context, with `start` before the raw string is loaded. Without data, canvas or context there is no attempt. |
| FallbackBase64Renderer.Renderer.DataEffects | src/components/data-render-test/FallbackCanvasBase64Renderer.tsx:36-90 | The size record and the render attempt are both keyed on the store value. |
| FallbackBase64Renderer.Renderer.OnImageSettled | src/components/data-render-test/FallbackCanvasBase64Renderer.tsx:67-87 | Every outcome calls `end` exactly once, measured from the shared start stamp. A load resizes the canvas to the image first. |
| FallbackBinaryRenderer.Renderer.constructor | src/components/data-render-test/FallbackCanvasBinaryRenderer.tsx:16-19 | The first render has fresh trackers and no image in flight. |
| FallbackBinaryRenderer.Renderer.Commit | src/components/data-render-test/FallbackCanvasBinaryRenderer.tsx:21-99 | Without data, canvas or context there is no `start` and no URL. Otherwise exactly one Blob URL is created from the buffer per attempt. |
| FallbackBinaryRenderer.Renderer.DataEffects | src/components/data-render-test/FallbackCanvasBinaryRenderer.tsx:36-99 | The size record and the render attempt are both keyed on the buffer. |
| FallbackBinaryRenderer.Renderer.StartAttempt | src/components/data-render-test/FallbackCanvasBinaryRenderer.tsx:63-67 | `start`, then one new live URL for the buffer's bytes. |
| FallbackBinaryRenderer.Renderer.OnImageSettled | src/components/data-render-test/FallbackCanvasBinaryRenderer.tsx:71-96 | Every outcome calls `end` once and revokes that attempt's URL once. A load resizes the canvas first. |
| FallbackBinaryRenderer.Renderer.Unmount | src/components/data-render-test/FallbackCanvasBinaryRenderer.tsx:44-99 | There is no cleanup, so the URL of every image still loading stays live. |
| CanvasObjectUrlRenderer.SampleLimit | src/components/data-render-test/CanvasObjectURLImageRenderer.tsx:118 | The pass stops at `min(length, 10000)`. |
| CanvasObjectUrlRenderer.RedSumPrefix | src/components/data-render-test/CanvasObjectURLImageRenderer.tsx:116-120 | The pixel pass reads only indices below its bound. |
| CanvasObjectUrlRenderer.RedSumBounds | src/components/data-render-test/CanvasObjectURLImageRenderer.tsx:116-120 | The sum is between 0 and 255 per sampled byte. |
| CanvasObjectUrlRenderer.SumSampled | src/components/data-render-test/CanvasObjectURLImageRenderer.tsx:117-120 | The loop sums the bytes at multiples of 4 below the bound, and the total is at most 255 · 2500. |
| CanvasObjectUrlRenderer.Renderer.constructor | src/components/data-render-test/CanvasObjectURLImageRenderer.tsx:18-22 | The first render has no attempt and a default 300 by 150 canvas. |
| CanvasObjectUrlRenderer.Renderer.CancelLatest | src/components/data-render-test/CanvasObjectURLImageRenderer.tsx:162-168 | The cleanup sets `isCancelled` on the attempt in flight. |
| CanvasObjectUrlRenderer.Renderer.Commit | src/components/data-render-test/CanvasObjectURLImageRenderer.tsx:21-169 | The main effect re-runs on every commit, so every earlier attempt is cancelled. A new attempt starts only with both a URL and a buffer, and its URL is live. Sizes are tracked and the arrays forwarded. `Valid` keeps each attempt at most one `end`. |
| CanvasObjectUrlRenderer.Renderer.RenderHooks | src/components/data-render-test/CanvasObjectURLImageRenderer.tsx:21-41 | The memoised URL, then the size and forwarding effects. |
| CanvasObjectUrlRenderer.Renderer.SizeEffects | src/components/data-render-test/CanvasObjectURLImageRenderer.tsx:24-41 | Each buffer's `byteLength / 1024` is offered to the size tracker, and the arrays are forwarded on change. |
| CanvasObjectUrlRenderer.Renderer.StartAttempt | src/components/data-render-test/CanvasObjectURLImageRenderer.tsx:53-66 | `start` once, then a loading attempt with an armed timeout and no `end` yet. |
| CanvasObjectUrlRenderer.Renderer.Finish | src/components/data-render-test/CanvasObjectURLImageRenderer.tsx:64 | An `end` records `now` minus that attempt's start and finishes the attempt. |
| CanvasObjectUrlRenderer.Renderer.OnTimeout | src/components/data-render-test/CanvasObjectURLImageRenderer.tsx:59-66 | An armed 5000 ms timeout cancels the attempt, clears the source and calls `end`. Otherwise it does nothing. |
| CanvasObjectUrlRenderer.Renderer.OnLoad | src/components/data-render-test/CanvasObjectURLImageRenderer.tsx:68-77 | A load clears the timeout and waits 10 ms, unless the attempt was cancelled. |
| CanvasObjectUrlRenderer.Renderer.OnError | src/components/data-render-test/CanvasObjectURLImageRenderer.tsx:140-151 | A load error clears the timeout and calls `end`, unless the attempt was cancelled. |
| CanvasObjectUrlRenderer.Renderer.OnDelay | src/components/data-render-test/CanvasObjectURLImageRenderer.tsx:77-80 | After the 10 ms delay the attempt waits for an animation frame, unless it was cancelled. |
| CanvasObjectUrlRenderer.Renderer.OnFirstFrame | src/components/data-render-test/CanvasObjectURLImageRenderer.tsx:80-83 | The first animation frame waits for the next one, unless the attempt was cancelled. |
| CanvasObjectUrlRenderer.Renderer.OnSecondFrame | src/components/data-render-test/CanvasObjectURLImageRenderer.tsx:83-134 | Without a canvas or a context, `end` runs at once. Otherwise the canvas takes the image's size, the pixel pass runs, and `end` is deferred 15 ms. A failing pass calls `end` at once. |
| CanvasObjectUrlRenderer.Renderer.OnSettled | src/components/data-render-test/CanvasObjectURLImageRenderer.tsx:123-130 | The deferred `end` runs unless the attempt was cancelled meanwhile. |
| CanvasObjectUrlRenderer.Renderer.Unmount | src/components/data-render-test/CanvasObjectURLImageRenderer.tsx:162-168 | Unmount cancels the attempt in flight, and the URL hook revokes its URLs. |
| CanvasObjectUrlRenderer.CancelledAttemptIsSilent | src/components/data-render-test/CanvasObjectURLImageRenderer.tsx:60-141 | After cleanup, no `end` runs for the cancelled attempt, whatever event arrives. |
| DataUrlImageRenderer.DataUrl | src/components/data-format-test/Base64ImageRenderer.tsx:19 | The source is "data:image/jpeg;base64," followed by the payload, or by nothing when the store is empty. The URL follows section 3 of RFC 2397. |
| DataUrlImageRenderer.Payload | src/components/data-format-test/Base64ImageRenderer.tsx:19 | A source has a payload exactly when it starts with the data-URL prefix. |
| DataUrlImageRenderer.PayloadOfDataUrl | src/components/data-format-test/Base64ImageRenderer.tsx:19 | The source carries exactly the store value. |
| DataUrlImageRenderer.RawSourceDiffers | src/components/data-render-test/FallbackCanvasBase64Renderer.tsx:89 | The fallback's raw source is never the data URL the direct renderer uses. |
| DataUrlImageRenderer.Renderer.constructor | src/components/data-format-test/Base64ImageRenderer.tsx:14-19 | The first render shows just the prefix. |
| DataUrlImageRenderer.Renderer.Commit | src/components/data-format-test/Base64ImageRenderer.tsx:19-46 | Each change to a non-empty payload calls `start` and offers `length / 1024` to the size tracker. Sizes are forwarded only when non-empty, latencies always. |
| DataUrlImageRenderer.Renderer.OnLoad | src/components/data-format-test/Base64ImageRenderer.tsx:21-23 | Every load calls `end`, with no pairing check. |
| ObjectUrlImageRenderer.HookInput | src/components/data-format-test/ObjectURLImageRenderer.tsx:23 | `base64ImageData \|\| null` turns the empty string into null. |
| ObjectUrlImageRenderer.Renderer.constructor | src/components/data-format-test/ObjectURLImageRenderer.tsx:18-23 | The first render has no source. |
| ObjectUrlImageRenderer.Renderer.Commit | src/components/data-format-test/ObjectURLImageRenderer.tsx:23-50 | The source is the hook's URL, undefined while the store is empty. Each non-empty payload change calls `start` and tracks the size. Sizes are forwarded only when non-empty. A decoding error aborts the render. |
| ObjectUrlImageRenderer.Renderer.OnLoad | src/components/data-format-test/ObjectURLImageRenderer.tsx:25-27 | Every load calls `end`. |
| BinaryImageRenderer.Renderer.constructor | src/components/data-format-test/BinaryImageRenderer.tsx:14-20 | The first render has no source. |
| BinaryImageRenderer.Renderer.Commit | src/components/data-format-test/BinaryImageRenderer.tsx:20-46 | The source is the hook's URL, which is live, and undefined without a buffer. Each buffer change calls `start` and tracks `byteLength / 1024`. Sizes are forwarded only when non-empty. |
| BinaryImageRenderer.Renderer.OnLoad | src/components/data-format-test/BinaryImageRenderer.tsx:22-24 | Every load calls `end`. |
| RendererParts.TextKB | src/components/data-render-test/OffscreenCanvasBase64Renderer.tsx:93 | The size is the string length over 1024. |
| RendererParts.BufferKB | src/components/data-render-test/OffscreenCanvasBinaryRenderer.tsx:93 | The size is the byte length over 1024. |
| RendererParts.CallsAfter | src/components/data-format-test/Base64ImageRenderer.tsx:31-46 | The parent receives the array exactly when it is a new array (by identity, even if equal in value), and not when it is empty in the variants that guard on length. |
| RendererParts.Forwarder.Commit | src/components/data-render-test/OffscreenCanvasBase64Renderer.tsx:77-88 | The effect runs iff the array's identity changed. Unguarded, the parent always holds the array last seen. Guarded, the parent never receives an empty one. |
| RendererParts.EqualWindowStillForwarded | src/hooks/useImageLatencyTracker.ts:13 | A full window of equal samples is unchanged in value by one more such sample, yet it is a new array, so the forwarding effect hands it to the parent again. |
| RendererParts.Forwarder.constructor | src/components/data-format-test/Base64ImageRenderer.tsx:42-46 | The forwarder has made no call, with or without the length guard. |
| RendererParts.FrameEffects | src/components/data-format-test/Base64ImageRenderer.tsx:25-46 | On a new frame: `start`, then the latency array is forwarded, then the size is added, then the size array is forwarded. No latency is recorded. |
| Throttle.Throttled.Call | src/hooks/usePerformanceOptimization.ts:9-26 | A call runs the callback iff `now - lastCall >= delay`. Only a call that runs moves the stamp. `Valid` keeps runs at least `delay` apart, the first at or after `delay`. |
| Throttle.Throttled.constructor | src/hooks/usePerformanceOptimization.ts:13 | `lastCallRef` starts at 0 and nothing has run. |
| Debounce.Debounced.Call | src/hooks/usePerformanceOptimization.ts:40-49 | A call cancels the pending timer and leaves exactly one timer armed, due `delay` later with this call's arguments. |
| Debounce.Debounced.constructor | src/hooks/usePerformanceOptimization.ts:38 | No timer is armed and nothing has run. |
| Debounce.Debounced.Fire | src/hooks/usePerformanceOptimization.ts:46-48 | The timer runs the callback with its arguments. No unmount cleanup stops it. |
| Debounce.BurstRunsOnce | src/hooks/usePerformanceOptimization.ts:34-52 | A burst of calls runs the callback once, with the last call's arguments. |
| FrameStats.Shortfall | src/hooks/useFrameStats.ts:13 | `max(expected - received, 0)`: the received frames plus the shortfall reach the expected count, exactly when there is a shortfall. |
| FrameStats.DropRate | src/hooks/useFrameStats.ts:29-32 | The rate is 0 when nothing was counted. Otherwise it is dropped / (total + dropped) · 100, which lies in [0, 100]. |
| FrameStats.Stats.constructor | src/hooks/useFrameStats.ts:4-8 | Every counter starts at 0, and so does the fps the interval captures. |
| FrameStats.Stats.CountFrame | src/hooks/useFrameStats.ts:25-27 | `countFrame` adds exactly one to the per-second counter. |
| FrameStats.Stats.Tick | src/hooks/useFrameStats.ts:10-23 | `fps` becomes the counter, which is added to `totalFrames` and reset. Against the captured 0, `droppedFrames` never grows. |
| FrameStats.Stats.TickWithCurrentFps | src/hooks/useFrameStats.ts:11-19 | The intended tick adds the shortfall against the previous second's rate. |
| FrameStats.Stats.CountFrames | src/hooks/useFrameStats.ts:25-27 | `count` frames add exactly `count`. |
| FrameStats.SlowSecondGoesUncounted | src/hooks/useFrameStats.ts:10-23 | After a slower second, as written nothing is dropped. The intended tick drops the difference. |
| DroppedFrames.MissedFrames | src/hooks/useDroppedFrame.ts:9-15 | A frame no later than last + 16.67 ms misses nothing. A later one misses `floor((current - (last + 16.67)) / 16.67)`. |
| DroppedFrames.Counter.constructor | src/hooks/useDroppedFrame.ts:4-5 | No drops and no previous frame. |
| DroppedFrames.Counter.MarkFrame | src/hooks/useDroppedFrame.ts:7-18 | The first frame only records its time. Later frames add their missed frames, and the count never decreases. The time is recorded on every call, even when time went backwards. |
| Fps.Meter.constructor | src/hooks/useFps.ts:4-6 | `fps` is 0 and the window starts at creation. |
| Fps.Meter.Update | src/hooks/useFps.ts:11-22 | Every frame adds one to the counter. After 1000 ms, `fps` becomes the counter including this frame, the counter resets and the window restarts. Inside a window `fps` is unchanged. `Valid` keeps publications 1000 ms apart. |
| TotalFrames.Counter.constructor | src/hooks/useTotalFrame.ts:4-5 | Both counters start at 0. |
| TotalFrames.Counter.MarkFrame | src/hooks/useTotalFrame.ts:7-10 | Each call adds exactly one to both counters, and `Valid` keeps them equal. |
| ElapsedTime.WholeSeconds | src/hooks/useElaspsedTime.ts:20 | The elapsed milliseconds lie in [1000s, 1000(s+1)). |
| ElapsedTime.Timer.constructor | src/hooks/useElaspsedTime.ts:4-6 | `elapsedSec` is 0 and no interval runs. |
| ElapsedTime.Timer.Start | src/hooks/useElaspsedTime.ts:8-24 | Only the first `start` sets the start time, and it arms the interval. |
| ElapsedTime.Timer.Tick | src/hooks/useElaspsedTime.ts:18-21 | Each tick sets the whole seconds since the start. Before `start` nothing changes. |
| Latency.TimestampMs | src/hooks/useLatency.ts:10 | The value is kept or scaled by 1000. A timestamp of any date since September 2001, in seconds or in milliseconds, comes out as a millisecond timestamp of at least 1e12. |
| Latency.SameInstantEitherUnit | src/hooks/useLatency.ts:10 | A date since September 2001 gives the same milliseconds whether it is sent in seconds or in milliseconds. |
| Latency.Hook.constructor | src/hooks/useLatency.ts:4 | The latency is null until the first calculation. |
| Latency.Hook.CalculateLatency | src/hooks/useLatency.ts:6-13 | The latency is `(now - timestampMs) / 1000` seconds. `renderTimeSec` cancels out. |
| LatencyCalculator.Hook.constructor | src/hooks/useLatencyCalculator.ts:4 | The latency is null until the first call. |
| LatencyCalculator.Hook.CalculateLatency | src/hooks/useLatencyCalculator.ts:6-9 | The new value is the difference in seconds, overwriting the previous one. It is negative iff the render came before receipt. |
| RenderTime.Hook.constructor | src/hooks/useRenderTime.ts:4 | The render time is null until the first update. |
| RenderTime.Hook.UpdateRenderTime | src/hooks/useRenderTime.ts:6-9 | The value is the input over 1000, independent of the previous value. It is 0 exactly for an input of 0. |
| CpuLoad.Estimator.constructor | src/hooks/useCpuLoadEstimate.ts:4-6 | The load starts at 0. |
| CpuLoad.Estimator.Measure | src/hooks/useCpuLoadEstimate.ts:11-26 | Busy time always equals elapsed time at the division, so the load is 100 whenever time advanced. It is NaN when no time passed, and `lastTime` becomes `now`. |
| Average.Round | src/utils/averageCalculator.ts:4 | `Math.round` gives the integer within half of `x`, rounding halves up. |
| Average.CalculateAverage | src/utils/averageCalculator.ts:1-5 | The result is 0 for an empty list. Otherwise it is a whole number of hundredths within 0.005 of the exact mean. |
| Average.SumRemove | src/utils/averageCalculator.ts:3 | Taking one element out of the list takes its value out of the sum. |
| Average.SumPermutation | src/utils/averageCalculator.ts:3 | The sum does not depend on the order of the values. |
| Average.AveragePermutation | src/utils/averageCalculator.ts:1-5 | Permuting the list does not change the average. |
| App.NameNamesEncoding | src/App.tsx:11-16 | A strategy's name contains "base64" iff it consumes the Base64 stream, and "binary" iff it consumes the binary stream. |
| App.RemoveKind | src/App.tsx:114 | No entry of the removed kind is left. The list never gets longer, and it gets strictly shorter when it held that kind. |
| App.RemoveKindMembers | src/App.tsx:114 | The filter keeps exactly the entries of other kinds. |
| App.RemoveAbsentKind | src/App.tsx:112-114 | Filtering out a kind the list lacks changes nothing. |
| App.Toggle | src/App.tsx:110-119 | A present kind loses every entry of that kind. An absent kind is appended at the end. All other kinds keep their membership. |
| App.ToggleAbsentTwice | src/App.tsx:110-119 | Toggling an absent kind twice restores the list. |
| App.TogglePresentTwice | src/App.tsx:110-119 | Toggling a present kind twice keeps it enabled but moves it to the end. |
| App.Rendered | src/App.tsx:122-161 | Single mode shows the selected strategy. Comparison mode shows the enabled strategies in order. |
| App.SocketsFollowRenderers | src/App.tsx:93-108 | A stream's socket is requested iff a renderer of that stream is on screen. |
| App.SingleModeOneSocket | src/App.tsx:93-108 | In single mode exactly one socket URL is non-null. |
| App.ComparisonModeSockets | src/App.tsx:93-105 | In comparison mode, no enabled strategy means no socket, and any enabled strategy means at least one. |
| App.RoutesShareSizesByStream | src/App.tsx:122-161 | Each strategy has its own renderer and its own latency array. Two strategies share a size array iff they share a stream. |
| App.PanelShowsOnlyRendered | src/App.tsx:337-399 | A strategy's latencies reach the panel iff its renderer is on screen, and `[]` is passed otherwise. A stream's sizes reach it iff a renderer of that stream is on screen. |
| App.InitialViewOpensBothSockets | src/App.tsx:26-71 | The first view shows every strategy except the Base64 object-URL one, and it requests both sockets. |
| App.Page.constructor | src/App.tsx:26-71 | The page starts in comparison mode with the initial strategies, and both sockets are requested. |
| App.Page.ToggleConfig | src/App.tsx:215-243 | A toggle button applies `Toggle` to the enabled list and changes nothing else. |
| App.Page.SetViewMode | src/App.tsx:168-196 | A mode button changes only the mode. |
| App.Page.SetSingleType | src/App.tsx:199-213 | The selector changes only the selected strategy. |
| App.Page.SocketUrls | src/App.tsx:97-108 | Each receiver gets its configured URL exactly when its socket should connect, and null otherwise. |

## Left out

- The WebSocket receivers (`useWebSocket`, `useWebSocketReceiverBase64`, `useWebSocketReceiverBinary`) are network I/O. `App.Page.SocketUrls` gives the URL each one receives, and the frame stores hold what they write.
- `useImageDataStore`, `useMemoryUsage`, `useResolution` and the chart and statistics views are layout, formatting or thin reads of browser fields. `formatLatency` and `formatSize` are float-to-string formatting.
- The `test-case` renderers, `CanvasBase64ImageRenderer` and the two `CommonImageRenderer`s only pass values to views or draw an image.
- Canvas drawing is abstract: the pixels `getImageData` returns are a parameter, and so are image and bitmap sizes and load outcomes. The worker's 2D context is folded into its canvas slot, because no check in the script tells them apart.
- The worker's `TypeError` texts are fixed constants, not the engine's exact messages.
- Numbers: clock readings are integer milliseconds. `useDroppedFrame` is in hundredths of a millisecond, so 16.67 ms is 1667. Sizes, latencies in seconds, brightness and averages are exact reals. Floating-point rounding, and `NaN` outside `CpuLoad`, are not modelled.
- Parent callbacks are taken as present and as stable across renders. Where a dependency list names them, they never change.
- In both offscreen renderers the early `return` of the fallback comes before five hooks. The render after the flag is cleared therefore calls fewer hooks than the committed one, React throws "Rendered fewer hooks than expected", and with no error boundary in the application the page unmounts. The model reports that render as throwing and commits nothing of it. The unmounting of the rest of the page is not modelled, and the fallback components are never mounted from here. Because every `CANVAS_READY` sets "Canvas 초기화 실패", the Base64 offscreen renderer reaches this as soon as its worker starts.
- The state after a render that throws (a Base64 decoding error in `ObjectUrlImageRenderer.Renderer.Commit`, `Base64ToObjectUrl.Hook.Use` and the effect of `ObjectUrlNoCache.Hook.Use`) is only what the contract states; React's error boundary is not modelled.
- CanvasObjectUrlRenderer.Renderer.Commit: assigning `img.src` never throws in the model, so the `catch` at CanvasObjectURLImageRenderer.tsx:153-159 is not modelled. Because the effect lists `start`, `end` and `addSize`, which are new closures on every render, the main effect and the size effect run on every commit.
- OffscreenCanvasHook.Hook.OnSettle: when the component unmounted during the 50 ms wait, the transfer and its state updates are dropped rather than acted on.
- ElapsedTime.Timer.Start: two `start` calls before a re-render both see `started` false in the source. The model treats each call as followed by its commit.
- `useCpuLoadEstimate`: the busy time is reset to 0 and then increased by exactly the elapsed time, so the ratio is 1 for every nonzero elapsed time, negative included. The `Math.min` cap never changes the value: the load is 100, or NaN when no time passed.
- FrameStats.Stats.Tick: stated for the captured fps of 0 that an empty dependency list freezes in the interval.

## Findings

| source | as written | input that shows it | evidently intended | confidence | as-written member | corrected member |
|---|---|---|---|---|---|---|
| src/components/data-render-test/OffscreenCanvasBinaryRenderer.tsx:58 | The error watch looks for a mis-encoded copy of "초기화 실패": its UTF-8 bytes read back as Windows-1252 text. | The channel reports "초기화 실패: WebWorker is not supported in this browser". | Clear the offscreen flag on any init failure, as the Base64 renderer's error watch does. (In both renderers the render after that throws; see "Left out".) | not executed | OffscreenBinaryRenderer.MissingWorkerKeepsOffscreen | OffscreenBase64Renderer.MissingWorkerClearsFlag |
| src/hooks/useOffscreenCanvas.ts:80-86 | `CANVAS_READY` reads `data?.success`, but the worker puts `success` at the top level of its reply. | A successful `INIT_CANVAS`, answered by `CANVAS_READY` with `success: true`. | No error when the worker reports success. | not executed | RenderChannel.ReadyReplyReadsAsFailure | RenderChannel.ReadyError |
| src/components/data-render-test/OffscreenCanvasBase64Renderer.tsx:99-124 | The render effect is declared before the end effect. On the commit after a completion it restarts the clock for the next frame before `end` reads it. | A frame is waiting in the store when `RENDER_COMPLETE` arrives. | The sample measures the completed request from its own start. | not executed | OffscreenBase64Renderer.Renderer.Commit | OffscreenBase64Renderer.Renderer.CommitEndingFirst |
| src/hooks/useFrameStats.ts:10-23 | The interval closes over the first render's `fps`, which is 0, so `max(fps - received, 0)` is always 0. | A second with 30 frames, then a second with 20. | The shortfall is measured against the previous second's rate. | not executed | FrameStats.SlowSecondGoesUncounted | FrameStats.Stats.TickWithCurrentFps |

Where this model and a plain reading of the benchmark's intent disagree, the
model follows the code: an init error never clears the binary offscreen
renderer's flag, and every `CANVAS_READY` sets an error. Both are recorded
above. Clearing the flag in either offscreen renderer leads to a render that
throws rather than to the fallback, as "Left out" states.
