# ESP32CamVisionAI in Dafny

This project models the core of ESP32CamVisionAI. In that system an ESP32 camera takes frames, queues them, and posts each one as a `multipart/form-data` upload. The receiving servers store the images and stream them on. Five files make up the model:

- `common.dfy`: `byte` and `Option`, shared by the other modules.
- `multipart_form.dfy` (module `MultipartForm`): the firmware's body builder, `MultiPartForm`.
  - Its buffer is a `seq<byte>` that `AddFile` and `WrapUp` grow.
  - `WrapUp` empties the buffer again.
  - The byte layout is stated by `EncodeFile`.
  - A reference reader in the RFC 2046 style (`ParseSinglePart`) reads an encoded body back.
- `frame_pipeline.dfy` (module `FramePipeline`): the firmware's capture/upload pipeline.
  - `Device` holds the FIFO shared by the producer loop and the consumer loop, the consumer's URI and header, and its one `MultiPartForm`.
  - `ProducerStep` and `ConsumerStep` are the two critical sections. `ProducerStep` is proved against the pure `ProduceStep`. `ConsumerStep` states its new queue and histories directly, and they are those of the pure `ConsumeStep`; it does not involve the camera.
  - An interleaving of the two threads is a `seq<Step>`. `Run` is its specification, and `Device.RunSteps` executes it.
  - The build-time configuration (`embedded/src/main.rs:27-39`) is the datatype `Config`, and its defaults are the constant `DefaultConfig`.
  - The queue bound 5 (`embedded/src/main.rs:150`) and the 5000 ms back-off (`embedded/src/main.rs:71`) are the constants `Capacity` and `RetryDelayMs`.
- `api_server.dfy` (module `ApiServer`): the Go inference server.
  - The two-slot `ImageBuffer` ring and its channel of capacity 2.
  - The model pool used by the worker goroutine of `handlePost`.
  - `handlePost`'s choice of status code.
  - The CORS middleware.
- `video_socket.dfy` (module `VideoSocket`): the Rust WebSocket handler.
  - `process_message`.
  - The counting receive loop.

Each mutex-protected critical section is one atomic call. The two threads of the firmware and the goroutines of the server are modelled by sequences of such calls. One consumer step also covers the encode and the POST, which `send_images` runs after `drop(buffer_guard)` (`embedded/src/main.rs:63-74`). This is sound because the encode and the POST touch only the consumer's own builder and request history. A producer step that falls between the pop and the POST therefore commutes with them.

When the channel is full, the comment at `api/cmd/api/main.go:72` says the oldest photo is discarded. The `default` branch actually drops the new image and keeps the queued ones, and the model follows the code. `AddAllFromNew` shows this: an undrained channel keeps the first two images.

A failed POST is not resent: `embedded/src/main.rs:67-74` logs the error, sleeps 5000 ms and pops the next frame. `FailureMovesOn` proves it.

Two consequences of the server's worker code are proved:
- An empty upload is answered with 200, and its worker then panics at `&fileBuffer[0]` (`api/cmd/api/main.go:147`), which ends the server. See `EmptyUploadEndsServer`.
- Every worker takes the last model of its by-value copy of the pool and holds `modelsMutex` for the whole inference. So of the max(NumCPU-1, 1) models loaded, only the last is ever used, and inferences run one at a time (`api/cmd/api/main.go:127-145`). See `LoadedPoolServesEveryUpload`.

## Model

| member | source | states |
|---|---|---|
| MultipartForm.ContentTypeNamesBoundary | embedded/src/utils/multipart_form.rs:11-12 | the Content-Type value is `multipart/form-data; boundary=` followed by exactly the boundary the delimiters use |
| MultipartForm.MultiPartForm.constructor | embedded/src/utils/multipart_form.rs:8-14 | a new builder has an empty body and the fixed boundary and content type |
| MultipartForm.MultiPartForm.AddFile | embedded/src/utils/multipart_form.rs:16-26 | the old bytes stay as a prefix, followed by `--boundary` CRLF, then the Content-Disposition/Content-Type header naming the field, then the payload |
| MultipartForm.MultiPartForm.WrapUp | embedded/src/utils/multipart_form.rs:28-34 | returns the accumulated bytes plus CRLF `--boundary--` CRLF, and leaves the buffer empty |
| MultipartForm.HeaderSuffixOpensWithQuote | embedded/src/utils/multipart_form.rs:19 | the header text after the field name starts with the closing `"` of the name |
| MultipartForm.CloseDelimiterStartsWithDelimiter | embedded/src/utils/multipart_form.rs:29 | the close delimiter is the part delimiter CRLF `--boundary` followed by `--` CRLF |
| MultipartForm.EncodeFile | embedded/src/utils/multipart_form.rs:16-34 | the body of one cycle starts with the opening delimiter, ends with the close delimiter, and is the field name and the payload plus a fixed amount of framing |
| MultipartForm.PayloadVerbatim | embedded/src/utils/multipart_form.rs:17-31 | body length = opening delimiter + header + payload + close delimiter; the payload sits unchanged and contiguous at its offset, between the header and the close delimiter |
| MultipartForm.ReusedBuilder | embedded/src/utils/multipart_form.rs:33 | on one reused builder, the second add/wrap cycle yields exactly the encoding of its own file, whatever the first cycle held |
| MultipartForm.ParseLayoutRecovers | embedded/src/utils/multipart_form.rs:16-31 | a reader that ends the content at the first delimiter recovers the name and the content of any body in this layout whose name holds no `"` and whose content holds no delimiter |
| MultipartForm.RoundTrip | embedded/src/utils/multipart_form.rs:16-34 | for a field name without `"` and a payload without the delimiter, reading the built body back yields exactly one part with that name and that payload |
| FramePipeline.ProduceStep | embedded/src/main.rs:149-162 | a full queue (length >= 5) leaves the state unchanged and the camera unasked; otherwise one answer is read, a frame is appended at the back and the length grows by exactly 1, and no frame leaves the queue unchanged; uploads and requests are untouched |
| FramePipeline.ConsumeStep | embedded/src/main.rs:53-75 | an empty queue is left alone; otherwise exactly the front frame is removed, and one POST request for it is recorded; accepted frames and the camera are untouched |
| FramePipeline.UploadRequest | embedded/src/main.rs:46-49 | the request for a frame whose bytes hold no boundary delimiter has a body that reads back as one part named `file` holding exactly that frame |
| FramePipeline.Device.EncodeFrame | embedded/src/main.rs:65-67 | `add_file("file", frame)` then `wrap_up` on the reused builder gives exactly EncodeFile of the frame and leaves the builder empty |
| FramePipeline.FailureMovesOn | embedded/src/main.rs:67-74 | after a failed POST the frame is not put back: the next POST carries the next frame |
| FramePipeline.ProduceKeepsInv | embedded/src/main.rs:150-161 | a producer step keeps the bound of 5, FIFO order and one POST per uploaded frame |
| FramePipeline.ConsumeKeepsInv | embedded/src/main.rs:56-67 | a consumer step keeps the bound of 5, FIFO order and one POST per uploaded frame |
| FramePipeline.RunKeepsInv | embedded/src/main.rs:52-163 | every interleaving of the two loops keeps that invariant |
| FramePipeline.ApplyReadsCamera | embedded/src/main.rs:155-161 | one step reads at most one camera answer and accepts exactly the frame in it |
| FramePipeline.RunReadsCameraInOrder | embedded/src/main.rs:147-163 | over any interleaving, the camera's answers are read in order, the accepted frames are exactly the frames among them, and the upload and request histories only grow |
| FramePipeline.UploadsFollowAcceptance | embedded/src/main.rs:46-67 | from start-up: at most 5 queued, uploaded frames are a prefix of accepted frames, and every request goes to `server_url + "/post"` with the one Content-type header and the encoding of its own frame |
| FramePipeline.AttemptCarriesOneFrame | embedded/src/main.rs:65-67 | each POST body whose frame holds no boundary delimiter reads back as one part named `file` holding exactly the frame popped for it |
| FramePipeline.FullQueueResamples | embedded/src/main.rs:150-155 | on a full queue the producer does not take a sixth frame; once the consumer pops, the next producer step takes the camera's next answer |
| FramePipeline.Camera.GetFramebuffer | embedded/src/main.rs:155 | the next scripted answer, or None once the script is exhausted |
| FramePipeline.Device.constructor | embedded/src/main.rs:46-49 | empty queue, URI `server_url + "/post"`, header `("Content-type", content_type)`, an empty builder |
| FramePipeline.Device.ProducerStep | embedded/src/main.rs:148-162 | the new state is ProduceStep of the old one; the queue is full iff the outcome is full, and then the camera is unchanged |
| FramePipeline.Device.ConsumerStep | embedded/src/main.rs:52-75 | an empty queue leaves everything as it was and the consumer waiting; otherwise the front frame moves from the queue to the uploads, the one request recorded and returned is the upload of that frame, and the back-off is 5000 ms exactly when the POST failed |
| FramePipeline.Device.RunSteps | embedded/src/main.rs:140-163 | running an interleaving yields Run of the old state |
| ApiServer.AddSpec | api/cmd/api/main.go:49-76 | a failed open or read changes nothing; a success writes only the slot at the old index, advances the index by one modulo 2, and keeps the queued images; the index stays in [0, 2) and the channel holds at most 2 |
| ApiServer.AddAll | api/cmd/api/main.go:49-76 | the buffer invariant holds after any series of Add calls |
| ApiServer.AddAllFromNew | api/cmd/api/main.go:41-76 | from a new buffer: index = stored images mod 2, the two slots hold the last two images, and an undrained channel holds the first two while later images are dropped |
| ApiServer.Channel.TrySend | api/cmd/api/main.go:68-75 | the image is queued iff the channel is below capacity; a full channel keeps its images unchanged |
| ApiServer.Channel.TryReceive | api/cmd/api/main.go:176-184 | takes the oldest queued image, or returns None on an empty channel |
| ApiServer.ImageBuffer.constructor | api/cmd/api/main.go:41-47 | two empty slots, index 0, an empty channel of capacity 2 |
| ApiServer.ImageBuffer.Add | api/cmd/api/main.go:49-76 | the new ring and channel are AddSpec of the old ones, and the invariant is kept |
| ApiServer.ImageBuffer.GetChannel | api/cmd/api/main.go:78-80 | returns the buffer's one channel |
| ApiServer.Worker | api/cmd/api/main.go:127-161 | a worker never changes the pool's models; on a free lock it leaves the lock held exactly when it met a nil last model; it panics exactly when the last model is not nil and the upload is empty; when it is served, it was served by the last model |
| ApiServer.Workers | api/cmd/api/main.go:127-161 | a series of uploads yields at most one outcome per upload; no outcome follows a `Panicked`, and the series stops short of the uploads only by ending in `Panicked`, on any pool |
| ApiServer.PoolSize | api/cmd/api/main.go:203-206 | the number of models is at least 1 and at least NumCPU-1, and it is one of the two |
| ApiServer.NilModelBlocksLaterWorkers | api/cmd/api/main.go:134-138 | after a nil model, every later worker blocks on the mutex |
| ApiServer.LoadedPoolServesEveryUpload | api/cmd/api/main.go:130-147 | on a non-empty pool with no nil model, every worker of a non-empty upload is served by the last model and frees the lock, and the first empty upload panics and is the last one served |
| ApiServer.EmptyUploadEndsServer | api/cmd/api/main.go:120-147 | an empty file is answered with 200 and handed to a worker, which panics on the loaded pool |
| ApiServer.LoadModels | api/cmd/api/main.go:203-220 | loads max(NumCPU-1, 1) models; it succeeds iff none of them is nil, and then the pool is exactly those models and non-empty |
| ApiServer.ModelPool.constructor | api/cmd/api/main.go:26-30 | the pool holds the given models and the mutex is free |
| ApiServer.ModelPool.Serve | api/cmd/api/main.go:127-161 | pool and lock follow Worker on the uploaded bytes; after a take (served or panicked) the worker's own slice ends equal to the pool; on a loaded pool with a free lock it is served or panics and the lock is free again; the image buffer is updated by Add only when the worker was served |
| ApiServer.HandlePost | api/cmd/api/main.go:99-166 | 405 iff the method is not POST; 400 iff POST and parse error or no `file` field; 500 iff POST and read error; 200 with the fixed JSON iff POST with file data, and only then is a worker given the image |
| ApiServer.Cors | api/cmd/api/main.go:188-200 | the three CORS headers always get their fixed values and other headers are kept; `next` is called 0 times iff the method is OPTIONS, and otherwise once |
| ApiServer.CorsIdempotent | api/cmd/api/main.go:190-192 | applying the middleware twice sets the same headers as applying it once |
| ApiServer.ServePost | api/cmd/api/main.go:231-234 | handlePost runs behind the middleware exactly when the middleware calls `next` |
| ApiServer.PreflightSpawnsNoWorker | api/cmd/api/main.go:194-196 | an OPTIONS request to /post gets only the CORS headers and starts no worker |
| ApiServer.UploadReachesWorker | api/cmd/api/main.go:163-165 | a POST with file data gets 200 with the CORS headers, and its data goes to a worker |
| VideoSocket.ProcessMessage | api/src/handlers/websocket.rs:65-96 | Break iff the message is a Close, with or without a close frame; Text, Binary, Ping and Pong give Continue |
| VideoSocket.Count | api/src/handlers/websocket.rs:40-50 | the number of messages counted is at most the length of the stream |
| VideoSocket.CountStopsAtFirstBreak | api/src/handlers/websocket.rs:40-50 | count <= stream length; everything counted is a message; no Close before the last one counted; the loop stopped at end of stream, at an error, or after counting a Close |
| VideoSocket.CountIgnoresRest | api/src/handlers/websocket.rs:42-47 | whatever follows the first error or Close does not change the count |
| VideoSocket.ReceiveLoop | api/src/handlers/websocket.rs:40-50 | the counter loop returns Count of the stream |
| VideoSocket.HandleVideoSocket | api/src/handlers/websocket.rs:29-63 | when the initial ping cannot be sent nothing is received; otherwise the receive task's count |

## Left out

- Threads, `Mutex`/`Condvar`, goroutines and `sync.Cond` are not modelled. Each locked section is one atomic call, and waiting is modelled by the Blocked/Waiting outcomes. Wakeups, fairness and liveness are not modelled.
- The camera (`get_framebuffer`) is a scripted sequence of answers, `Camera`. Camera pins, sensor settings, Wi-Fi and the event loop are hardware setup.
- `embedded/src/configs/flash.rs` (the LEDC flash) is also hardware setup.
- `FreeRtos::delay_ms` is represented only by the 5000 ms back-off value that `ConsumerStep` reports.
- `embedded/src/utils/http_client.rs`: `post` is abstract. Each consumer step takes the transport's verdict as the `delivered` input. `HttpClient::new` failing at start-up, which is an `expect` panic, is not modelled.
- `FramePipeline.AttemptCarriesOneFrame` and `FramePipeline.UploadRequest` promise the read-back only for frames whose bytes do not contain the boundary delimiter. The firmware never checks a frame against its fixed boundary, so a body whose frame contains the delimiter is not covered: a reader would cut that part short.
- The multipart field name, a Rust `&str`, is taken as its UTF-8 bytes. The builder's fixed strings are ASCII.
- `api/cmd/api/lib/yolo_rs/src/lib.rs` and `bindings.h` are C FFI and ONNX inference. The inference call is represented by the `FileRead` its output file gives to `ImageBuffer.Add`. A nil result becomes an empty path, which fails to open; that is `OpenError`.
- Freeing models and C strings is not modelled.
- `saveImage`, base64, the SSE output of `streamHandler` and `http.ListenAndServe` are Go standard-library I/O. Only the stream handler's receive-or-timeout on the channel is modelled, as `Channel.TryReceive`.
- `ParseMultipartForm`, `FormFile` and `ReadAll` are represented by their outcome (`UploadForm`). `MaxMemory` (10 << 20) is recorded as a constant but is not a size limit in the model. The 10 << 20 value only decides what goes to temporary files.
- HTTP status codes and bodies are modelled. Other response headers, such as Go's `X-Content-Type-Options`, are not.
- Routing by `ServeMux` is modelled only for /post. /stream and unknown paths are not modelled.
- A worker's panic is modelled as the outcome `Panicked`, after the deferred function has run. The model does not cover what the end of the process does to other goroutines or requests in flight.
- `ApiServer.ModelPool.Serve`: a worker that finds its slice empty waits on the condition variable forever. Nothing grows a worker's by-value slice, so the model reports `WaitingForModel` and frees the lock instead of modelling the wait. `LoadModels` proves the pool `main` builds is never empty.
- `VideoSocket.ReceiveLoop`: `cnt` is an `i32` in the source (`api/src/handlers/websocket.rs:41`). The model counts with an unbounded `nat`. The wrap-around of a release build, or the overflow panic of a debug build, after 2^31-1 messages is not modelled.
- `video_ws_handler` (upgrade, user agent, address) only logs. A panic of the receive task, the `Err` arm of `tokio::select!`, is not modelled.
- `embedded/flasher/main.go`, `embedded/build.rs`, `embedded/src/lib.rs` and `embedded/src/configs/mod.rs` are tooling, build-time checks and re-exports.
- Logging (`info!`, `warn!`, `log.Println`, `println!`) is not modelled.
