/**
 * The Go inference server (api/cmd/api/main.go).
 *
 * An upload to /post is checked and answered at once; a worker goroutine then
 * takes an inference model from the pool, runs it on the image, hands the
 * resulting file to the ImageBuffer and gives the model back. The ImageBuffer
 * keeps the last two images in a two-slot ring and offers each one to a
 * channel of capacity 2 without blocking; the /stream handler drains that
 * channel. Every handler is wrapped by the CORS middleware.
 *
 * Files, HTTP objects and the inference call are inputs: a FileRead says what
 * opening and reading a file gave, an UploadForm what parsing the request
 * gave. Each locked critical section is one atomic method call.
 */
module ApiServer {

  import opened Common

  type Image = seq<byte>

  /** The number of ring slots and the channel's capacity (main.go line 32). */
  const BufferSize: nat := 2

  /** What `os.Open` followed by `io.ReadAll` gave for the path a worker passes to Add. */
  datatype FileRead = OpenError | ReadError | Read(data: Image)

  // ---------------------------------------------------------------------
  // Specification of the image buffer.

  /** The ring's two slots, its write index and the images waiting in the channel. */
  datatype BufferState = BufferState(slots: seq<Image>, index: int, queued: seq<Image>)

  /** NewImageBuffer: two empty slots, index 0, an empty channel. */
  function InitialBuffer(): BufferState {
    BufferState([[], []], 0, [])
  }

  ghost predicate BufferInv(b: BufferState) {
    |b.slots| == BufferSize && 0 <= b.index < BufferSize && |b.queued| <= BufferSize
  }

  /** The non-blocking send: a full channel drops the new image. */
  function Offer(queued: seq<Image>, img: Image): seq<Image> {
    if |queued| < BufferSize then queued + [img] else queued
  }

  /**
   * One call of ImageBuffer.Add (main.go lines 49-76). It keeps the index in
   * [0, 2) and the channel within its capacity. A failed open or read changes
   * nothing; a successful one overwrites only the slot at the old index,
   * advances the index by one modulo 2, and leaves the images already queued
   * as they were.
   */
  function AddSpec(b: BufferState, read: FileRead): (r: BufferState)
    requires BufferInv(b)
    ensures BufferInv(r)
    ensures !read.Read? ==> r == b
    ensures read.Read? ==>
              && r.slots[b.index] == read.data
              && r.slots[1 - b.index] == b.slots[1 - b.index]
              && r.index == (b.index + 1) % BufferSize
              && b.queued <= r.queued
  {
    match read
    case Read(img) => BufferState(b.slots[b.index := img], (b.index + 1) % BufferSize, Offer(b.queued, img))
    case _ => b
  }

  /** A series of Add calls, the last one last. */
  function AddAll(b: BufferState, results: seq<FileRead>): (r: BufferState)
    requires BufferInv(b)
    ensures BufferInv(r)
    decreases |results|
  {
    if results == [] then b
    else
      AddSpec(AddAll(b, results[..|results| - 1]), results[|results| - 1])
  }

  /** The images among a series of reads, in order. */
  function Images(results: seq<FileRead>): seq<Image>
    decreases |results|
  {
    if results == [] then []
    else
      var last := results[|results| - 1];
      Images(results[..|results| - 1]) + (if last.Read? then [last.data] else [])
  }

  /**
   * From a new buffer and with nobody draining the channel: the index counts
   * the stored images modulo 2, the slots hold the last two images, and the
   * channel holds the first two, every later image having been dropped.
   */
  lemma {:induction false} AddAllFromNew(results: seq<FileRead>)
    ensures var r := AddAll(InitialBuffer(), results);
            var imgs := Images(results);
            && BufferInv(r)
            && r.index == |imgs| % BufferSize
            && (|imgs| >= 1 ==> r.slots[(|imgs| - 1) % BufferSize] == imgs[|imgs| - 1])
            && (|imgs| >= 2 ==> r.slots[(|imgs| - 2) % BufferSize] == imgs[|imgs| - 2])
            && r.queued == imgs[..if |imgs| < BufferSize then |imgs| else BufferSize]
    decreases |results|
  {
    if results != [] {
      var init := results[..|results| - 1];
      var last := results[|results| - 1];
      AddAllFromNew(init);
      var before := AddAll(InitialBuffer(), init);
      var imgs := Images(init);
      if last.Read? {
        assert Images(results) == imgs + [last.data];
        var n := |imgs|;
        assert before.index == n % BufferSize;
        if n < BufferSize {
          assert (imgs + [last.data])[..n + 1] == imgs[..n] + [last.data];
        } else {
          assert (imgs + [last.data])[..BufferSize] == imgs[..BufferSize];
        }
      } else {
        assert Images(results) == imgs;
      }
    }
  }

  // ---------------------------------------------------------------------
  // The channel and the ring.

  /** A buffered Go channel of images. */
  class Channel {
    var items: seq<Image>
    const capacity: nat

    constructor (capacity: nat)
      ensures this.capacity == capacity && items == []
    {
      this.capacity := capacity;
      items := [];
    }

    /** `select` with a send case and a `default` case: a full channel keeps its images. */
    method TrySend(img: Image) returns (sent: bool)
      modifies this
      ensures sent <==> |old(items)| < capacity
      ensures items == if sent then old(items) + [img] else old(items)
    {
      if |items| < capacity {
        items := items + [img];
        sent := true;
      } else {
        sent := false;
      }
    }

    /**
     * The stream handler's `select` between a receive and a timeout: the
     * oldest image if there is one, and None when the timeout case wins on
     * an empty channel.
     */
    method TryReceive() returns (img: Option<Image>)
      modifies this
      ensures old(items) == [] ==> img == None && items == []
      ensures old(items) != [] ==> img == Some(old(items)[0]) && items == old(items)[1..]
    {
      if items == [] {
        img := None;
      } else {
        img := Some(items[0]);
        items := items[1..];
      }
    }
  }

  class ImageBuffer {
    const buffer: array<Image>
    var index: int
    const ch: Channel

    ghost function Abs(): BufferState
      reads this, buffer, ch
    {
      BufferState(buffer[..], index, ch.items)
    }

    ghost predicate Valid()
      reads this, buffer, ch
    {
      buffer.Length == BufferSize && ch.capacity == BufferSize && BufferInv(Abs())
    }

    /** NewImageBuffer (main.go lines 41-47). */
    constructor ()
      ensures Valid() && Abs() == InitialBuffer()
      ensures fresh(buffer) && fresh(ch)
    {
      buffer := new Image[BufferSize](_ => []);
      index := 0;
      ch := new Channel(BufferSize);
      new;
      assert buffer[..] == [[], []];
    }

    /** Add, under the buffer's own mutex (main.go lines 49-76). */
    method Add(read: FileRead)
      requires Valid()
      modifies this, buffer, ch
      ensures Valid()
      ensures Abs() == AddSpec(old(Abs()), read)
    {
      match read {
        case OpenError =>
          return;
        case ReadError =>
          return;
        case Read(image) =>
          buffer[index] := image;
          index := (index + 1) % BufferSize;
          var _ := ch.TrySend(image);
      }
    }

    /** GetChannel (main.go lines 78-80): every caller receives from the one channel. */
    method GetChannel() returns (c: Channel)
      ensures c == ch
    {
      c := ch;
    }
  }

  // ---------------------------------------------------------------------
  // The model pool.

  /** A `*C.YOLOv8`: nil, or a loaded model. */
  datatype ModelRef = Nil | Ref(id: nat)

  /** The pool `models` and whether `modelsMutex` is held. */
  datatype PoolState = PoolState(models: seq<ModelRef>, locked: bool)

  datatype WorkerOutcome = BlockedOnLock | WaitingForModel | NilModel | Panicked | Processed(model: ModelRef)

  /**
   * One worker goroutine (main.go lines 127-161), on the pool it is handed
   * and the uploaded bytes. A held lock blocks it; an empty pool keeps it
   * waiting on the condition variable, which releases the lock; a nil last
   * model ends it with the lock still held. Otherwise it takes the last model
   * and defers giving it back and unlocking; an empty upload then makes
   * `&fileBuffer[0]` panic, the deferred function runs and the unrecovered
   * panic ends the server; any other upload runs to the end and unlocks.
   * The goroutine receives the slice by value, so its take and return never
   * change the pool itself.
   */
  function Worker(p: PoolState, upload: Image): (r: (PoolState, WorkerOutcome))
    ensures r.0.models == p.models
    ensures !p.locked ==> (r.0.locked <==> r.1 == NilModel)
    ensures r.1 == NilModel <==> !p.locked && p.models != [] && p.models[|p.models| - 1] == Nil
    ensures r.1 == Panicked <==> !p.locked && p.models != [] && p.models[|p.models| - 1] != Nil && upload == []
    ensures r.1.Processed? ==> p.models != [] && r.1.model == p.models[|p.models| - 1] && r.1.model != Nil && upload != []
  {
    if p.locked then (p, BlockedOnLock)
    else if p.models == [] then (p, WaitingForModel)
    else
      var model := p.models[|p.models| - 1];
      if model == Nil then (p.(locked := true), NilModel)
      else if upload == [] then (p, Panicked)
      else (p, Processed(model))
  }

  /**
   * The outcomes of the workers of a series of uploads, run one after the
   * other; a panic ends the server, so no worker follows it.
   */
  function Workers(p: PoolState, uploads: seq<Image>): (r: seq<WorkerOutcome>)
    ensures |r| <= |uploads|
    ensures forall k :: 0 <= k < |r| - 1 ==> r[k] != Panicked
    ensures |r| < |uploads| ==> r != [] && r[|r| - 1] == Panicked
    decreases |uploads|
  {
    if uploads == [] then []
    else
      var step := Worker(p, uploads[0]);
      if step.1 == Panicked then [Panicked] else [step.1] + Workers(step.0, uploads[1..])
  }

  /** The pool `main` builds: max(NumCPU - 1, 1) models (main.go lines 203-206). */
  function PoolSize(numCPU: int): (n: nat)
    ensures n >= 1 && n >= numCPU - 1
    ensures n == 1 || n == numCPU - 1
  {
    if numCPU - 1 < 1 then 1 else numCPU - 1
  }

  ghost predicate NoNil(models: seq<ModelRef>) {
    forall i :: 0 <= i < |models| ==> models[i] != Nil
  }

  /**
   * After a worker meets a nil model, the mutex is never unlocked again:
   * every later upload's worker blocks on Lock.
   */
  lemma {:induction false} NilModelBlocksLaterWorkers(p: PoolState, uploads: seq<Image>)
    requires uploads != []
    requires Worker(p, uploads[0]).1 == NilModel
    ensures |Workers(p, uploads)| == |uploads| && Workers(p, uploads)[0] == NilModel
    ensures forall k :: 1 <= k < |uploads| ==> Workers(p, uploads)[k] == BlockedOnLock
  {
    var q := Worker(p, uploads[0]).0;
    AllBlocked(q, uploads[1..]);
    assert Workers(p, uploads) == [NilModel] + Workers(q, uploads[1..]);
  }

  lemma {:induction false} AllBlocked(q: PoolState, uploads: seq<Image>)
    requires q.locked
    ensures |Workers(q, uploads)| == |uploads|
    ensures forall k :: 0 <= k < |uploads| ==> Workers(q, uploads)[k] == BlockedOnLock
    decreases |uploads|
  {
    if uploads != [] {
      AllBlocked(q, uploads[1..]);
      assert Workers(q, uploads) == [BlockedOnLock] + Workers(q, uploads[1..]);
    }
  }

  /**
   * On the pool `main` builds (no nil model, since a nil load is fatal, and
   * at least one model) with the lock free, the worker of every non-empty
   * upload runs to the end with the same last model and leaves the lock
   * free; the first empty upload panics and ends the server.
   */
  lemma {:induction false} LoadedPoolServesEveryUpload(models: seq<ModelRef>, uploads: seq<Image>)
    requires models != [] && NoNil(models)
    ensures var w := Workers(PoolState(models, false), uploads);
            && (forall k :: 0 <= k < |w| ==>
                  w[k] == if uploads[k] == [] then Panicked else Processed(models[|models| - 1]))
            && (forall k :: 0 <= k < |w| - 1 ==> w[k] != Panicked)
            && (|w| == |uploads| || (w != [] && w[|w| - 1] == Panicked))
    decreases |uploads|
  {
    var p := PoolState(models, false);
    var last := models[|models| - 1];
    if uploads != [] {
      var o := if uploads[0] == [] then Panicked else Processed(last);
      assert Worker(p, uploads[0]) == (p, o);
      if o != Panicked {
        var rest := Workers(p, uploads[1..]);
        LoadedPoolServesEveryUpload(models, uploads[1..]);
        assert Workers(p, uploads) == [o] + rest;
        forall k | 1 <= k < |rest| + 1
          ensures Workers(p, uploads)[k] == if uploads[k] == [] then Panicked else Processed(last)
        {
          assert Workers(p, uploads)[k] == rest[k - 1] && uploads[k] == uploads[1..][k - 1];
        }
      }
    }
  }

  /**
   * An empty file is uploaded successfully: handlePost answers 200 and hands
   * the zero bytes to a worker, whose `&fileBuffer[0]` then panics. On the
   * pool `main` builds this ends the server.
   */
  lemma EmptyUploadEndsServer(models: seq<ModelRef>)
    requires models != [] && NoNil(models)
    ensures var r := ServePost("POST", FileData([]));
            r.1.Some? && r.1.value.response.status == 200 && r.1.value.worker == Some([])
    ensures Workers(PoolState(models, false), [[]]) == [Panicked]
  {
    assert models[|models| - 1] != Nil;
  }

  /**
   * The loading loop of `main` (main.go lines 213-220), with the models
   * `load_model` returns as input. A nil model ends the program (None).
   */
  method LoadModels(numCPU: int, loads: seq<ModelRef>) returns (pool: Option<seq<ModelRef>>)
    requires |loads| >= PoolSize(numCPU)
    ensures pool.Some? <==> NoNil(loads[..PoolSize(numCPU)])
    ensures pool.Some? ==> pool.value == loads[..PoolSize(numCPU)] && pool.value != []
  {
    var n := PoolSize(numCPU);
    var models: seq<ModelRef> := [];
    var i := 0;
    while i < n
      invariant 0 <= i <= n
      invariant models == loads[..i]
      invariant NoNil(models)
    {
      if loads[i] == Nil {
        assert loads[..n][i] == Nil;
        return None;
      }
      models := models + [loads[i]];
      i := i + 1;
    }
    return Some(models);
  }

  /** The model pool and its mutex. */
  class ModelPool {
    var models: seq<ModelRef>
    var locked: bool

    /** The pool `main` fills, with the mutex free. */
    constructor (models: seq<ModelRef>)
      ensures State() == PoolState(models, false)
    {
      this.models := models;
      locked := false;
    }

    /** The pool holds what `LoadModels` guarantees: at least one model, and no nil. */
    ghost predicate Loaded()
      reads this
    {
      models != [] && NoNil(models)
    }

    ghost function State(): PoolState
      reads this
    {
      PoolState(models, locked)
    }

    /**
     * One worker goroutine for the uploaded bytes `upload`, against the image
     * buffer; `result` is what opening and reading the file the inference
     * call wrote gives. The worker's own slice is `local`: it takes the last
     * model off it and the deferred function appends it back, so after a
     * take it ends as it started.
     */
    method Serve(img: ImageBuffer, upload: Image, result: FileRead) returns (outcome: WorkerOutcome, local: seq<ModelRef>)
      requires img.Valid()
      modifies this, img, img.buffer, img.ch
      ensures (State(), outcome) == Worker(old(State()), upload)
      ensures outcome.Processed? || outcome == Panicked ==> local == models
      ensures old(Loaded()) && !old(locked) ==> Loaded() && !locked && (outcome.Processed? || outcome == Panicked)
      ensures img.Valid()
      ensures img.Abs() == if outcome.Processed? then AddSpec(old(img.Abs()), result) else old(img.Abs())
    {
      local := models;
      if locked {
        outcome := BlockedOnLock;
        return;
      }
      locked := true;
      if |local| == 0 {
        // modelsCond.Wait releases the lock; nothing ever grows this slice
        locked := false;
        outcome := WaitingForModel;
        return;
      }
      var model := local[|local| - 1];
      if model == Nil {
        // returns without the deferred append and unlock
        outcome := NilModel;
        return;
      }
      local := local[..|local| - 1];
      if |upload| == 0 {
        // `&fileBuffer[0]` panics: the deferred function runs, then the
        // unrecovered panic ends the process
        local := local + [model];
        locked := false;
        outcome := Panicked;
        return;
      }
      img.Add(result);
      // the deferred function
      local := local + [model];
      locked := false;
      outcome := Processed(model);
    }
  }

  // ---------------------------------------------------------------------
  // Request handling.

  /** What parsing an upload gave, in the order handlePost tries the steps. */
  datatype UploadForm = ParseError | NoFileField | FileReadError | FileData(data: Image)

  /** The `maxMemory` handed to ParseMultipartForm: 10 << 20 bytes (main.go line 105). */
  const MaxMemory: nat := 10 * 1048576

  const SuccessBody: string := "{\"message\": \"Imagem salva com sucesso!\"}"

  datatype Response = Response(status: nat, contentType: string, body: string)

  /** http.Error: a plain-text body of the message and a newline. */
  function ErrorResponse(message: string, status: nat): Response {
    Response(status, "text/plain; charset=utf-8", message + "\n")
  }

  /** The answer of handlePost and the image handed to a new worker, if any. */
  datatype PostResult = PostResult(response: Response, worker: Option<Image>)

  /** handlePost (main.go lines 99-166). */
  function HandlePost(httpMethod: string, form: UploadForm): (r: PostResult)
    ensures r.response.status == 405 <==> httpMethod != "POST"
    ensures r.response.status == 400 <==> httpMethod == "POST" && (form.ParseError? || form.NoFileField?)
    ensures r.response.status == 500 <==> httpMethod == "POST" && form.FileReadError?
    ensures r.response.status == 200 <==> httpMethod == "POST" && form.FileData?
    ensures r.worker.Some? <==> r.response.status == 200
    ensures r.worker.Some? ==> r.worker.value == form.data && r.response.body == SuccessBody
  {
    if httpMethod != "POST" then PostResult(ErrorResponse("Método não suportado", 405), None)
    else match form
      case ParseError => PostResult(ErrorResponse("Erro ao fazer o parse do form-data", 400), None)
      case NoFileField => PostResult(ErrorResponse("Erro ao obter o arquivo", 400), None)
      case FileReadError => PostResult(ErrorResponse("Erro ao ler o arquivo", 500), None)
      case FileData(data) => PostResult(Response(200, "application/json", SuccessBody), Some(data))
  }

  /** The three headers the CORS middleware sets (main.go lines 190-192). */
  function CorsHeaders(): map<string, string> {
    map["Access-Control-Allow-Origin" := "*",
        "Access-Control-Allow-Methods" := "POST, GET, OPTIONS, PUT, DELETE",
        "Access-Control-Allow-Headers" := "Content-Type"]
  }

  /** The response headers after the middleware and how many times it calls `next`. */
  datatype CorsResult = CorsResult(headers: map<string, string>, nextCalls: nat)

  /** corsMiddleware (main.go lines 188-200). */
  function Cors(httpMethod: string, headers: map<string, string>): (r: CorsResult)
    ensures forall k :: k in CorsHeaders() ==> k in r.headers && r.headers[k] == CorsHeaders()[k]
    ensures forall k :: k in headers && k !in CorsHeaders() ==> k in r.headers && r.headers[k] == headers[k]
    ensures r.headers.Keys == headers.Keys + CorsHeaders().Keys
    ensures r.nextCalls == 0 <==> httpMethod == "OPTIONS"
    ensures r.nextCalls <= 1
  {
    CorsResult(headers + CorsHeaders(), if httpMethod == "OPTIONS" then 0 else 1)
  }

  /** Header().Set overwrites, so wrapping twice sets the same headers as wrapping once. */
  lemma CorsIdempotent(httpMethod: string, headers: map<string, string>)
    ensures Cors(httpMethod, Cors(httpMethod, headers).headers).headers == Cors(httpMethod, headers).headers
  {
  }

  /**
   * The server's handler for /post: the CORS middleware around handlePost
   * (main.go lines 231 and 234). A preflight never reaches handlePost and
   * spawns no worker; any other method gets handlePost's answer with the
   * CORS headers on it.
   */
  function ServePost(httpMethod: string, form: UploadForm): (r: (CorsResult, Option<PostResult>))
    ensures r.0.nextCalls == 0 <==> r.1.None?
  {
    var c := Cors(httpMethod, map[]);
    (c, if c.nextCalls == 0 then None else Some(HandlePost(httpMethod, form)))
  }

  lemma PreflightSpawnsNoWorker(form: UploadForm)
    ensures ServePost("OPTIONS", form).1 == None
    ensures ServePost("OPTIONS", form).0.headers == CorsHeaders()
  {
  }

  lemma UploadReachesWorker(data: Image)
    ensures var r := ServePost("POST", FileData(data));
            r.1.Some? && r.1.value.response.status == 200 && r.1.value.worker == Some(data)
            && r.0.headers == CorsHeaders()
  {
  }
}
