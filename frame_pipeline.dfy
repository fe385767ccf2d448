/**
 * The capture/upload pipeline of the camera firmware (embedded/src/main.rs).
 *
 * A producer loop (the end of `main`) and a consumer loop (`send_images`)
 * share a FIFO of frames behind one mutex. Every critical section is one
 * atomic step here, so any interleaving of the two threads is a sequence of
 * Step values:
 *   - Produce: with the queue at 5 frames or more the producer notifies and
 *     starts over without asking the camera; otherwise it asks the camera once
 *     and pushes the frame it gets, if any, at the back;
 *   - Consume(delivered): with an empty queue the consumer waits on the
 *     condition variable; otherwise it pops the front frame, releases the
 *     lock, encodes that one frame and posts it once. `delivered` is the
 *     transport's answer; on failure the consumer sleeps 5000 ms and moves on
 *     to the next frame, so no frame is sent twice.
 *
 * The pure State/Produce/Consume/Run functions specify the steps; the Device
 * class is the imperative model whose methods are proved against them.
 */
module FramePipeline {

  import opened Common
  import opened MultipartForm

  type Frame = seq<byte>

  /** The producer skips the camera once the queue holds this many frames (main.rs line 150). */
  const Capacity: nat := 5

  /** The sleep after a failed POST, in milliseconds (main.rs line 71). */
  const RetryDelayMs: nat := 5000

  /** The build-time configuration of the firmware and its defaults (main.rs lines 27-39). */
  datatype Config = Config(wifiSsid: string, wifiPsk: string, serverUrl: string,
                           useFlash: bool, flashBrightness: byte)

  const DefaultConfig: Config := Config("WifiName", "WifiPassword", "", false, 32)

  datatype Request = Request(uri: string, headers: seq<(string, string)>, body: seq<byte>)

  /** One POST of the consumer and whether the transport reported success. */
  datatype Attempt = Attempt(request: Request, delivered: bool)

  /** The form field the frame is posted under. */
  function FileField(): seq<byte> {
    Ascii("file")
  }

  /**
   * The request the consumer sends for one frame (main.rs lines 46-49 and
   * 65-67). Its body reads back as one part named `file` holding exactly the
   * frame, whenever the frame holds no boundary delimiter.
   */
  function UploadRequest(serverUrl: string, frame: Frame): (r: Request)
    ensures DelimiterFree(frame) ==> ParseSinglePart(r.body) == Some(Part(FileField(), frame))
  {
    FrameReadsBack(frame);
    Request(serverUrl + "/post", [("Content-type", ContentType)], EncodeFile(FileField(), frame))
  }

  lemma FrameReadsBack(frame: Frame)
    ensures DelimiterFree(frame) ==> ParseSinglePart(EncodeFile(FileField(), frame)) == Some(Part(FileField(), frame))
  {
    if DelimiterFree(frame) {
      assert Quote !in FileField() by {
        var field := "file";
        assert field[0] == 'f' && field[1] == 'i' && field[2] == 'l' && field[3] == 'e';
      }
      RoundTrip(FileField(), frame);
    }
  }

  // ---------------------------------------------------------------------
  // Specification: the shared state and the atomic steps.

  /**
   * `queue` is the shared VecDeque; `sensor` the answers the camera will give
   * to its next calls (an exhausted script answers None); `accepted`,
   * `uploaded` and `attempts` are the histories of pushed frames, popped
   * frames and POST requests.
   */
  datatype State = State(queue: seq<Frame>, sensor: seq<Option<Frame>>, accepted: seq<Frame>,
                         uploaded: seq<Frame>, attempts: seq<Attempt>)

  datatype Step = Produce | Consume(delivered: bool)

  function Init(sensor: seq<Option<Frame>>): State {
    State([], sensor, [], [], [])
  }

  /** The camera's next answer and the script it leaves. */
  function NextAnswer(sensor: seq<Option<Frame>>): (Option<Frame>, seq<Option<Frame>>) {
    if sensor == [] then (None, []) else (sensor[0], sensor[1..])
  }

  /**
   * One iteration of the producer loop (main.rs lines 149-162). On a full
   * queue it changes nothing and leaves the camera unasked; otherwise it asks
   * the camera exactly once, and a frame it gets goes to the back of the
   * queue, which grows by exactly one.
   */
  function ProduceStep(s: State): (r: State)
    ensures |s.queue| >= Capacity ==> r == s
    ensures |s.queue| < Capacity && s.sensor != [] ==> r.sensor == s.sensor[1..]
    ensures |s.queue| < Capacity && s.sensor != [] && s.sensor[0].Some? ==>
              r.queue == s.queue + [s.sensor[0].value] && |r.queue| == |s.queue| + 1
    ensures |s.queue| < Capacity && (s.sensor == [] || s.sensor[0].None?) ==> r.queue == s.queue
    ensures r.uploaded == s.uploaded && r.attempts == s.attempts
  {
    if |s.queue| >= Capacity then s
    else
      var (answer, rest) := NextAnswer(s.sensor);
      match answer
      case None => s.(sensor := rest)
      case Some(frame) => s.(queue := s.queue + [frame], sensor := rest, accepted := s.accepted + [frame])
  }

  /**
   * One iteration of the consumer loop (main.rs lines 53-75). It removes only
   * the front frame, and only from a non-empty queue; whatever the transport
   * answers, the frame is not put back, and the camera is not asked.
   */
  function ConsumeStep(s: State, serverUrl: string, delivered: bool): (r: State)
    ensures s.queue == [] ==> r == s
    ensures s.queue != [] ==>
              && r.queue == s.queue[1..]
              && r.attempts == s.attempts + [Attempt(UploadRequest(serverUrl, s.queue[0]), delivered)]
    ensures r.accepted == s.accepted && r.sensor == s.sensor
  {
    if s.queue == [] then s
    else
      var frame := s.queue[0];
      s.(queue := s.queue[1..], uploaded := s.uploaded + [frame],
         attempts := s.attempts + [Attempt(UploadRequest(serverUrl, frame), delivered)])
  }

  function Apply(s: State, serverUrl: string, step: Step): State {
    match step
    case Produce => ProduceStep(s)
    case Consume(delivered) => ConsumeStep(s, serverUrl, delivered)
  }

  /** An interleaving of the two loops. */
  function Run(s: State, serverUrl: string, steps: seq<Step>): State
    decreases |steps|
  {
    if steps == [] then s else Run(Apply(s, serverUrl, steps[0]), serverUrl, steps[1..])
  }

  /**
   * What every interleaving keeps: the queue bound, FIFO order (the uploaded
   * frames followed by the queued ones are exactly the accepted frames), and
   * one POST per uploaded frame whose body encodes that frame alone.
   */
  ghost predicate Inv(s: State, serverUrl: string) {
    && |s.queue| <= Capacity
    && s.accepted == s.uploaded + s.queue
    && |s.attempts| == |s.uploaded|
    && forall i :: 0 <= i < |s.attempts| ==> s.attempts[i].request == UploadRequest(serverUrl, s.uploaded[i])
  }

  /** The frames among the camera's answers, in order. */
  function Captured(answers: seq<Option<Frame>>): seq<Frame>
    decreases |answers|
  {
    if answers == [] then []
    else (if answers[0].Some? then [answers[0].value] else []) + Captured(answers[1..])
  }

  lemma {:induction false} CapturedConcat(a: seq<Option<Frame>>, b: seq<Option<Frame>>)
    ensures Captured(a + b) == Captured(a) + Captured(b)
    decreases |a|
  {
    if a != [] {
      var head := if a[0].Some? then [a[0].value] else [];
      assert (a + b)[0] == a[0];
      assert (a + b)[1..] == a[1..] + b;
      CapturedConcat(a[1..], b);
      calc {
        Captured(a + b);
        head + Captured(a[1..] + b);
        head + (Captured(a[1..]) + Captured(b));
        (head + Captured(a[1..])) + Captured(b);
      }
    } else {
      assert a + b == b;
    }
  }

  // ---------------------------------------------------------------------
  // Properties of single steps.

  /** After a failed POST the following POST carries the next frame, not the same one again. */
  lemma FailureMovesOn(s: State, serverUrl: string, delivered: bool)
    requires |s.queue| >= 2
    ensures ConsumeStep(ConsumeStep(s, serverUrl, false), serverUrl, delivered).attempts
            == s.attempts + [Attempt(UploadRequest(serverUrl, s.queue[0]), false),
                             Attempt(UploadRequest(serverUrl, s.queue[1]), delivered)]
  {
  }

  lemma ProduceKeepsInv(s: State, serverUrl: string)
    requires Inv(s, serverUrl)
    ensures Inv(ProduceStep(s), serverUrl)
  {
    var r := ProduceStep(s);
    if |s.queue| < Capacity && NextAnswer(s.sensor).0.Some? {
      var frame := NextAnswer(s.sensor).0.value;
      assert r.accepted == s.uploaded + (s.queue + [frame]);
    }
  }

  lemma ConsumeKeepsInv(s: State, serverUrl: string, delivered: bool)
    requires Inv(s, serverUrl)
    ensures Inv(ConsumeStep(s, serverUrl, delivered), serverUrl)
  {
    if s.queue != [] {
      var r := ConsumeStep(s, serverUrl, delivered);
      assert s.uploaded + s.queue == (s.uploaded + [s.queue[0]]) + s.queue[1..];
      forall i | 0 <= i < |r.attempts|
        ensures r.attempts[i].request == UploadRequest(serverUrl, r.uploaded[i])
      {
        if i < |s.attempts| {
          assert r.attempts[i] == s.attempts[i] && r.uploaded[i] == s.uploaded[i];
        }
      }
    }
  }

  // ---------------------------------------------------------------------
  // Properties of whole interleavings.

  /** Every interleaving keeps the invariant: at most 5 frames, FIFO, one POST per frame. */
  lemma {:induction false} RunKeepsInv(s: State, serverUrl: string, steps: seq<Step>)
    requires Inv(s, serverUrl)
    ensures Inv(Run(s, serverUrl, steps), serverUrl)
    decreases |steps|
  {
    if steps != [] {
      match steps[0] {
        case Produce => ProduceKeepsInv(s, serverUrl);
        case Consume(delivered) => ConsumeKeepsInv(s, serverUrl, delivered);
      }
      RunKeepsInv(Apply(s, serverUrl, steps[0]), serverUrl, steps[1..]);
    }
  }

  /**
   * `r` follows from `s` by reading some of the camera's answers in order,
   * accepting exactly the frames among them, and growing the histories.
   */
  ghost predicate ReadsInOrder(s: State, r: State) {
    && |r.sensor| <= |s.sensor|
    && r.sensor == s.sensor[|s.sensor| - |r.sensor|..]
    && r.accepted == s.accepted + Captured(s.sensor[..|s.sensor| - |r.sensor|])
    && s.uploaded <= r.uploaded
    && s.attempts <= r.attempts
  }

  /** One step reads at most one camera answer, and accepts the frame it holds. */
  lemma ApplyReadsCamera(s: State, serverUrl: string, step: Step)
    ensures ReadsInOrder(s, Apply(s, serverUrl, step))
    ensures |Apply(s, serverUrl, step).sensor| + 1 >= |s.sensor|
  {
    var t := Apply(s, serverUrl, step);
    if |t.sensor| < |s.sensor| {
      assert s.sensor[..1] == [s.sensor[0]];
      assert Captured(s.sensor[..1][1..]) == [];
    } else {
      assert s.sensor[..0] == [];
    }
  }

  lemma ReadsInOrderTransitive(s: State, t: State, r: State)
    requires ReadsInOrder(s, t) && ReadsInOrder(t, r)
    ensures ReadsInOrder(s, r)
  {
    var read := |s.sensor| - |t.sensor|;
    var later := |t.sensor| - |r.sensor|;
    assert s.sensor[..read + later] == s.sensor[..read] + t.sensor[..later];
    CapturedConcat(s.sensor[..read], t.sensor[..later]);
  }

  /**
   * The histories only grow, and the camera's answers are read in order:
   * the frames accepted during an interleaving are exactly the frames among
   * the answers it read.
   */
  lemma {:induction false} RunReadsCameraInOrder(s: State, serverUrl: string, steps: seq<Step>)
    ensures ReadsInOrder(s, Run(s, serverUrl, steps))
    decreases |steps|
  {
    if steps == [] {
      assert s.sensor[..0] == [];
    } else {
      var t := Apply(s, serverUrl, steps[0]);
      ApplyReadsCamera(s, serverUrl, steps[0]);
      RunReadsCameraInOrder(t, serverUrl, steps[1..]);
      ReadsInOrderTransitive(s, t, Run(t, serverUrl, steps[1..]));
    }
  }

  /**
   * FIFO order: in every interleaving from the initial state, the uploaded
   * frames are a prefix of the accepted frames, and every POST body is the
   * multipart encoding of the one frame uploaded at that position.
   */
  lemma UploadsFollowAcceptance(sensor: seq<Option<Frame>>, serverUrl: string, steps: seq<Step>)
    ensures var r := Run(Init(sensor), serverUrl, steps);
            && |r.queue| <= Capacity
            && |r.sensor| <= |sensor|
            && r.uploaded <= r.accepted
            && r.accepted == Captured(sensor[..|sensor| - |r.sensor|])
            && |r.attempts| == |r.uploaded|
            && forall i :: 0 <= i < |r.attempts| ==>
                 r.attempts[i].request.body == EncodeFile(FileField(), r.uploaded[i])
                 && r.attempts[i].request.uri == serverUrl + "/post"
                 && r.attempts[i].request.headers == [("Content-type", ContentType)]
  {
    RunKeepsInv(Init(sensor), serverUrl, steps);
    RunReadsCameraInOrder(Init(sensor), serverUrl, steps);
  }

  /**
   * Reading a POST body back yields exactly one part, named `file`, whose
   * content is the frame, when the frame holds no boundary delimiter.
   */
  lemma AttemptCarriesOneFrame(s: State, serverUrl: string, i: nat)
    requires Inv(s, serverUrl)
    requires i < |s.attempts|
    requires DelimiterFree(s.uploaded[i])
    ensures ParseSinglePart(s.attempts[i].request.body) == Some(Part(FileField(), s.uploaded[i]))
  {
    assert s.attempts[i].request == UploadRequest(serverUrl, s.uploaded[i]);
  }

  /**
   * A full queue never takes a sixth frame: the producer spins without
   * asking the camera until the consumer pops a frame, and the next producer
   * step then takes the camera's next answer, a freshly captured frame.
   */
  lemma FullQueueResamples(s: State, serverUrl: string, f: Frame, delivered: bool)
    requires Inv(s, serverUrl)
    requires |s.queue| == Capacity
    requires s.sensor != [] && s.sensor[0] == Some(f)
    ensures ProduceStep(s) == s
    ensures var r := ProduceStep(ConsumeStep(s, serverUrl, delivered));
            r.queue == s.queue[1..] + [f] && |r.queue| == Capacity
  {
  }

  // ---------------------------------------------------------------------
  // The imperative model.

  /** The camera, as the sequence of answers `get_framebuffer` will give. */
  class Camera {
    var script: seq<Option<Frame>>

    constructor (script: seq<Option<Frame>>)
      ensures this.script == script
    {
      this.script := script;
    }

    method GetFramebuffer() returns (frame: Option<Frame>)
      modifies this
      ensures (frame, script) == NextAnswer(old(script))
    {
      if script == [] {
        frame := None;
      } else {
        frame := script[0];
        script := script[1..];
      }
    }
  }

  datatype ProducerOutcome = QueueFull | Pushed | NoFrame

  datatype ConsumerOutcome = Waiting | Posted(request: Request, delivered: bool, backoffMs: nat)

  /**
   * The shared queue with the consumer's own state: the URI, the header list
   * and the one MultiPartForm it reuses for every frame.
   */
  class Device {
    var queue: seq<Frame>
    const serverUrl: string
    const uri: string
    const headers: seq<(string, string)>
    const form: MultiPartForm
    ghost var accepted: seq<Frame>
    ghost var uploaded: seq<Frame>
    ghost var attempts: seq<Attempt>

    /** The abstract state, together with the camera's remaining answers. */
    ghost function Abs(sensor: seq<Option<Frame>>): State
      reads this
    {
      State(queue, sensor, accepted, uploaded, attempts)
    }

    ghost predicate Valid()
      reads this, form
    {
      && form.Valid()
      && form.form == []
      && uri == serverUrl + "/post"
      && headers == [("Content-type", form.contentType)]
      && Inv(Abs([]), serverUrl)
    }

    /** The two threads' setup: an empty queue, the URI, the header and a new form. */
    constructor (config: Config)
      ensures Valid() && fresh(form)
      ensures serverUrl == config.serverUrl && queue == []
      ensures accepted == [] && uploaded == [] && attempts == []
    {
      serverUrl := config.serverUrl;
      uri := config.serverUrl + "/post";
      var formData := new MultiPartForm();
      form := formData;
      headers := [("Content-type", formData.contentType)];
      queue := [];
      accepted, uploaded, attempts := [], [], [];
    }

    /** One iteration of the producer loop, under the lock. */
    method ProducerStep(cam: Camera) returns (outcome: ProducerOutcome)
      requires Valid()
      modifies this, cam
      ensures Valid()
      ensures Abs(cam.script) == ProduceStep(old(Abs(cam.script)))
      ensures outcome == QueueFull <==> old(|queue|) >= Capacity
      ensures outcome == QueueFull ==> unchanged(cam)
      ensures outcome == Pushed <==> old(|queue|) < Capacity && NextAnswer(old(cam.script)).0.Some?
    {
      if |queue| >= Capacity {
        // notify_one and start over without touching the camera
        outcome := QueueFull;
        return;
      }
      var frame := cam.GetFramebuffer();
      match frame {
        case Some(f) =>
          queue := queue + [f];
          accepted := accepted + [f];
          outcome := Pushed;
        case None =>
          outcome := NoFrame;
      }
      ProduceKeepsInv(old(Abs([])), serverUrl);
    }

    /**
     * One iteration of the consumer loop. With an empty queue the consumer
     * is waiting on the condition variable; otherwise it pops the front
     * frame, builds its body with AddFile and WrapUp and posts it once.
     */
    method ConsumerStep(delivered: bool) returns (outcome: ConsumerOutcome)
      requires Valid()
      modifies this, form
      ensures Valid()
      ensures queue == old(if queue == [] then [] else queue[1..])
      ensures accepted == old(accepted)
      ensures old(queue) == [] ==> uploaded == old(uploaded) && attempts == old(attempts)
      ensures old(queue) != [] ==>
                && uploaded == old(uploaded) + [old(queue[0])]
                && attempts == old(attempts) + [Attempt(UploadRequest(serverUrl, old(queue[0])), delivered)]
      ensures old(queue) == [] ==> outcome == Waiting
      ensures old(queue) != [] ==>
                outcome == Posted(UploadRequest(serverUrl, old(queue[0])), delivered,
                                  if delivered then 0 else RetryDelayMs)
    {
      if queue == [] {
        outcome := Waiting;
        return;
      }
      ConsumeKeepsInv(Abs([]), serverUrl, delivered);
      var imageData := queue[0];
      var body := EncodeFrame(imageData);
      queue := queue[1..];
      uploaded := uploaded + [imageData];
      var request := Request(uri, headers, body);
      assert request == UploadRequest(serverUrl, imageData);
      attempts := attempts + [Attempt(request, delivered)];
      var backoff := if delivered then 0 else RetryDelayMs;
      outcome := Posted(request, delivered, backoff);
    }

    /** `add_file("file", frame)` then `wrap_up` on the reused builder (main.rs lines 65-67). */
    method EncodeFrame(frame: Frame) returns (body: seq<byte>)
      requires Valid()
      modifies form
      ensures Valid()
      ensures body == EncodeFile(FileField(), frame)
    {
      form.AddFile(Ascii("file"), frame);
      assert form.form == OpeningDelimiter() + PartHeader(FileField()) + frame;
      body := form.WrapUp();
    }

    /** Runs an interleaving of the two loops. */
    method RunSteps(cam: Camera, steps: seq<Step>)
      requires Valid()
      modifies this, form, cam
      ensures Valid()
      ensures Abs(cam.script) == Run(old(Abs(cam.script)), serverUrl, steps)
    {
      for i := 0 to |steps|
        invariant Valid()
        invariant Run(Abs(cam.script), serverUrl, steps[i..]) == Run(old(Abs(cam.script)), serverUrl, steps)
      {
        assert steps[i..] == [steps[i]] + steps[i + 1..];
        match steps[i]
        case Produce =>
          var _ := ProducerStep(cam);
        case Consume(delivered) =>
          var _ := ConsumerStep(delivered);
      }
    }
  }
}
