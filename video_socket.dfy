/**
 * The video WebSocket handler of the Rust API (api/src/handlers/websocket.rs).
 *
 * After the upgrade the handler pings the client once; if that send fails it
 * closes at once. Otherwise a task receives messages, counting each one, until
 * a message tells it to stop (a Close), the stream ends, or receiving fails.
 * The connection is the sequence of receive results it will deliver; its end
 * is the end of that sequence.
 */
module VideoSocket {

  import opened Common

  datatype CloseFrame = CloseFrame(code: nat, reason: string)

  datatype Message =
    | Text(text: string)
    | Binary(data: seq<byte>)
    | Ping(payload: seq<byte>)
    | Pong(payload: seq<byte>)
    | Close(frame: Option<CloseFrame>)

  datatype ControlFlow = Continue | Break

  /** One result of `socket.recv()` that is not the end of the stream. */
  datatype Received = Ok(msg: Message) | Err(error: string)

  /**
   * process_message (websocket.rs lines 65-96): a Close, with or without a
   * close frame, stops the receive loop; every other kind lets it go on.
   */
  function ProcessMessage(msg: Message): (r: ControlFlow)
    ensures r == Break <==> msg.Close?
    ensures msg.Text? || msg.Binary? || msg.Ping? || msg.Pong? ==> r == Continue
  {
    match msg
    case Close(_) => Break
    case _ => Continue
  }

  /** The number of messages the receive task counts on a stream. */
  function Count(stream: seq<Received>): (n: nat)
    ensures n <= |stream|
    decreases |stream|
  {
    if stream == [] || stream[0].Err? then 0
    else if ProcessMessage(stream[0].msg) == Break then 1
    else 1 + Count(stream[1..])
  }

  /**
   * What the count means: it is at most the stream's length; every result
   * before it is a message, and none but the last of them is a Close; and the
   * loop stopped for one of its three reasons, the end of the stream, an
   * error, or a Close that is itself counted.
   */
  lemma {:induction false} CountStopsAtFirstBreak(stream: seq<Received>)
    ensures Count(stream) <= |stream|
    ensures forall i :: 0 <= i < Count(stream) ==> stream[i].Ok?
    ensures forall i :: 0 <= i < Count(stream) - 1 ==> !stream[i].msg.Close?
    ensures || Count(stream) == |stream|
            || stream[Count(stream)].Err?
            || (Count(stream) > 0 && stream[Count(stream) - 1].msg.Close?)
    decreases |stream|
  {
    if stream != [] && stream[0].Ok? && !stream[0].msg.Close? {
      CountStopsAtFirstBreak(stream[1..]);
      assert forall i :: 1 <= i < |stream| ==> stream[i] == stream[1..][i - 1];
    }
  }

  /** Messages after the point where the loop stops are never looked at. */
  lemma {:induction false} CountIgnoresRest(stream: seq<Received>, rest: seq<Received>)
    requires stream != [] && (stream[|stream| - 1].Err? || stream[|stream| - 1].msg.Close?)
    ensures Count(stream + rest) == Count(stream)
    decreases |stream|
  {
    if stream[0].Ok? && !stream[0].msg.Close? {
      assert |stream| > 1;
      assert (stream + rest)[1..] == stream[1..] + rest;
      CountIgnoresRest(stream[1..], rest);
    }
  }

  /** The receive task (websocket.rs lines 40-50). */
  method ReceiveLoop(stream: seq<Received>) returns (cnt: nat)
    ensures cnt == Count(stream)
  {
    cnt := 0;
    var i := 0;
    while i < |stream| && stream[i].Ok?
      invariant 0 <= i <= |stream|
      invariant cnt == i
      invariant Count(stream) == i + Count(stream[i..])
      decreases |stream| - i
    {
      assert stream[i..][1..] == stream[i + 1..];
      cnt := cnt + 1;
      if ProcessMessage(stream[i].msg).Break? {
        return;
      }
      i := i + 1;
    }
  }

  /**
   * handle_video_socket (websocket.rs lines 29-63): when the initial ping
   * cannot be sent nothing is received (None); otherwise the number of
   * messages the receive task counted.
   */
  method HandleVideoSocket(pingSent: bool, stream: seq<Received>) returns (received: Option<nat>)
    ensures received.None? <==> !pingSent
    ensures pingSent ==> received == Some(Count(stream))
  {
    if !pingSent {
      return None;
    }
    var cnt := ReceiveLoop(stream);
    received := Some(cnt);
  }
}
