/** One server stream: what the fetcher makes of it, and what an honest server puts on it
    (client/client_stream.go, client/interface.go). */
module Streams {
  import opened ByteStrings
  import opened Wrappers
  import opened Rpc

  datatype StreamErr = StreamErr(closeErr: Option<Bytes>, cancelReason: Bytes) {
    function Err(): Option<Bytes> {
      match closeErr
      case Some(e) => Some(e)
      case None => if cancelReason != [] then Some(cancelReason) else None
    }
  }

  /** What the client hands to its caller. */
  datatype Response = Response(range: Option<RangeResponse>, streamErr: StreamErr) {
    predicate Failed() {
      streamErr.Err().Some?
    }

    /** The pairs that a consumer takes from a response; none from a failed one. */
    function Pairs(): seq<KeyValue> {
      if range.None? || Failed() then [] else range.value.kvs
    }
  }

  /** A message of the RPC stream. */
  datatype Message = Message(range: Option<RangeResponse>, err: Bytes)

  datatype StreamEnd = Eof | RecvFailed(err: Bytes)

  /** All that one RangeStream call will do: it cannot be opened, or it carries messages and then ends. */
  datatype Stream = OpenFailed(err: Bytes) | Opened(messages: seq<Message>, end: StreamEnd)

  function FromRpcErr(err: Bytes): Response {
    Response(None, StreamErr(Some(err), []))
  }

  function FromMessage(m: Message): Response {
    Response(m.range, StreamErr(None, m.err))
  }

  /** The responses that a stream puts on its channel before the channel closes. */
  function Yield(s: Stream): seq<Response> {
    match s
    case OpenFailed(err) => [FromRpcErr(err)]
    case Opened(ms, Eof) => seq(|ms|, i requires 0 <= i < |ms| => FromMessage(ms[i]))
    case Opened(ms, RecvFailed(err)) =>
      seq(|ms|, i requires 0 <= i < |ms| => FromMessage(ms[i])) + [FromRpcErr(err)]
  }

  predicate Clean(rs: seq<Response>) {
    forall i :: 0 <= i < |rs| ==> !rs[i].Failed()
  }

  function PairsOf(rs: seq<Response>): seq<KeyValue> {
    if rs == [] then [] else PairsOf(rs[..|rs| - 1]) + rs[|rs| - 1].Pairs()
  }

  /** The server's promise: error-free responses carry the answer from its front, all of it before end of stream. */
  ghost predicate Honest(s: Stream, answer: seq<KeyValue>) {
    var y := Yield(s);
    && (forall k :: 0 <= k <= |y| && Clean(y[..k]) ==> PairsOf(y[..k]) <= answer)
    && (Clean(y) ==> PairsOf(y) == answer)
  }

  /** Receives until the stream ends and forwards every message, then at most one receive error. Response k carries the
      range of message k, and has failed exactly if that message has an error text, which it then reports. */
  method FetchStreamRangeResp(ms: seq<Message>, end: StreamEnd) returns (output: seq<Response>)
    ensures output == Yield(Opened(ms, end))
    ensures |output| == |ms| + if end.RecvFailed? then 1 else 0
    ensures forall k :: 0 <= k < |ms| ==>
      output[k].range == ms[k].range
      && output[k].streamErr.Err() == if ms[k].err == [] then None else Some(ms[k].err)
    ensures end.RecvFailed? ==> output[|ms|].range == None && output[|ms|].streamErr.Err() == Some(end.err)
  {
    output := [];
    var next := 0;
    while true
      invariant 0 <= next <= |ms|
      invariant output == seq(next, i requires 0 <= i < next => FromMessage(ms[i]))
      decreases |ms| - next
    {
      if next == |ms| && end.Eof? {
        break;
      } else if next == |ms| {
        output := output + [FromRpcErr(end.err)];
        break;
      }
      output := output + [FromMessage(ms[next])];
      next := next + 1;
    }
  }

  /** What the server sent, message by message, with no error of its own or of the connection. */
  predicate EndedWell(s: Stream) {
    s.Opened? && s.end.Eof? && forall k :: 0 <= k < |s.messages| ==> s.messages[k].err == []
  }

  /** The responses carry no failure exactly if the stream was opened, no message reports an error and the end of stream
      was reached. */
  lemma CleanIff(s: Stream)
    ensures Clean(Yield(s)) <==> EndedWell(s)
  {
    var y := Yield(s);
    if s.OpenFailed? {
      assert y[0].Failed();
    } else {
      if s.end.RecvFailed? {
        assert y[|s.messages|].Failed();
      }
      forall k | 0 <= k < |s.messages| ensures y[k].Failed() <==> s.messages[k].err != [] {
        assert y[k] == FromMessage(s.messages[k]);
      }
    }
  }
}
