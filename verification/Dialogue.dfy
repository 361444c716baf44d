/** The byte dialogue of one cooperative session: the request frames written so far, and
    the answers the engine's server gives to exactly those frames. */
module Dialogue {
  import opened Words
  import opened Contracts
  import opened Framing
  import opened Protocol
  import opened Server
  import opened Agreement
  import opened SessionSystem
  import Hex

  /** The controller really could encode this request. */
  predicate Encodable(codec: Codec, e: Sent) {
    !e.kind.CloseCall? && EncodeFrame(codec, e.kind, e.id).Ok?
  }

  ghost predicate AllEncodable(codec: Codec, log: seq<Sent>) {
    forall i :: 0 <= i < |log| ==> Encodable(codec, log[i])
  }

  /** Only the last request may be a shutdown. */
  ghost predicate ShutdownLast(log: seq<Sent>) {
    forall i :: 0 <= i < |log| - 1 ==> log[i].kind.ExecuteCall?
  }

  ghost predicate AllExecute(log: seq<Sent>) {
    forall i :: 0 <= i < |log| ==> log[i].kind.ExecuteCall?
  }

  function RequestBytes(codec: Codec, e: Sent): seq<Byte> {
    match EncodeFrame(codec, e.kind, e.id) case Ok(frame) => frame case Err(_) => []
  }

  function Requests(codec: Codec, log: seq<Sent>): seq<Byte> {
    if log == [] then [] else Requests(codec, log[..|log| - 1]) + RequestBytes(codec, log[|log| - 1])
  }

  function AnswerEnvelope(engine: Engine, e: Sent): Envelope {
    match e.kind
    case ExecuteCall(workload) => Respond(engine, Hex.FormatRequestId(e.id), Job(BACKEND_SCALAR, engine.codec.compact(workload)))
    case _ => AckEnvelope(Hex.FormatRequestId(e.id))
  }

  function Answer(engine: Engine, e: Sent): seq<Byte> {
    engine.codec.encodeResponse(AnswerEnvelope(engine, e)) + [LF]
  }

  function Answers(engine: Engine, log: seq<Sent>): seq<Byte> {
    if log == [] then [] else Answers(engine, log[..|log| - 1]) + Answer(engine, log[|log| - 1])
  }

  /** The response a call must get. */
  function ExpectedFor(engine: Engine, kind: Kind): Response {
    match kind
    case ExecuteCall(workload) => Expected(engine, engine.codec.compact(workload))
    case _ => ShutdownAck
  }

  // ---------------------------------------------------------- single frames

  function RequestPayload(codec: Codec, e: Sent): seq<Byte> {
    match e.kind
    case ExecuteCall(workload) => codec.encodeRequest(ExecuteRequest(Hex.FormatRequestId(e.id), workload))
    case _ => codec.encodeRequest(ShutdownRequest(Hex.FormatRequestId(e.id)))
  }

  lemma FrameShape(codec: Codec, e: Sent)
    requires ValidCodec(codec) && Encodable(codec, e)
    ensures RequestBytes(codec, e) == RequestPayload(codec, e) + [LF]
    ensures Framable(RequestPayload(codec, e), MAX_FRAME_BYTES)
    ensures e.kind.ExecuteCall? ==> codec.project(e.kind.workload).Some?
  {
  }

  lemma RequestDecodes(codec: Codec, e: Sent)
    requires ValidCodec(codec) && Encodable(codec, e)
    ensures DecodeRequest(codec, RequestPayload(codec, e))
         == match e.kind
            case ExecuteCall(workload) => Ok(Execute(Hex.FormatRequestId(e.id), Job(BACKEND_SCALAR, codec.compact(workload))))
            case _ => Ok(Shutdown(Hex.FormatRequestId(e.id)))
  {
    hide Hex.RustValidRequestId, Hex.FormatRequestId, Hex.GoValidRequestId, OneLine, EndsWithCr, SmallEnvelope, Projects;
    Hex.RequestIds(0, e.id);
    assert ValidBackend(BACKEND_SCALAR);
  }

  lemma FrameRead(codec: Codec, e: Sent, tail: seq<Byte>)
    requires ValidCodec(codec) && Encodable(codec, e)
    ensures var input := RequestBytes(codec, e) + tail;
            && RustFrame(MAX_FRAME_BYTES, input, Failed) == Payload(RequestPayload(codec, e))
            && HasNewline(input) && input[LineEnd(input) + 1..] == tail
  {
    hide RequestPayload, Framable, RequestBytes, LineEnd, RustFrame, GoFrame;
    FrameShape(codec, e);
    FramedPayload(MAX_FRAME_BYTES, RequestPayload(codec, e), tail, Failed);
    var input := RequestPayload(codec, e) + [LF] + tail;
    assert input[|RequestPayload(codec, e)| + 1..] == tail;
  }

  /** What the controller reads back from one answer. */
  lemma AnswerDecodes(engine: Engine, e: Sent)
    requires ValidEngine(engine) && Encodable(engine.codec, e)
    ensures Framable(engine.codec.encodeResponse(AnswerEnvelope(engine, e)), MAX_FRAME_BYTES)
    ensures WriteResponse(engine.codec, AnswerEnvelope(engine, e)) == Ok(Answer(engine, e))
    ensures Decoded(engine.codec, e.kind, e.id, engine.codec.encodeResponse(AnswerEnvelope(engine, e)))
         == Ok(ExpectedFor(engine, e.kind))
  {
    hide RequestBytes, Respond, Hex.FormatRequestId, Expected, DecodeEnvelope, OneLine, EndsWithCr;
    FrameShape(engine.codec, e);
    AnswerEnvelopeDecodes(engine, e);
  }

  lemma AnswerEnvelopeDecodes(engine: Engine, e: Sent)
    requires ValidEngine(engine) && Encodable(engine.codec, e)
    ensures SmallEnvelope(AnswerEnvelope(engine, e))
    ensures DecodeEnvelope(AnswerEnvelope(engine, e), Hex.FormatRequestId(e.id), Expect(engine.codec, e.kind))
         == Ok(ExpectedFor(engine, e.kind))
  {
    hide RequestBytes, Respond, Expected;
    FrameShape(engine.codec, e);
    Hex.RequestIds(0, e.id);
    match e.kind
    case ExecuteCall(workload) =>
      hide DecodeEnvelope, SmallEnvelope;
      ResponseDecodes(engine, Hex.FormatRequestId(e.id), engine.codec.compact(workload));
    case ShutdownCall =>
  }

  // -------------------------------------------------------------- the server

  lemma ServeExecute(engine: Engine, e: Sent, tail: seq<Byte>)
    requires ValidEngine(engine) && Encodable(engine.codec, e) && e.kind.ExecuteCall?
    ensures Serve(engine, RequestBytes(engine.codec, e) + tail, Failed) == Served1(Answer(engine, e), Serve(engine, tail, Failed))
  {
    hide RequestBytes, RequestPayload, RustFrame, DecodeRequest, Respond, WriteResponse, Serve, LineEnd, ValidCodec, Answer;
    var input := RequestBytes(engine.codec, e) + tail;
    FrameRead(engine.codec, e, tail);
    RequestDecodes(engine.codec, e);
    AnswerDecodes(engine, e);
    ServeUnfold(engine, input, Failed);
  }

  lemma ServeShutdown(engine: Engine, e: Sent, tail: seq<Byte>)
    requires ValidEngine(engine) && Encodable(engine.codec, e) && e.kind.ShutdownCall?
    ensures Serve(engine, RequestBytes(engine.codec, e) + tail, Failed) == Served(Answer(engine, e), Ok(()))
  {
    hide RequestBytes, RequestPayload, RustFrame, DecodeRequest, Respond, WriteResponse, Serve, LineEnd, ValidCodec, Answer;
    var input := RequestBytes(engine.codec, e) + tail;
    FrameRead(engine.codec, e, tail);
    RequestDecodes(engine.codec, e);
    AnswerDecodes(engine, e);
    ServeUnfold(engine, input, Failed);
  }

  /** An unfinished line draws no answer. */
  lemma ServePartial(engine: Engine, part: seq<Byte>)
    requires OneLine(part)
    ensures Serve(engine, part, Failed).output == [] && Serve(engine, part, Failed).outcome.Err?
  {
    hide Serve;
    LineEndUnique(part, |part|);
    ServeUnfold(engine, part, Failed);
  }

  /** A proper prefix of a request frame is an unfinished line. */
  lemma PartialFrame(codec: Codec, e: Sent, part: seq<Byte>, rest: seq<Byte>)
    requires ValidCodec(codec) && Encodable(codec, e) && part + rest == RequestBytes(codec, e) && rest != []
    ensures OneLine(part)
  {
    hide RequestBytes, RequestPayload, ValidCodec, Encodable;
    FrameShape(codec, e);
    var line := RequestPayload(codec, e);
    assert part + rest == line + [LF];
    assert forall i :: 0 <= i < |part| ==> part[i] == (part + rest)[i] == line[i];
  }

  /** The server answers every complete execute request in order, then goes on with the rest. */
  lemma {:induction false} ServeAll(engine: Engine, log: seq<Sent>, tail: seq<Byte>)
    requires ValidEngine(engine) && AllEncodable(engine.codec, log) && AllExecute(log)
    ensures Serve(engine, Requests(engine.codec, log) + tail, Failed)
         == Served1(Answers(engine, log), Serve(engine, tail, Failed))
  {
    hide Serve, RequestBytes, Answer, Encodable, ValidEngine;
    if log == [] {
      assert [] + tail == tail;
      var rest := Serve(engine, tail, Failed);
      assert [] + rest.output == rest.output;
    } else {
      var init, last := log[..|log| - 1], log[|log| - 1];
      var frame := RequestBytes(engine.codec, last);
      ServeAll(engine, init, frame + tail);
      assert Requests(engine.codec, log) + tail == Requests(engine.codec, init) + (frame + tail);
      ServeExecute(engine, last, tail);
      ServedJoin(Answers(engine, init), Answer(engine, last), Serve(engine, tail, Failed));
    }
  }

  /** Everything written: every request is answered, and the server stops exactly after a
      shutdown. */
  lemma ServeComplete(engine: Engine, log: seq<Sent>)
    requires ValidEngine(engine) && AllEncodable(engine.codec, log) && ShutdownLast(log)
    ensures var served := Serve(engine, Requests(engine.codec, log), Failed);
            && served.output == Answers(engine, log)
            && (served.outcome.Ok? <==> log != [] && log[|log| - 1].kind.ShutdownCall?)
  {
    hide Serve, RequestBytes, Answer, ValidEngine;
    if log != [] && log[|log| - 1].kind.ShutdownCall? {
      var init, last := log[..|log| - 1], log[|log| - 1];
      ServeAll(engine, init, RequestBytes(engine.codec, last));
      ServeShutdown(engine, last, []);
      assert RequestBytes(engine.codec, last) + [] == RequestBytes(engine.codec, last);
    } else {
      assert log != [] ==> Encodable(engine.codec, log[|log| - 1]);
      ServeAll(engine, log, []);
      ServePartial(engine, []);
      assert Requests(engine.codec, log) + [] == Requests(engine.codec, log);
    }
  }

  /** A request still being written is not answered yet. */
  lemma ServeIncomplete(engine: Engine, log: seq<Sent>, input: seq<Byte>, rest: seq<Byte>)
    requires ValidEngine(engine) && AllEncodable(engine.codec, log) && ShutdownLast(log) && log != []
    requires input + rest == Requests(engine.codec, log) && 0 < |rest| <= |RequestBytes(engine.codec, log[|log| - 1])|
    ensures Serve(engine, input, Failed).output == Answers(engine, log[..|log| - 1])
    ensures Serve(engine, input, Failed).outcome.Err?
  {
    hide Serve, RequestBytes, Answer, ValidEngine;
    var init, last := log[..|log| - 1], log[|log| - 1];
    var sent, frame := Requests(engine.codec, init), RequestBytes(engine.codec, last);
    var part := frame[..|frame| - |rest|];
    Suffix(input, rest, sent, frame);
    ValidEngineCodec(engine);
    PartialFrame(engine.codec, last, part, rest);
    ServeAll(engine, init, part);
    ServePartial(engine, part);
  }

  lemma Suffix(input: seq<Byte>, rest: seq<Byte>, sent: seq<Byte>, frame: seq<Byte>)
    requires input + rest == sent + frame && |rest| <= |frame|
    ensures var part := frame[..|frame| - |rest|]; input == sent + part && part + rest == frame
  {
    var part := frame[..|frame| - |rest|];
    assert input == (input + rest)[..|input|];
    assert rest == (input + rest)[|input|..];
    assert input == sent + part;
  }

  lemma ValidEngineCodec(engine: Engine)
    requires ValidEngine(engine)
    ensures ValidCodec(engine.codec)
  {
  }

  /** The line at the front of the worker's unread output is the answer, once it is whole;
      until then there is nothing to read. */
  lemma AnswerRead(engine: Engine, e: Sent, data: seq<Byte>)
    requires ValidEngine(engine) && Encodable(engine.codec, e) && data <= Answer(engine, e)
    ensures var payload := engine.codec.encodeResponse(AnswerEnvelope(engine, e));
            var frame := GoFrame(MAX_FRAME_BYTES, data, Eof);
            && !frame.TooLarge?
            && (frame.Payload? ==> frame.bytes == payload && data == Answer(engine, e) && LineEnd(data) + 1 == |data|)
  {
    hide AnswerEnvelope, ValidEngine, Encodable, Decoded, WriteResponse, GoFrame, LineEnd;
    AnswerDecodes(engine, e);
    LinePrefix(MAX_FRAME_BYTES, engine.codec.encodeResponse(AnswerEnvelope(engine, e)), data);
  }

  lemma LinePrefix(limit: nat, payload: seq<Byte>, data: seq<Byte>)
    requires Framable(payload, limit) && data <= payload + [LF]
    ensures var frame := GoFrame(limit, data, Eof);
            && !frame.TooLarge?
            && (frame.Payload? ==> frame.bytes == payload && data == payload + [LF] && LineEnd(data) + 1 == |data|)
  {
    if data == payload + [LF] {
      FramedPayload(limit, payload, [], Eof);
      assert data == payload + [LF] + [];
    } else {
      assert data == payload[..|data|];
      LineEndUnique(data, |data|);
    }
  }
}
