/** A worker that answers a request before it is made: the controller cannot tell, because
    identifiers are sequential and nothing looks at pending output before a request is sent. */
module GuessedFrames {
  import opened Words
  import opened Framing
  import opened Protocol
  import opened Session
  import opened SessionSystem
  import Agreement
  import Completion
  import Dialogue
  import Refinement
  import Server

  lemma Take(codec: Codec, actions: seq<Action>, s: State, a: Action)
    requires Run(codec, START, actions) == Some(s)
    ensures Run(codec, START, actions + [a]) == Next(codec, s, a)
  {
    hide Next;
    assert (actions + [a])[..|actions|] == actions;
  }

  lemma StepTo(codec: Codec, actions: seq<Action>, s: State, base: map<nat, Call>, c: nat, k: Call, shared: Shared, next: Call)
    requires Run(codec, START, actions) == Some(s) && s.calls == base[c := k]
    requires Advance(codec, s.shared, s.exitClean, k, false) == Some((shared, next)) && !next.pc.Awaiting?
    ensures Run(codec, START, actions + [Step(c, false)])
         == Some(s.(shared := shared, calls := base[c := next],
                    holder := if Holds(next.pc) then Some(c) else if Holds(k.pc) then None else s.holder))
  {
    hide Advance, Holds, Run;
    Completion.Reput(base, c, k, next);
    Take(codec, actions, s, Step(c, false));
  }

  /** An idle session that can send this request under its next number. */
  predicate Idle(codec: Codec, s: State, c: nat, kind: Kind) {
    && s.shared.tokens == 1 && s.shared.state.Open? && !s.shared.waitDone && !s.shared.inputClosed && s.shared.sequence != 0
    && s.holder.None? && s.childAlive && c !in s.calls && kind.ExecuteCall? && EncodeFrame(codec, kind, s.shared.sequence).Ok?
  }

  function At(s: State, kind: Kind, pc: Pc, task: Task): Call {
    Call(kind, pc, false, Some(s.shared.sequence), task, None)
  }

  function Sends(s: State, c: nat, kind: Kind, task: Task): State {
    s.(shared := Completion.Drawn(s), calls := s.calls[c := At(s, kind, Awaiting, task)], holder := Some(c),
       log := s.log + [Sent(c, s.shared.sequence, kind, s.consumed, |s.stdout|)])
  }

  function Frame(codec: Codec, s: State, kind: Kind): seq<Byte>
    requires EncodeFrame(codec, kind, s.shared.sequence).Ok?
  {
    EncodeFrame(codec, kind, s.shared.sequence).value
  }

  lemma Launches(codec: Codec, actions: seq<Action>, s: State, c: nat, kind: Kind) returns (more: seq<Action>)
    requires Run(codec, START, actions) == Some(s) && Idle(codec, s, c, kind)
    ensures Run(codec, START, more) == Some(Sends(s, c, kind, Writing(Frame(codec, s, kind))))
  {
    hide Run, EncodeFrame;
    Take(codec, actions, s, Invoke(c, kind));
    more := actions + [Invoke(c, kind)];
    var t, k := s.(calls := s.calls[c := Begin(kind)]), Begin(kind);
    StepTo(codec, more, t, s.calls, c, k, s.shared, k.(pc := Waiting));
    more := more + [Step(c, false)];
    t, k := t.(calls := s.calls[c := k.(pc := Waiting)]), k.(pc := Waiting);
    var held := s.shared.(tokens := 0);
    StepTo(codec, more, t, s.calls, c, k, held, k.(pc := Granted));
    more := more + [Step(c, false)];
    t, k := t.(shared := held, calls := s.calls[c := k.(pc := Granted)], holder := Some(c)), k.(pc := Granted);
    StepTo(codec, more, t, s.calls, c, k, held, k.(pc := Checking));
    more := more + [Step(c, false)];
    t, k := t.(calls := s.calls[c := k.(pc := Checking)]), k.(pc := Checking);
    StepTo(codec, more, t, s.calls, c, k, held, k.(pc := Numbering));
    more := more + [Step(c, false)];
    t, k := t.(calls := s.calls[c := k.(pc := Numbering)]), k.(pc := Numbering);
    StepTo(codec, more, t, s.calls, c, k, Completion.Drawn(s), At(s, kind, Encoding, NoTask));
    more := more + [Step(c, false)];
    t := t.(shared := Completion.Drawn(s), calls := s.calls[c := At(s, kind, Encoding, NoTask)]);
    HandsOver(codec, more, t, s, c, kind);
    more := more + [Step(c, false)];
  }

  lemma HandsOver(codec: Codec, actions: seq<Action>, t: State, s: State, c: nat, kind: Kind)
    requires Run(codec, START, actions) == Some(t) && Idle(codec, s, c, kind)
    requires t == s.(shared := Completion.Drawn(s), calls := s.calls[c := At(s, kind, Encoding, NoTask)], holder := Some(c))
    ensures Run(codec, START, actions + [Step(c, false)]) == Some(Sends(s, c, kind, Writing(Frame(codec, s, kind))))
  {
    hide Run, EncodeFrame;
    Take(codec, actions, t, Step(c, false));
    Completion.Reput(s.calls, c, At(s, kind, Encoding, NoTask), At(s, kind, Awaiting, Writing(Frame(codec, s, kind))));
  }

  /** The whole request is written. */
  lemma Writes(codec: Codec, actions: seq<Action>, s: State, c: nat, kind: Kind) returns (more: seq<Action>)
    requires Idle(codec, s, c, kind) && Run(codec, START, actions) == Some(Sends(s, c, kind, Writing(Frame(codec, s, kind))))
    ensures Run(codec, START, more) == Some(Sends(s, c, kind, Reading).(stdin := s.stdin + Frame(codec, s, kind)))
  {
    hide Run, EncodeFrame;
    var frame := Frame(codec, s, kind);
    Refinement.FrameNotEmpty(codec, kind, s.shared.sequence);
    var t := Sends(s, c, kind, Writing(frame));
    Take(codec, actions, t, WriteChunk(c, |frame|));
    assert frame[..|frame|] == frame && frame[|frame|..] == [];
    Completion.Reput(s.calls, c, At(s, kind, Awaiting, Writing(frame)), At(s, kind, Awaiting, Reading));
    more := actions + [WriteChunk(c, |frame|)];
  }

  /** The next pending line is read, whenever it was written. */
  function Took(t: State, base: map<nat, Call>, c: nat, k: Call, id: U64, payload: seq<Byte>, response: Response): State {
    var to := t.consumed + |payload| + 1;
    t.(consumed := to, received := t.received + [Receipt(c, id, k.kind, payload, t.consumed, to)],
       calls := base[c := k.(task := Finished(Ok(response)), receipt := Some(|t.received|))])
  }

  lemma Reads(codec: Codec, actions: seq<Action>, t: State, base: map<nat, Call>, c: nat, k: Call, id: U64,
              payload: seq<Byte>, rest: seq<Byte>, response: Response)
    requires Run(codec, START, actions) == Some(t) && t.calls == base[c := k] && k.task.Reading? && k.id == Some(id)
    requires t.consumed <= |t.stdout| && t.stdout[t.consumed..] == payload + [LF] + rest
    requires Framable(payload, MAX_FRAME_BYTES) && Decoded(codec, k.kind, id, payload) == Ok(response)
    ensures Run(codec, START, actions + [ReadFrame(c)]) == Some(Took(t, base, c, k, id, payload, response))
  {
    hide Run, GoFrame, RustFrame, LineEnd, Decoded, OneLine;
    Take(codec, actions, t, ReadFrame(c));
    FramedPayload(MAX_FRAME_BYTES, payload, rest, Eof);
    LineOf(payload, rest);
    Completion.Reput(base, c, k, k.(task := Finished(Ok(response)), receipt := Some(|t.received|)));
  }

  lemma LineOf(payload: seq<Byte>, rest: seq<Byte>)
    requires OneLine(payload)
    ensures LineEnd(payload + [LF] + rest) == |payload|
  {
    var data := payload + [LF] + rest;
    assert data[|payload|] == LF && forall i :: 0 <= i < |payload| ==> data[i] == payload[i] != LF;
    LineEndUnique(data, |payload|);
  }

  lemma Returns(codec: Codec, actions: seq<Action>, t: State, base: map<nat, Call>, c: nat, k: Call, r: Response) returns (more: seq<Action>)
    requires Run(codec, START, actions) == Some(t) && t.calls == base[c := k] && t.shared.tokens == 0 && t.holder == Some(c)
    requires k.pc.Awaiting? && k.task == Finished(Ok(r)) && k.kind.ExecuteCall? && !r.ShutdownAck?
    ensures Run(codec, START, more)
         == Some(t.(shared := t.shared.(tokens := 1), holder := None,
                    calls := base[c := k.(pc := Done(Refinement.OutcomeOf(r)), task := Collected)]))
  {
    hide Run, Advance, Holds, Refinement.OutcomeOf;
    Completion.ReturnSteps(codec, t.shared, t.exitClean, k, r);
    var answered := k.(pc := Answered(r), task := Collected);
    StepTo(codec, actions, t, base, c, k, t.shared, answered);
    more := actions + [Step(c, false)];
    var leaving := answered.(pc := Leaving(Refinement.OutcomeOf(r)));
    StepTo(codec, more, t.(calls := base[c := answered]), base, c, answered, t.shared, leaving);
    more := more + [Step(c, false)];
    var done := leaving.(pc := Done(Refinement.OutcomeOf(r)));
    StepTo(codec, more, t.(calls := base[c := leaving]), base, c, leaving, t.shared.(tokens := 1), done);
    more := more + [Step(c, false)];
  }

  /** What one call leaves behind that read `payload` as its response. */
  function Served(codec: Codec, s: State, c: nat, kind: Kind, emitted: seq<Byte>, payload: seq<Byte>, r: Response): State
    requires EncodeFrame(codec, kind, s.shared.sequence).Ok?
  {
    var id, to := s.shared.sequence, s.consumed + |payload| + 1;
    s.(shared := Completion.Drawn(s).(tokens := 1),
       stdin := s.stdin + Frame(codec, s, kind), stdout := s.stdout + emitted, consumed := to,
       calls := s.calls[c := Call(kind, Done(Refinement.OutcomeOf(r)), false, Some(id), Collected, Some(|s.received|))],
       log := s.log + [Sent(c, id, kind, s.consumed, |s.stdout|)],
       received := s.received + [Receipt(c, id, kind, payload, s.consumed, to)])
  }

  lemma Serves(codec: Codec, actions: seq<Action>, s: State, c: nat, kind: Kind, emitted: seq<Byte>,
               payload: seq<Byte>, rest: seq<Byte>, r: Response) returns (more: seq<Action>)
    requires Run(codec, START, actions) == Some(s) && Idle(codec, s, c, kind) && s.consumed <= |s.stdout|
    requires (s.stdout + emitted)[s.consumed..] == payload + [LF] + rest && Framable(payload, MAX_FRAME_BYTES)
    requires Decoded(codec, kind, s.shared.sequence, payload) == Ok(r) && !r.ShutdownAck?
    ensures Run(codec, START, more) == Some(Served(codec, s, c, kind, emitted, payload, r))
  {
    hide Run, EncodeFrame, Decoded, Framable, Frame, Refinement.OutcomeOf;
    more := Launches(codec, actions, s, c, kind);
    more := Writes(codec, more, s, c, kind);
    var t := Sends(s, c, kind, Reading).(stdin := s.stdin + Frame(codec, s, kind));
    Take(codec, more, t, Emit(emitted));
    more := more + [Emit(emitted)];
    var u := t.(stdout := s.stdout + emitted);
    var k := At(s, kind, Awaiting, Reading);
    Reads(codec, more, u, s.calls, c, k, s.shared.sequence, payload, rest, r);
    more := more + [ReadFrame(c)];
    var v := Took(u, s.calls, c, k, s.shared.sequence, payload, r);
    more := Returns(codec, more, v, s.calls, c, v.calls[c], r);
  }

  /** Both calls have returned, the second from a line that was complete before its request. */
  ghost predicate Guessed(s: State, first: Kind, second: Kind, a: Response, b: Response) {
    && s.shared.tokens == 1 && s.shared.state.Open?
    && 0 in s.calls && s.calls[0].kind == first && s.calls[0].pc == Done(Refinement.OutcomeOf(a))
    && 1 in s.calls && s.calls[1].kind == second && s.calls[1].pc == Done(Refinement.OutcomeOf(b))
    && |s.log| == 2 && |s.received| == 2 && s.received[1].call == s.log[1].call == 1
    && s.received[1].to <= s.log[1].written == |s.stdout|
  }

  /** The worker answers the first request with two lines, the second of which is a response to
      the number that comes next. No request for it has been made, and yet a later call takes
      it as its own: both calls return normally and the session stays open. */
  lemma GuessedFrameDelivered(codec: Codec, first: Kind, second: Kind, p: seq<Byte>, q: seq<Byte>, a: Response, b: Response)
    requires first.ExecuteCall? && EncodeFrame(codec, first, 1).Ok? && second.ExecuteCall? && EncodeFrame(codec, second, 2).Ok?
    requires Framable(p, MAX_FRAME_BYTES) && Decoded(codec, first, 1, p) == Ok(a) && !a.ShutdownAck?
    requires Framable(q, MAX_FRAME_BYTES) && Decoded(codec, second, 2, q) == Ok(b) && !b.ShutdownAck?
    ensures exists actions: seq<Action> ::
              Run(codec, START, actions).Some? && Guessed(Run(codec, START, actions).value, first, second, a, b)
  {
    hide EncodeFrame, Decoded, Framable, Refinement.OutcomeOf;
    var both := p + [LF] + (q + [LF]);
    assert Run(codec, START, []) == Some(START);
    hide Run;
    assert START.stdout + both == both && both[0..] == both;
    var actions := Serves(codec, [], START, 0, first, both, p, q + [LF], a);
    var s := Served(codec, START, 0, first, both, p, a);
    assert s.stdout == both && s.consumed == |p| + 1;
    assert both + [] == both && both[|p| + 1..] == q + [LF] + [];
    actions := Serves(codec, actions, s, 1, second, [], q, [], b);
    assert Guessed(Served(codec, s, 1, second, [], q, b), first, second, a, b);
  }

  /** Such lines exist: an engine's own answers, written one request ahead of time. */
  lemma AnswersAhead(engine: Server.Engine, first: Kind, second: Kind)
    requires Agreement.ValidEngine(engine)
    requires first.ExecuteCall? && EncodeFrame(engine.codec, first, 1).Ok? && second.ExecuteCall? && EncodeFrame(engine.codec, second, 2).Ok?
    ensures exists actions: seq<Action> ::
              Run(engine.codec, START, actions).Some? &&
              Guessed(Run(engine.codec, START, actions).value, first, second,
                      Dialogue.ExpectedFor(engine, first), Dialogue.ExpectedFor(engine, second))
  {
    hide Run, EncodeFrame, Decoded, Framable, Agreement.ValidEngine, Dialogue.ExpectedFor, Dialogue.AnswerEnvelope;
    var e, f := Sent(0, 1, first, 0, 0), Sent(1, 2, second, 0, 0);
    Dialogue.AnswerDecodes(engine, e);
    Dialogue.AnswerDecodes(engine, f);
    Refinement.ExpectedKind(engine, first);
    Refinement.ExpectedKind(engine, second);
    GuessedFrameDelivered(engine.codec, first, second,
                          engine.codec.encodeResponse(Dialogue.AnswerEnvelope(engine, e)),
                          engine.codec.encodeResponse(Dialogue.AnswerEnvelope(engine, f)),
                          Dialogue.ExpectedFor(engine, first), Dialogue.ExpectedFor(engine, second));
  }
}
