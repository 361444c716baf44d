/** Nothing a cooperative session does can leave it stuck: while it is open and idle, another
    call can be served to its end. */
module Completion {
  import opened Words
  import opened Framing
  import opened Protocol
  import opened Server
  import opened Agreement
  import opened Session
  import opened SessionSystem
  import opened SessionCalls
  import opened SessionHistory
  import opened SessionDelivery
  import opened SessionLockstep
  import opened SessionTheorems
  import opened Dialogue
  import opened Refinement

  lemma Take(engine: Engine, actions: seq<Action>, s: State, a: Action)
    requires CooperativeRun(engine, actions) == Some(s) && Cooperative(engine, s, a) && Next(engine.codec, s, a).Some?
    ensures CooperativeRun(engine, actions + [a]) == Next(engine.codec, s, a)
  {
    hide Cooperative, Next;
    assert (actions + [a])[..|actions|] == actions;
  }

  lemma Reput(base: map<nat, Call>, c: nat, k: Call, next: Call)
    ensures base[c := k][c := next] == base[c := next]
  {
  }

  /** One step of a caller that sends nothing. */
  lemma StepTo(engine: Engine, actions: seq<Action>, s: State, base: map<nat, Call>, c: nat, k: Call, shared: Shared, next: Call)
    requires CooperativeRun(engine, actions) == Some(s) && s.calls == base[c := k]
    requires Advance(engine.codec, s.shared, s.exitClean, k, false) == Some((shared, next)) && !next.pc.Awaiting?
    ensures CooperativeRun(engine, actions + [Step(c, false)])
         == Some(s.(shared := shared, calls := base[c := next],
                    holder := if Holds(next.pc) then Some(c) else if Holds(k.pc) then None else s.holder))
  {
    hide Advance, Holds, CooperativeRun;
    Reput(base, c, k, next);
    Take(engine, actions, s, Step(c, false));
  }

  /** An open session whose token is free; `kind` is the request it is about to serve. */
  ghost predicate ReadyFor(engine: Engine, s: State, c: nat, kind: Kind) {
    && s.shared.tokens > 0 && s.shared.state.Open? && s.shared.sequence != 0 && c !in s.calls
    && !kind.CloseCall? && EncodeFrame(engine.codec, kind, s.shared.sequence).Ok?
  }

  function Mine(s: State, c: nat, kind: Kind): Sent {
    Sent(c, s.shared.sequence, kind, s.consumed, |s.stdout|)
  }

  function Drawn(s: State): Shared {
    s.shared.(tokens := 0, sequence := WrappingAdd(s.shared.sequence, 1))
  }

  function Frame(engine: Engine, s: State, kind: Kind): seq<Byte> {
    RequestBytes(engine.codec, Mine(s, 0, kind))
  }

  /** The call at a given point of its transaction, with the number it drew. */
  function At(s: State, kind: Kind, pc: Pc, task: Task): Call {
    Call(kind, pc, false, Some(s.shared.sequence), task, None)
  }

  /** The request is encoded and its goroutine started. */
  function Launched(engine: Engine, s: State, c: nat, kind: Kind): State {
    s.(shared := Drawn(s), calls := s.calls[c := At(s, kind, Awaiting, Writing(Frame(engine, s, kind)))],
       holder := Some(c), log := s.log + [Mine(s, c, kind)])
  }

  /** The worker has the request and has answered it. */
  function Emitted(engine: Engine, s: State, c: nat, kind: Kind): State {
    Launched(engine, s, c, kind).(calls := s.calls[c := At(s, kind, Awaiting, Reading)],
      stdin := s.stdin + Frame(engine, s, kind), stdout := s.stdout + Answer(engine, Mine(s, c, kind)))
  }

  lemma Enters(engine: Engine, actions: seq<Action>, s: State, c: nat, kind: Kind)
    requires CooperativeRun(engine, actions) == Some(s) && ReadyFor(engine, s, c, kind)
    ensures CooperativeRun(engine, actions + [Invoke(c, kind)]) == Some(s.(calls := s.calls[c := Begin(kind)]))
  {
    hide CooperativeRun;
    Take(engine, actions, s, Invoke(c, kind));
  }

  /** From the entry to the request on its way: token, open check, number, frame. */
  lemma Launches(engine: Engine, actions: seq<Action>, s: State, c: nat, kind: Kind) returns (more: seq<Action>)
    requires CooperativeRun(engine, actions) == Some(s) && ReadyFor(engine, s, c, kind)
    requires s.shared.tokens == 1 && !s.shared.waitDone && s.holder.None?
    ensures actions <= more && CooperativeRun(engine, more) == Some(Launched(engine, s, c, kind))
  {
    hide CooperativeRun, EncodeFrame, Next, Cooperative;
    Enters(engine, actions, s, c, kind);
    more := actions + [Invoke(c, kind)];
    var t, k := s.(calls := s.calls[c := Begin(kind)]), Begin(kind);
    StepTo(engine, more, t, s.calls, c, k, s.shared, k.(pc := Waiting));
    more := more + [Step(c, false)];
    t, k := t.(calls := s.calls[c := k.(pc := Waiting)]), k.(pc := Waiting);
    var held := s.shared.(tokens := 0);
    StepTo(engine, more, t, s.calls, c, k, held, k.(pc := Granted));
    more := more + [Step(c, false)];
    t, k := t.(shared := held, calls := s.calls[c := k.(pc := Granted)], holder := Some(c)), k.(pc := Granted);
    StepTo(engine, more, t, s.calls, c, k, held, k.(pc := Checking));
    more := more + [Step(c, false)];
    t, k := t.(calls := s.calls[c := k.(pc := Checking)]), k.(pc := Checking);
    StepTo(engine, more, t, s.calls, c, k, held, k.(pc := Numbering));
    more := more + [Step(c, false)];
    t, k := t.(calls := s.calls[c := k.(pc := Numbering)]), k.(pc := Numbering);
    StepTo(engine, more, t, s.calls, c, k, Drawn(s), At(s, kind, Encoding, NoTask));
    more := more + [Step(c, false)];
    t := t.(shared := Drawn(s), calls := s.calls[c := At(s, kind, Encoding, NoTask)]);
    Sends(engine, more, t, s, c, kind);
    more := more + [Step(c, false)];
  }

  lemma Sends(engine: Engine, actions: seq<Action>, t: State, s: State, c: nat, kind: Kind)
    requires CooperativeRun(engine, actions) == Some(t) && ReadyFor(engine, s, c, kind)
    requires t == s.(shared := Drawn(s), calls := s.calls[c := At(s, kind, Encoding, NoTask)], holder := Some(c))
    ensures CooperativeRun(engine, actions + [Step(c, false)]) == Some(Launched(engine, s, c, kind))
  {
    hide CooperativeRun, EncodeFrame;
    Take(engine, actions, t, Step(c, false));
    Reput(s.calls, c, At(s, kind, Encoding, NoTask), At(s, kind, Awaiting, Writing(Frame(engine, s, kind))));
  }

  // -------------------------------------------------------- the input stays open

  /** The worker's input is only closed once the session is. */
  predicate InputOpen(s: Shared) {
    s.state.Open? ==> !s.inputClosed
  }

  lemma PrepareInput(codec: Codec, s: Shared, k: Call)
    requires InputOpen(s)
    ensures Prepare(codec, s, k).Some? ==> InputOpen(Prepare(codec, s, k).value.0)
  {
    hide EncodeFrame;
  }

  lemma TransactInput(s: Shared, k: Call, alt: bool)
    requires InputOpen(s)
    ensures Acquire(s, k, alt).Some? ==> InputOpen(Acquire(s, k, alt).value.0)
    ensures Transact(s, k, alt).Some? ==> InputOpen(Transact(s, k, alt).value.0)
  {
  }

  lemma ConcludeInput(s: Shared, exitClean: bool, k: Call, alt: bool)
    requires InputOpen(s) && (k.pc.ClosingInput? ==> !s.state.Open?)
    ensures Conclude(s, exitClean, k, alt).Some? ==> InputOpen(Conclude(s, exitClean, k, alt).value.0)
  {
  }

  lemma AdvanceInput(codec: Codec, s: Shared, exitClean: bool, k: Call, alt: bool)
    requires InputOpen(s) && !k.pc.Reaping? && (k.pc.ClosingInput? ==> !s.state.Open?)
    requires Advance(codec, s, exitClean, k, alt).Some?
    ensures InputOpen(Advance(codec, s, exitClean, k, alt).value.0)
  {
    hide Acquire, Prepare, Transact, Reap, Conclude, InputOpen;
    PrepareInput(codec, s, k);
    TransactInput(s, k, alt);
    ConcludeInput(s, exitClean, k, alt);
  }

  lemma Placed(engine: Engine, s: Shared, k: Call)
    requires Local(s, k) && Good(engine, s, k)
    ensures !k.pc.Reaping? && (k.pc.ClosingInput? ==> !s.state.Open?)
  {
    hide ExpectedFor, GoodOutcome, TaskFits, KindFits, IdFits;
  }

  lemma NextInput(engine: Engine, s: State, a: Action)
    requires CallsFit(s) && AllGood(engine, s) && InputOpen(s.shared) && Next(engine.codec, s, a).Some?
    ensures InputOpen(Next(engine.codec, s, a).value.shared)
  {
    hide Advance, Local, Good, GoFrame, Decoded, CallsFit, AllGood;
    if a.Step? {
      CallFits(s, a.c);
      GoodAt(engine, s, a.c);
      Placed(engine, s.shared, s.calls[a.c]);
      AdvanceInput(engine.codec, s.shared, s.exitClean, s.calls[a.c], a.alt);
    }
  }

  lemma {:induction false} RunInput(engine: Engine, actions: seq<Action>)
    requires ValidEngine(engine) && CooperativeRun(engine, actions).Some?
    ensures InputOpen(CooperativeRun(engine, actions).value.shared)
  {
    hide ValidEngine, Next, Cooperative, CallsFit, TokenInv, PoisonInv, LogInv, DistinctIds, ReceiptInv, DeliveryInv, LockstepInv,
         RejectInv, ExpectedInv, AllGood, EndInv, PipeInv;
    if actions != [] {
      var n := |actions| - 1;
      RunInput(engine, actions[..n]);
      CooperativeInv(engine, actions[..n]);
      NextInput(engine, CooperativeRun(engine, actions[..n]).value, actions[n]);
    }
  }

  // ------------------------------------------------------------- the answer

  /** Both pipes are quiet and the worker is alive. */
  ghost predicate Quiet(engine: Engine, s: State) {
    && s.shared.tokens == 1 && s.holder.None? && s.childAlive && !s.shared.waitDone && !s.shared.inputClosed
    && AllEncodable(engine.codec, s.log) && AllExecute(s.log)
    && s.stdin == Requests(engine.codec, s.log) && s.stdout == Answers(engine, s.log) && s.consumed == |s.stdout|
  }

  lemma ReadyIsQuiet(engine: Engine, actions: seq<Action>, s: State, c: nat, kind: Kind)
    requires ValidEngine(engine) && CooperativeRun(engine, actions) == Some(s) && ReadyFor(engine, s, c, kind)
    ensures Quiet(engine, s)
  {
    hide ValidEngine, CooperativeRun, Inv, AllGood;
    CooperativeInv(engine, actions);
    RunInput(engine, actions);
    InvToken(engine, s);
    IdlePipes(engine, s);
    assert s.log[..|s.received|] == s.log;
    NoShutdownYet(engine, s);
  }

  lemma InvToken(engine: Engine, s: State)
    requires CoopInv(engine, s)
    ensures TokenInv(s)
  {
    hide AllGood, EndInv, PipeInv, CallsFit, PoisonInv, LogInv, DistinctIds, ReceiptInv, DeliveryInv, LockstepInv, RejectInv, ExpectedInv;
  }

  lemma NoShutdownYet(engine: Engine, s: State)
    requires EndInv(s) && PipeInv(engine, s) && s.shared.state.Open? && s.holder.None?
    ensures AllExecute(s.log) && s.childAlive && !s.shared.waitDone
  {
    hide Requests, Answers, RequestBytes, EncodeFrame;
    if s.log != [] {
      LastExecute(engine.codec, s.log);
    }
  }

  lemma MineEncodable(engine: Engine, s: State, c: nat, kind: Kind)
    requires ValidEngine(engine) && Quiet(engine, s) && ReadyFor(engine, s, c, kind)
    ensures Encodable(engine.codec, Mine(s, c, kind)) && Frame(engine, s, kind) == RequestBytes(engine.codec, Mine(s, c, kind)) != []
    ensures var log := s.log + [Mine(s, c, kind)];
            && AllEncodable(engine.codec, log) && ShutdownLast(log)
            && Requests(engine.codec, log) == s.stdin + Frame(engine, s, kind)
            && Answers(engine, log) == s.stdout + Answer(engine, Mine(s, c, kind))
  {
    hide ValidEngine, Answer, EncodeFrame;
    FrameNotEmpty(engine.codec, kind, s.shared.sequence);
    var log := s.log + [Mine(s, c, kind)];
    assert log[..|log| - 1] == s.log;
    assert forall i :: 0 <= i < |s.log| ==> log[i] == s.log[i];
  }

  /** The frame is written in one piece and the worker answers it in one piece. */
  lemma WritesAndEmits(engine: Engine, actions: seq<Action>, s: State, c: nat, kind: Kind)
    requires ValidEngine(engine) && Quiet(engine, s) && ReadyFor(engine, s, c, kind)
    requires CooperativeRun(engine, actions) == Some(Launched(engine, s, c, kind))
    ensures CooperativeRun(engine, actions + [WriteChunk(c, |Frame(engine, s, kind)|)] + [Emit(Answer(engine, Mine(s, c, kind)))])
         == Some(Emitted(engine, s, c, kind))
  {
    hide ValidEngine, ReadyFor, CooperativeRun, Serve, Answer, Frame, Mine, Requests, Answers, AllEncodable, ShutdownLast;
    var t, frame, e := Launched(engine, s, c, kind), Frame(engine, s, kind), Mine(s, c, kind);
    MineEncodable(engine, s, c, kind);
    Take(engine, actions, t, WriteChunk(c, |frame|));
    Reput(s.calls, c, At(s, kind, Awaiting, Writing(frame)), At(s, kind, Awaiting, Reading));
    var written := t.(calls := s.calls[c := At(s, kind, Awaiting, Reading)], stdin := s.stdin + frame);
    assert frame[..|frame|] == frame && frame[|frame|..] == [];
    assert Next(engine.codec, t, WriteChunk(c, |frame|)) == Some(written);
    ServeComplete(engine, t.log);
    Take(engine, actions + [WriteChunk(c, |frame|)], written, Emit(Answer(engine, e)));
  }

  /** The goroutine reads the answer back as what this call must get. */
  lemma Reads(engine: Engine, actions: seq<Action>, s: State, c: nat, kind: Kind) returns (t: State)
    requires ValidEngine(engine) && Quiet(engine, s) && ReadyFor(engine, s, c, kind)
    requires CooperativeRun(engine, actions) == Some(Emitted(engine, s, c, kind))
    ensures CooperativeRun(engine, actions + [ReadFrame(c)]) == Some(t)
    ensures t == Emitted(engine, s, c, kind).(consumed := t.consumed, received := t.received, calls := t.calls)
    ensures t.calls == s.calls[c := At(s, kind, Awaiting, Finished(Ok(ExpectedFor(engine, kind)))).(receipt := Some(|s.received|))]
  {
    hide ValidEngine, CooperativeRun, Answer, AnswerEnvelope, Frame, Drawn, Requests, Answers, AllEncodable, ShutdownLast, ExpectedFor,
         Decoded, GoFrame, LineEnd, Encodable, ReadyFor;
    var e, u := Mine(s, c, kind), Emitted(engine, s, c, kind);
    MineEncodable(engine, s, c, kind);
    AnswerDecodes(engine, e);
    var payload := engine.codec.encodeResponse(AnswerEnvelope(engine, e));
    assert u.stdout[u.consumed..] == Answer(engine, e);
    AnswerFrame(engine, e);
    Take(engine, actions, u, ReadFrame(c));
    t := Next(engine.codec, u, ReadFrame(c)).value;
    Reput(s.calls, c, At(s, kind, Awaiting, Reading), t.calls[c]);
  }

  lemma AnswerFrame(engine: Engine, e: Sent)
    requires ValidEngine(engine) && Encodable(engine.codec, e)
    ensures GoFrame(MAX_FRAME_BYTES, Answer(engine, e), Eof) == Payload(engine.codec.encodeResponse(AnswerEnvelope(engine, e)))
  {
    hide ValidEngine, Encodable, AnswerEnvelope, GoFrame, Decoded, WriteResponse;
    AnswerDecodes(engine, e);
    var payload := engine.codec.encodeResponse(AnswerEnvelope(engine, e));
    FramedPayload(MAX_FRAME_BYTES, payload, [], Eof);
    assert payload + [LF] + [] == Answer(engine, e);
  }

  // ---------------------------------------------------------- the call returns

  /** What the session is left with: the request and its answer on the pipes, and the token
      free again. */
  ghost predicate ServedNext(engine: Engine, s: State, c: nat, kind: Kind, t: State) {
    && t.shared == Drawn(s).(tokens := 1) && t.holder.None? && t.log == s.log + [Mine(s, c, kind)]
    && t.calls.Keys == s.calls.Keys + {c} && (forall d :: d in s.calls ==> t.calls[d] == s.calls[d])
    && t.calls[c].pc == Done(OutcomeOf(ExpectedFor(engine, kind)))
  }

  /** The three steps that follow a collected answer. */
  lemma ReturnSteps(codec: Codec, s: Shared, exitClean: bool, k: Call, r: Response)
    requires k.pc.Awaiting? && k.task == Finished(Ok(r)) && k.kind.ExecuteCall? && !r.ShutdownAck? && s.tokens == 0
    ensures var answered := k.(pc := Answered(r), task := Collected);
            var leaving := answered.(pc := Leaving(OutcomeOf(r)));
            && Advance(codec, s, exitClean, k, false) == Some((s, answered))
            && Advance(codec, s, exitClean, answered, false) == Some((s, leaving))
            && Advance(codec, s, exitClean, leaving, false) == Some((s.(tokens := 1), leaving.(pc := Done(OutcomeOf(r)))))
            && Holds(k.pc) && Holds(answered.pc) && Holds(leaving.pc) && !Holds(Done(OutcomeOf(r)))
  {
    hide Reap, Prepare, Acquire;
  }

  lemma CallReturns(engine: Engine, actions: seq<Action>, t: State, base: map<nat, Call>, c: nat, k: Call, r: Response) returns (u: State)
    requires CooperativeRun(engine, actions) == Some(t) && t.calls == base[c := k] && t.shared.tokens == 0 && t.holder == Some(c)
    requires k.pc.Awaiting? && k.task == Finished(Ok(r)) && k.kind.ExecuteCall? && !r.ShutdownAck?
    ensures CooperativeRun(engine, actions + [Step(c, false)] + [Step(c, false)] + [Step(c, false)]) == Some(u)
    ensures u == t.(shared := t.shared.(tokens := 1), holder := None,
                    calls := base[c := k.(pc := Done(OutcomeOf(r)), task := Collected)])
  {
    hide CooperativeRun, Advance, Holds, OutcomeOf;
    ReturnSteps(engine.codec, t.shared, t.exitClean, k, r);
    var answered := k.(pc := Answered(r), task := Collected);
    StepTo(engine, actions, t, base, c, k, t.shared, answered);
    var t1 := t.(calls := base[c := answered]);
    var leaving := answered.(pc := Leaving(OutcomeOf(r)));
    StepTo(engine, actions + [Step(c, false)], t1, base, c, answered, t.shared, leaving);
    var t2 := t.(calls := base[c := leaving]);
    var done := leaving.(pc := Done(OutcomeOf(r)));
    StepTo(engine, actions + [Step(c, false)] + [Step(c, false)], t2, base, c, leaving, t.shared.(tokens := 1), done);
    u := t.(shared := t.shared.(tokens := 1), calls := base[c := done], holder := None);
  }

  lemma Returns(engine: Engine, actions: seq<Action>, s: State, c: nat, kind: Kind, t: State) returns (u: State)
    requires c !in s.calls && kind.ExecuteCall? && CooperativeRun(engine, actions) == Some(t)
    requires t == Emitted(engine, s, c, kind).(consumed := t.consumed, received := t.received, calls := t.calls)
    requires t.calls == s.calls[c := At(s, kind, Awaiting, Finished(Ok(ExpectedFor(engine, kind)))).(receipt := Some(|s.received|))]
    ensures CooperativeRun(engine, actions + [Step(c, false)] + [Step(c, false)] + [Step(c, false)]) == Some(u)
    ensures ServedNext(engine, s, c, kind, u)
  {
    hide CooperativeRun, Answer, Frame, ExpectedFor, OutcomeOf;
    ExpectedKind(engine, kind);
    u := CallReturns(engine, actions, t, s.calls, c, t.calls[c], ExpectedFor(engine, kind));
  }

  lemma NotPresent(engine: Engine, s: State, c: nat, kind: Kind)
    requires ReadyFor(engine, s, c, kind)
    ensures c !in s.calls
  {
    hide EncodeFrame;
  }

  /** The request is served: its answer has been read back by the waiting goroutine. */
  lemma Transacts(engine: Engine, actions: seq<Action>, s: State, c: nat, kind: Kind) returns (more: seq<Action>, t: State)
    requires ValidEngine(engine) && CooperativeRun(engine, actions) == Some(s) && ReadyFor(engine, s, c, kind)
    ensures actions <= more && CooperativeRun(engine, more) == Some(t)
    ensures t == Emitted(engine, s, c, kind).(consumed := t.consumed, received := t.received, calls := t.calls)
    ensures t.calls == s.calls[c := At(s, kind, Awaiting, Finished(Ok(ExpectedFor(engine, kind)))).(receipt := Some(|s.received|))]
  {
    hide ValidEngine, CooperativeRun, ReadyFor, Answer, Frame, Launched, Emitted, Mine, ExpectedFor;
    ReadyIsQuiet(engine, actions, s, c, kind);
    more := Launches(engine, actions, s, c, kind);
    WritesAndEmits(engine, more, s, c, kind);
    more := more + [WriteChunk(c, |Frame(engine, s, kind)|)] + [Emit(Answer(engine, Mine(s, c, kind)))];
    t := Reads(engine, more, s, c, kind);
    more := more + [ReadFrame(c)];
  }

  lemma ExecuteFinishes(engine: Engine, actions: seq<Action>, s: State, c: nat, kind: Kind) returns (more: seq<Action>)
    requires ValidEngine(engine) && CooperativeRun(engine, actions) == Some(s) && ReadyFor(engine, s, c, kind) && kind.ExecuteCall?
    ensures actions <= more && CooperativeRun(engine, more).Some? && ServedNext(engine, s, c, kind, CooperativeRun(engine, more).value)
  {
    NotPresent(engine, s, c, kind);
    hide ValidEngine, CooperativeRun, ReadyFor, Emitted, ServedNext, ExpectedFor;
    var before, read := Transacts(engine, actions, s, c, kind);
    var t := Returns(engine, before, s, c, kind, read);
    more := before + [Step(c, false)] + [Step(c, false)] + [Step(c, false)];
  }

  /** From every idle open state a cooperative session can reach, an execute call can run to
      its end: it returns the oracle's answer to its workload, no other call has moved, and
      the session is idle and open again. */
  lemma ExecuteCompletes(engine: Engine, actions: seq<Action>, s: State, c: nat, kind: Kind)
    requires ValidEngine(engine) && CooperativeRun(engine, actions) == Some(s) && ReadyFor(engine, s, c, kind) && kind.ExecuteCall?
    ensures exists more: seq<Action> :: actions <= more && CooperativeRun(engine, more).Some? &&
              ServedNext(engine, s, c, kind, CooperativeRun(engine, more).value)
  {
    hide ValidEngine, CooperativeRun, ReadyFor, ServedNext;
    var more := ExecuteFinishes(engine, actions, s, c, kind);
  }

  /** Call `i` made the `i`-th request, for this workload, and returned the oracle's answer. */
  ghost predicate ItemServed(engine: Engine, t: State, i: nat, raw: RawJson) {
    && i < |t.log| && i < MAX_U64 && i in t.calls
    && t.log[i].call == i && t.log[i].id == i + 1 && t.log[i].kind == ExecuteCall(raw) && t.calls[i].pc == Done(OutcomeOf(ExpectedFor(engine, ExecuteCall(raw))))
  }

  /** A session that has served one call for each workload, in order, and nothing else. */
  ghost predicate BatchServed(engine: Engine, raws: seq<RawJson>, t: State) {
    && |raws| < MAX_U64 && t.shared == FRESH.(sequence := |raws| + 1) && t.holder.None? && |t.log| == |raws|
    && (forall c: nat :: c in t.calls <==> c < |raws|)
    && forall i :: 0 <= i < |raws| ==> ItemServed(engine, t, i, raws[i])
  }

  lemma ItemKept(engine: Engine, s: State, c: nat, kind: Kind, t: State, i: nat, raw: RawJson)
    requires ServedNext(engine, s, c, kind, t) && ItemServed(engine, s, i, raw)
    ensures ItemServed(engine, t, i, raw)
  {
    hide ExpectedFor, OutcomeOf;
    assert i in t.calls.Keys;
  }

  lemma ItemNew(engine: Engine, s: State, c: nat, raw: RawJson, t: State)
    requires ServedNext(engine, s, c, ExecuteCall(raw), t) && |s.log| == c < MAX_U64 && s.shared.sequence == c + 1
    ensures ItemServed(engine, t, c, raw)
  {
    hide ExpectedFor, OutcomeOf;
    assert c in t.calls.Keys;
  }

  lemma NextDomain(engine: Engine, s: State, c: nat, kind: Kind, t: State)
    requires ServedNext(engine, s, c, kind, t)
    ensures t.shared == s.shared.(tokens := 1, sequence := WrappingAdd(s.shared.sequence, 1)) && t.holder.None? && |t.log| == |s.log| + 1
    ensures forall d: nat :: d in t.calls <==> d in s.calls || d == c
  {
    hide ExpectedFor, OutcomeOf;
    assert forall d: nat :: d in t.calls <==> d in t.calls.Keys;
  }

  lemma BatchGrows(engine: Engine, raws: seq<RawJson>, s: State, t: State)
    requires raws != [] && |raws| < MAX_U64 && BatchServed(engine, raws[..|raws| - 1], s)
    requires ServedNext(engine, s, |raws| - 1, ExecuteCall(raws[|raws| - 1]), t)
    ensures BatchServed(engine, raws, t)
  {
    hide ServedNext, ItemServed;
    var n := |raws| - 1;
    NextDomain(engine, s, n, ExecuteCall(raws[n]), t);
    ItemNew(engine, s, n, raws[n], t);
    forall i | 0 <= i < n
      ensures ItemServed(engine, t, i, raws[i])
    {
      assert ItemServed(engine, s, i, raws[..n][i]);
      ItemKept(engine, s, n, ExecuteCall(raws[n]), t, i, raws[i]);
    }
  }

  lemma BatchReady(engine: Engine, raws: seq<RawJson>, s: State)
    requires raws != [] && |raws| < MAX_U64 && BatchServed(engine, raws[..|raws| - 1], s)
    requires EncodeFrame(engine.codec, ExecuteCall(raws[|raws| - 1]), |raws|).Ok?
    ensures ReadyFor(engine, s, |raws| - 1, ExecuteCall(raws[|raws| - 1]))
  {
    hide ItemServed, EncodeFrame;
  }

  lemma BatchStart(engine: Engine)
    ensures BatchServed(engine, [], START) && CooperativeRun(engine, []) == Some(START)
  {
  }

  lemma {:induction false} BatchFinishes(engine: Engine, raws: seq<RawJson>) returns (actions: seq<Action>)
    requires ValidEngine(engine) && |raws| < MAX_U64
    requires forall i :: 0 <= i < |raws| ==> EncodeFrame(engine.codec, ExecuteCall(raws[i]), i + 1).Ok?
    ensures CooperativeRun(engine, actions).Some? && BatchServed(engine, raws, CooperativeRun(engine, actions).value)
  {
    hide ValidEngine, CooperativeRun, ReadyFor, ServedNext, BatchServed, EncodeFrame;
    if raws == [] {
      BatchStart(engine);
      actions := [];
    } else {
      var n := |raws| - 1;
      actions := BatchFinishes(engine, raws[..n]);
      var s := CooperativeRun(engine, actions).value;
      BatchReady(engine, raws, s);
      actions := ExecuteFinishes(engine, actions, s, n, ExecuteCall(raws[n]));
      BatchGrows(engine, raws, s, CooperativeRun(engine, actions).value);
    }
  }

  /** One session can serve any list of workloads whose requests fit a frame, each with the
      oracle's answer, up to the last number it can hand out. */
  lemma BatchCompletes(engine: Engine, raws: seq<RawJson>)
    requires ValidEngine(engine) && |raws| < MAX_U64
    requires forall i :: 0 <= i < |raws| ==> EncodeFrame(engine.codec, ExecuteCall(raws[i]), i + 1).Ok?
    ensures exists actions: seq<Action> ::
              CooperativeRun(engine, actions).Some? && BatchServed(engine, raws, CooperativeRun(engine, actions).value)
  {
    hide ValidEngine, CooperativeRun, BatchServed, EncodeFrame;
    var actions := BatchFinishes(engine, raws);
  }

  // ------------------------------------------------------------- the session ends

  function Acking(k: Call): Call {
    k.(pc := Answered(ShutdownAck), task := Collected)
  }

  /** From a collected acknowledgement to waiting for the worker's exit. */
  lemma AckSteps(codec: Codec, s: Shared, exitClean: bool, k: Call)
    requires k.pc.Awaiting? && k.task == Finished(Ok(ShutdownAck)) && k.kind.ShutdownCall?
    ensures var (answered, closed) := (Acking(k), s.(state := Closed));
            && Advance(codec, s, exitClean, k, false) == Some((s, answered))
            && Advance(codec, s, exitClean, answered, false) == Some((s, answered.(pc := Acked)))
            && Advance(codec, s, exitClean, answered.(pc := Acked), false) == Some((closed, answered.(pc := ClosingInput)))
            && Advance(codec, closed, exitClean, answered.(pc := ClosingInput), false)
               == Some((closed.(inputClosed := true), answered.(pc := AwaitingExit)))
  {
    hide Reap, Prepare, Acquire;
  }

  /** From the worker's exit to the return. */
  lemma ExitSteps(codec: Codec, s: Shared, k: Call)
    requires k.pc.AwaitingExit? && s.waitDone && s.tokens == 0
    ensures var (gone, drained) := (s.(outputClosed := true), s.(outputClosed := true, stderrDone := true));
            && Advance(codec, s, true, k, false) == Some((gone, k.(pc := ExitSeen)))
            && Advance(codec, drained, true, k.(pc := ExitSeen), false) == Some((drained, k.(pc := Leaving(Acknowledged))))
            && Advance(codec, drained, true, k.(pc := Leaving(Acknowledged)), false)
               == Some((drained.(tokens := 1), k.(pc := Done(Acknowledged))))
  {
    hide Reap, Prepare, Acquire, Transact;
  }

  lemma Acknowledges(engine: Engine, actions: seq<Action>, t: State, base: map<nat, Call>, c: nat, k: Call) returns (more: seq<Action>)
    requires CooperativeRun(engine, actions) == Some(t) && t.calls == base[c := k] && t.holder == Some(c)
    requires k.pc.Awaiting? && k.task == Finished(Ok(ShutdownAck)) && k.kind.ShutdownCall?
    ensures actions <= more
    ensures CooperativeRun(engine, more)
         == Some(t.(shared := t.shared.(state := Closed, inputClosed := true), calls := base[c := Acking(k).(pc := AwaitingExit)]))
  {
    hide CooperativeRun, Advance;
    AckSteps(engine.codec, t.shared, t.exitClean, k);
    var answered, closed := Acking(k), t.shared.(state := Closed);
    StepTo(engine, actions, t, base, c, k, t.shared, answered);
    more := actions + [Step(c, false)];
    StepTo(engine, more, t.(calls := base[c := answered]), base, c, answered, t.shared, answered.(pc := Acked));
    more := more + [Step(c, false)];
    StepTo(engine, more, t.(calls := base[c := answered.(pc := Acked)]), base, c, answered.(pc := Acked), closed, answered.(pc := ClosingInput));
    more := more + [Step(c, false)];
    StepTo(engine, more, t.(shared := closed, calls := base[c := answered.(pc := ClosingInput)]), base, c, answered.(pc := ClosingInput),
           closed.(inputClosed := true), answered.(pc := AwaitingExit));
    more := more + [Step(c, false)];
  }

  /** The worker exits and is waited for. */
  lemma Exits(engine: Engine, actions: seq<Action>, t: State)
    requires CooperativeRun(engine, actions) == Some(t) && t.childAlive && Serve(engine, t.stdin, Failed) == Served(t.stdout, Ok(()))
    ensures CooperativeRun(engine, actions + [Exit(true)] + [Wait])
         == Some(t.(childAlive := false, exitClean := true, shared := t.shared.(waitDone := true)))
  {
    hide CooperativeRun, Serve;
    Take(engine, actions, t, Exit(true));
    Take(engine, actions + [Exit(true)], t.(childAlive := false, exitClean := true), Wait);
  }

  lemma Reaps(engine: Engine, actions: seq<Action>, t: State, base: map<nat, Call>, c: nat, k: Call) returns (more: seq<Action>)
    requires CooperativeRun(engine, actions) == Some(t) && t.calls == base[c := k] && t.holder == Some(c) && t.exitClean
    requires k.pc.AwaitingExit? && t.shared.waitDone && t.shared.tokens == 0
    ensures actions <= more
    ensures CooperativeRun(engine, more)
         == Some(t.(shared := t.shared.(outputClosed := true, stderrDone := true, tokens := 1), holder := None,
                    calls := base[c := k.(pc := Done(Acknowledged))]))
  {
    hide CooperativeRun, Advance;
    ExitSteps(engine.codec, t.shared, k);
    var gone, drained := t.shared.(outputClosed := true), t.shared.(outputClosed := true, stderrDone := true);
    StepTo(engine, actions, t, base, c, k, gone, k.(pc := ExitSeen));
    more := actions + [Step(c, false)];
    Take(engine, more, t.(shared := gone, calls := base[c := k.(pc := ExitSeen)]), DrainStderr);
    more := more + [DrainStderr];
    StepTo(engine, more, t.(shared := drained, calls := base[c := k.(pc := ExitSeen)]), base, c, k.(pc := ExitSeen), drained,
           k.(pc := Leaving(Acknowledged)));
    more := more + [Step(c, false)];
    StepTo(engine, more, t.(shared := drained, calls := base[c := k.(pc := Leaving(Acknowledged))]), base, c,
           k.(pc := Leaving(Acknowledged)), drained.(tokens := 1), k.(pc := Done(Acknowledged)));
    more := more + [Step(c, false)];
  }

  /** The session is closed, its worker has exited cleanly and everything of it is released. */
  ghost predicate Ended(s: State, c: nat, t: State) {
    && t.shared.state.Closed? && t.shared.inputClosed && t.shared.outputClosed && t.shared.waitDone && t.shared.stderrDone
    && t.shared.killed == s.shared.killed && t.shared.tokens == 1 && !t.childAlive && t.exitClean
    && c in t.calls && t.calls[c].pc == Done(Acknowledged) && forall d :: d in s.calls ==> d in t.calls && (d != c ==> t.calls[d] == s.calls[d])
  }

  lemma ServedOut(engine: Engine, s: State, c: nat, kind: Kind)
    requires ValidEngine(engine) && Quiet(engine, s) && ReadyFor(engine, s, c, kind) && kind.ShutdownCall?
    ensures Serve(engine, s.stdin + Frame(engine, s, kind), Failed) == Served(s.stdout + Answer(engine, Mine(s, c, kind)), Ok(()))
  {
    hide ValidEngine, ReadyFor, Serve, Frame, Answer, Requests, Answers, AllEncodable, ShutdownLast;
    MineEncodable(engine, s, c, kind);
    var log := s.log + [Mine(s, c, kind)];
    ServeComplete(engine, log);
    assert log[|log| - 1].kind == kind;
    assert Serve(engine, s.stdin + Frame(engine, s, kind), Failed).outcome.value == ();
  }

  lemma Ends(engine: Engine, actions: seq<Action>, t: State, base: map<nat, Call>, c: nat) returns (more: seq<Action>)
    requires CooperativeRun(engine, actions) == Some(t) && c in t.calls && t.calls == base[c := t.calls[c]] && t.holder == Some(c)
    requires t.calls[c].pc.Awaiting? && t.calls[c].task == Finished(Ok(ShutdownAck)) && t.calls[c].kind.ShutdownCall?
    requires t.childAlive && t.shared.tokens == 0 && Serve(engine, t.stdin, Failed) == Served(t.stdout, Ok(()))
    ensures actions <= more
    ensures CooperativeRun(engine, more)
         == Some(t.(shared := t.shared.(state := Closed, inputClosed := true, waitDone := true, outputClosed := true, stderrDone := true, tokens := 1),
                    childAlive := false, exitClean := true, holder := None,
                    calls := base[c := Acking(t.calls[c]).(pc := Done(Acknowledged))]))
  {
    hide CooperativeRun, Serve;
    more := Acknowledges(engine, actions, t, base, c, t.calls[c]);
    Exits(engine, more, CooperativeRun(engine, more).value);
    more := more + [Exit(true)] + [Wait];
    more := Reaps(engine, more, CooperativeRun(engine, more).value, base, c, Acking(t.calls[c]).(pc := AwaitingExit));
  }

  /** From the same states a shutdown call can run to its end: the worker acknowledges, exits
      cleanly on its own and is fully released, without ever being killed. */
  lemma ShutdownCompletes(engine: Engine, actions: seq<Action>, s: State, c: nat)
    requires ValidEngine(engine) && CooperativeRun(engine, actions) == Some(s) && ReadyFor(engine, s, c, ShutdownCall)
    ensures exists more: seq<Action> :: actions <= more && CooperativeRun(engine, more).Some? &&
              Ended(s, c, CooperativeRun(engine, more).value)
  {
    hide ValidEngine, CooperativeRun, ReadyFor, Serve, Frame, Answer;
    ReadyIsQuiet(engine, actions, s, c, ShutdownCall);
    ServedOut(engine, s, c, ShutdownCall);
    var more, t := Transacts(engine, actions, s, c, ShutdownCall);
    more := Ends(engine, more, t, s.calls, c);
    assert Ended(s, c, CooperativeRun(engine, more).value);
  }
}
