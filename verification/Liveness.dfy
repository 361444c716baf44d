/** No cooperative run ever gets stuck: from every state it can reach, whoever holds the token
    and whoever waits, every call can be run to its end. */
module Liveness {
  import opened Words
  import opened Framing
  import opened Protocol
  import opened Server
  import opened Agreement
  import opened Session
  import opened SessionSystem
  import opened SessionCalls
  import opened SessionHistory
  import opened SessionDelivery
  import opened SessionLockstep
  import opened SessionTheorems
  import opened Dialogue
  import opened Refinement
  import opened Completion

  // ------------------------------------------------------------- open pipes

  /** A request is only under way in an open session, and a worker that is gone has left all
      its answers behind. */
  ghost predicate WorkInv(engine: Engine, s: State) {
    && InputOpen(s.shared)
    && (forall c :: c in s.calls && Live(s.calls[c].task) ==> s.shared.state.Open?)
    && (!s.childAlive ==> s.stdout == Answers(engine, s.log))
  }

  lemma LiveAt(engine: Engine, s: State, c: nat)
    requires WorkInv(engine, s) && c in s.calls && Live(s.calls[c].task)
    ensures s.shared.state.Open? && !s.shared.inputClosed
  {
  }

  /** One call changes and nothing else that matters here. */
  lemma WorkUpdate(engine: Engine, s: State, t: State, c: nat, k: Call)
    requires WorkInv(engine, s) && t.calls == s.calls[c := k] && InputOpen(t.shared)
    requires Live(k.task) ==> t.shared.state.Open?
    requires t.shared.state == s.shared.state || forall d :: d in s.calls && d != c ==> !Live(s.calls[d].task)
    requires t.childAlive == s.childAlive && t.stdout == s.stdout && (t.log == s.log || t.childAlive)
    ensures WorkInv(engine, t)
  {
    hide Answers, Live;
  }

  lemma WorkStep(engine: Engine, s: State, c: nat, alt: bool)
    requires CoopInv(engine, s) && WorkInv(engine, s) && c in s.calls && StepCall(engine.codec, s, c, alt).Some?
    ensures WorkInv(engine, StepCall(engine.codec, s, c, alt).value)
  {
    hide Advance, CallsFit, PoisonInv, LogInv, DistinctIds, ReceiptInv, DeliveryInv, LockstepInv, RejectInv, ExpectedInv,
         AllGood, PipeInv, WorkInv, Local, GoodOutcome, ExpectedFor, TokenInv, EndInv, InputOpen, EncodeFrame;
    var k, t := s.calls[c], StepCall(engine.codec, s, c, alt).value;
    CallFits(s, c);
    GoodAt(engine, s, c);
    StepGood(engine, s, c, alt);
    AdvanceBalance(engine.codec, s.shared, s.exitClean, k, alt);
    StepInput(engine, s, c, alt);
    if k.pc.Acked? {
      HolderIs(s, c);
      OthersQuiet(s, c);
      AckedCollected(s.shared, k);
    } else if k.pc.Encoding? && t.calls[c].pc.Awaiting? {
      HolderIs(s, c);
      SendingOpen(engine, s, c);
      StillAlive(s);
    }
    LiveStays(engine, s, c);
    WorkUpdate(engine, s, t, c, t.calls[c]);
  }

  lemma LiveStays(engine: Engine, s: State, c: nat)
    requires WorkInv(engine, s) && c in s.calls
    ensures Live(s.calls[c].task) ==> s.shared.state.Open?
  {
  }

  lemma StillAlive(s: State)
    requires EndInv(s) && !LastShutdown(s.log)
    ensures s.childAlive
  {
  }

  lemma AckedCollected(s: Shared, k: Call)
    requires Local(s, k) && k.pc.Acked?
    ensures k.task.Collected?
  {
  }

  lemma HolderIs(s: State, c: nat)
    requires TokenInv(s) && c in s.calls && Holds(s.calls[c].pc)
    ensures s.holder == Some(c)
  {
  }

  lemma StepInput(engine: Engine, s: State, c: nat, alt: bool)
    requires CallsFit(s) && AllGood(engine, s) && WorkInv(engine, s) && c in s.calls && StepCall(engine.codec, s, c, alt).Some?
    ensures InputOpen(StepCall(engine.codec, s, c, alt).value.shared)
  {
    hide Advance, Local, Good, CallsFit, AllGood, Answers;
    CallFits(s, c);
    GoodAt(engine, s, c);
    Placed(engine, s.shared, s.calls[c]);
    AdvanceInput(engine.codec, s.shared, s.exitClean, s.calls[c], alt);
  }

  lemma WorkTask(engine: Engine, s: State, a: Action)
    requires WorkInv(engine, s) && (a.WriteChunk? || a.ReadFrame?) && a.c in s.calls && StepTask(engine.codec, s, a).Some?
    ensures WorkInv(engine, StepTask(engine.codec, s, a).value)
  {
    hide StepTask, WorkInv;
    TaskStep(engine.codec, s, a);
    LiveAt(engine, s, a.c);
    var t := StepTask(engine.codec, s, a).value;
    InputSame(engine, s);
    WorkUpdate(engine, s, t, a.c, t.calls[a.c]);
  }

  lemma InputSame(engine: Engine, s: State)
    requires WorkInv(engine, s)
    ensures InputOpen(s.shared)
  {
  }

  lemma WorkWorld(engine: Engine, s: State, a: Action)
    requires ValidEngine(engine) && PipeInv(engine, s) && WorkInv(engine, s)
    requires (a.Emit? || a.Exit? || a.Wait? || a.DrainStderr?) && Cooperative(engine, s, a) && StepWorld(s, a).Some?
    ensures WorkInv(engine, StepWorld(s, a).value)
  {
    hide Serve, ValidEngine, PipeInv, Answers, Unwritten;
    ServedSoFar(engine, s);
  }

  lemma WorkKept(engine: Engine, s: State, a: Action)
    requires ValidEngine(engine) && CoopInv(engine, s) && WorkInv(engine, s)
    requires Cooperative(engine, s, a) && Next(engine.codec, s, a).Some?
    ensures WorkInv(engine, Next(engine.codec, s, a).value)
  {
    hide ValidEngine, StepCall, StepTask, StepWorld, WorkInv, Serve, Inv, AllGood, EndInv, PipeInv;
    match a
    case Invoke(c, kind) =>
      InputSame(engine, s);
      WorkUpdate(engine, s, Next(engine.codec, s, a).value, c, Begin(kind));
    case Step(c, alt) => WorkStep(engine, s, c, alt);
    case WriteChunk(_, _) => WorkTask(engine, s, a);
    case ReadFrame(_) => WorkTask(engine, s, a);
    case Emit(_) => WorkWorld(engine, s, a);
    case Exit(_) => WorkWorld(engine, s, a);
    case Wait => WorkWorld(engine, s, a);
    case DrainStderr => WorkWorld(engine, s, a);
  }

  lemma {:induction false} RunWork(engine: Engine, actions: seq<Action>)
    requires ValidEngine(engine) && CooperativeRun(engine, actions).Some?
    ensures WorkInv(engine, CooperativeRun(engine, actions).value)
  {
    hide ValidEngine, Next, Cooperative, CoopInv;
    if actions != [] {
      var n := |actions| - 1;
      RunWork(engine, actions[..n]);
      CooperativeInv(engine, actions[..n]);
      WorkKept(engine, CooperativeRun(engine, actions[..n]).value, actions[n]);
    }
  }

  // -------------------------------------------------------------------- ranks

  /** How far a call is from its end, at most, whatever the pipes and the worker do. */
  function PcRank(pc: Pc): nat {
    match pc
    case Enter => 20
    case Waiting => 19
    case Granted => 18
    case Checking => 17
    case Numbering => 16
    case Encoding => 15
    case Awaiting => 14
    case Answered(_) => 10
    case Acked => 9
    case ClosingInput => 8
    case AwaitingExit => 7
    case ExitSeen => 4
    case Leaving(_) => 2
    case _ => 0
  }

  /** The same, knowing what has been written, answered and reaped already. */
  ghost function Rank(engine: Engine, s: State, k: Call): (r: nat)
    ensures r <= PcRank(k.pc)
  {
    match k.pc
    case Awaiting =>
      if k.task.Writing? then 14 else if k.task.Reading? then (if s.stdout == Answers(engine, s.log) then 12 else 13) else 11
    case AwaitingExit => if s.childAlive then 7 else if !s.shared.waitDone then 6 else 5
    case ExitSeen => if !s.shared.stderrDone then 4 else 3
    case pc => PcRank(pc)
  }

  /** An action is enabled, brings the call nearer to its end and leaves all others alone. */
  ghost predicate Nearer(engine: Engine, s: State, c: nat, a: Action) {
    && Cooperative(engine, s, a) && Next(engine.codec, s, a).Some?
    && var t := Next(engine.codec, s, a).value;
       && t.calls.Keys == s.calls.Keys && (t.holder == Some(c) || t.holder == None)
       && c in s.calls && Rank(engine, t, t.calls[c]) < Rank(engine, s, s.calls[c]) && t.calls[c].kind == s.calls[c].kind
       && forall d :: d in s.calls && d != c ==> t.calls[d] == s.calls[d]
  }

  /** The step a caller can take by itself, and where it leads. */
  ghost predicate StepsDown(codec: Codec, s: Shared, exitClean: bool, k: Call, rank: nat) {
    && Advance(codec, s, exitClean, k, false).Some?
    && var next := Advance(codec, s, exitClean, k, false).value.1; PcRank(next.pc) < rank && next.kind == k.kind
  }

  lemma AcquireDown(codec: Codec, s: Shared, exitClean: bool, k: Call)
    requires !k.cancelled && (k.pc.Enter? || (k.pc.Waiting? && s.tokens > 0) || k.pc.Granted?)
    ensures StepsDown(codec, s, exitClean, k, PcRank(k.pc))
  {
  }

  lemma PrepareDown(codec: Codec, s: Shared, exitClean: bool, k: Call)
    requires (k.pc.Checking? && (s.state.Open? ==> !s.waitDone)) || k.pc.Numbering? || (k.pc.Encoding? && k.id.Some?)
    ensures StepsDown(codec, s, exitClean, k, PcRank(k.pc))
  {
    hide EncodeFrame;
  }

  lemma CollectDown(codec: Codec, s: Shared, exitClean: bool, k: Call)
    requires k.pc.Awaiting? && k.task.Finished? && k.task.result.Ok?
    ensures StepsDown(codec, s, exitClean, k, 11)
  {
  }

  lemma ConcludeDown(codec: Codec, s: Shared, exitClean: bool, k: Call)
    requires k.pc.Answered? || k.pc.Acked? || k.pc.ClosingInput? || (k.pc.Leaving? && s.tokens == 0)
    ensures StepsDown(codec, s, exitClean, k, PcRank(k.pc))
  {
    hide Reap, Prepare, Acquire, Transact;
  }

  lemma ExitDown(codec: Codec, s: Shared, exitClean: bool, k: Call)
    requires (k.pc.AwaitingExit? && s.waitDone) || (k.pc.ExitSeen? && s.stderrDone)
    ensures StepsDown(codec, s, exitClean, k, if k.pc.AwaitingExit? then 5 else 3)
  {
    hide Reap, Prepare, Acquire, Transact;
  }

  lemma StepNearer(engine: Engine, s: State, c: nat)
    requires TokenInv(s) && c in s.calls && (s.holder == Some(c) || s.holder == None)
    requires StepsDown(engine.codec, s.shared, s.exitClean, s.calls[c], Rank(engine, s, s.calls[c]))
    ensures Nearer(engine, s, c, Step(c, false))
  {
    hide Advance, Rank, PcRank, Holds;
    var t := StepCall(engine.codec, s, c, false).value;
    assert Rank(engine, t, t.calls[c]) <= PcRank(t.calls[c].pc);
  }

  // ------------------------------------------------------- one action nearer

  /** What is needed of a call and its surroundings, whatever it is doing. */
  ghost predicate Ready(engine: Engine, s: State, c: nat) {
    && CoopInv(engine, s) && WorkInv(engine, s) && c in s.calls && !s.calls[c].pc.Done?
    && (s.holder == Some(c) || s.holder == None)
  }

  /** The places a cooperative call can be at. */
  lemma Places(engine: Engine, s: State, c: nat)
    requires CallsFit(s) && AllGood(engine, s) && TokenInv(s) && c in s.calls && !s.calls[c].pc.Done?
    requires s.holder == Some(c) || s.holder == None
    ensures var (pc, task) := (s.calls[c].pc, s.calls[c].task);
            && !s.calls[c].cancelled
            && (pc.Enter? || pc.Waiting? || (s.holder == Some(c)
                && (pc.Granted? || pc.Checking? || pc.Numbering? || pc.Encoding? || pc.Awaiting? || pc.Answered? || pc.Acked?
                    || pc.ClosingInput? || pc.AwaitingExit? || pc.ExitSeen? || pc.Leaving?)))
            && (pc.Waiting? ==> s.holder == None)
            && (pc.Awaiting? ==> (task.Writing? && task.rest != []) || task.Reading? || (task.Finished? && task.result.Ok?))
            && (!pc.Awaiting? ==> !Live(task))
            && (pc.Encoding? ==> s.calls[c].id.Some?)
            && (pc.AwaitingExit? ==> !s.shared.state.Open?)
  {
    hide ExpectedFor, GoodOutcome, AllGood, CallsFit;
    CallFits(s, c);
    GoodAt(engine, s, c);
  }

  lemma WriteNearer(engine: Engine, s: State, c: nat)
    requires WorkInv(engine, s) && c in s.calls && s.holder == Some(c)
    requires s.calls[c].pc.Awaiting? && s.calls[c].task.Writing? && s.calls[c].task.rest != []
    ensures Nearer(engine, s, c, WriteChunk(c, |s.calls[c].task.rest|))
  {
    hide WorkInv, Answers;
    LiveAt(engine, s, c);
  }

  /** While a goroutine reads, the worker can finish its answer, and then it can be read. */
  lemma EmitNearer(engine: Engine, s: State, c: nat) returns (a: Action)
    requires ValidEngine(engine) && PipeInv(engine, s) && WorkInv(engine, s) && c in s.calls && s.holder == Some(c)
    requires s.calls[c].pc.Awaiting? && s.calls[c].task.Reading? && s.stdout != Answers(engine, s.log)
    ensures Nearer(engine, s, c, a)
  {
    hide ValidEngine, Serve, Requests, Answers, AllEncodable, ShutdownLast, RequestBytes, InputOpen;
    assert Unwritten(s) == [];
    ServedSoFar(engine, s);
    var rest := Answers(engine, s.log)[|s.stdout|..];
    assert s.stdout + rest == Answers(engine, s.log);
    a := Emit(rest);
  }

  lemma AnswerWhole(engine: Engine, s: State, c: nat)
    requires PipeInv(engine, s) && LogInv(s) && LockstepInv(s) && c in s.calls && s.holder == Some(c) && s.calls[c].task.Reading?
    requires s.stdout == Answers(engine, s.log)
    ensures |s.log| == |s.received| + 1 && Encodable(engine.codec, s.log[|s.received|]) && s.consumed <= |s.stdout|
    ensures s.stdout[s.consumed..] == Answer(engine, s.log[|s.received|]) && s.calls[c].id.Some?
  {
    hide LogInv, LockstepInv, Answer, Answers, Encodable, RequestBytes, Requests, AllEncodable, ShutdownLast;
    UnreadAnswer(engine, s, c);
  }

  /** A whole line can be read, and reading it changes nothing but its own call. */
  lemma LineReads(codec: Codec, s: State, c: nat, payload: seq<Byte>)
    requires c in s.calls && s.calls[c].task.Reading? && s.calls[c].id.Some? && s.consumed <= |s.stdout|
    requires GoFrame(MAX_FRAME_BYTES, s.stdout[s.consumed..], Eof) == Payload(payload)
    ensures StepTask(codec, s, ReadFrame(c)).Some?
    ensures var t := StepTask(codec, s, ReadFrame(c)).value;
            && c in t.calls && t.calls == s.calls[c := t.calls[c]] && t.holder == s.holder
            && t.calls[c] == s.calls[c].(task := t.calls[c].task, receipt := t.calls[c].receipt) && t.calls[c].task.Finished?
  {
    hide GoFrame, LineEnd, Decoded;
  }

  lemma ReadNearer(engine: Engine, s: State, c: nat)
    requires ValidEngine(engine) && PipeInv(engine, s) && LogInv(s) && LockstepInv(s) && c in s.calls && s.holder == Some(c)
    requires s.calls[c].pc.Awaiting? && s.calls[c].task.Reading? && s.stdout == Answers(engine, s.log)
    ensures Nearer(engine, s, c, ReadFrame(c))
  {
    hide ValidEngine, PipeInv, LogInv, LockstepInv, Answer, AnswerEnvelope, Answers, Encodable, GoFrame, StepTask;
    AnswerWhole(engine, s, c);
    var e := s.log[|s.received|];
    AnswerFrame(engine, e);
    LineReads(engine.codec, s, c, engine.codec.encodeResponse(AnswerEnvelope(engine, e)));
  }

  lemma ExitNearer(engine: Engine, s: State, c: nat)
    requires ValidEngine(engine) && PipeInv(engine, s) && EndInv(s) && c in s.calls && s.holder == Some(c)
    requires s.calls[c].pc.AwaitingExit? && !Live(s.calls[c].task) && !s.shared.state.Open? && s.childAlive
    ensures Nearer(engine, s, c, Exit(true))
  {
    hide ValidEngine, Serve, Requests, Answers, AllEncodable, ShutdownLast, RequestBytes;
    AllAnswered(engine, s);
    assert s.stdin + Unwritten(s) == s.stdin;
    ServeComplete(engine, s.log);
    UnitOk(Serve(engine, s.stdin, Failed).outcome);
  }

  lemma UnitOk(r: Result<(), ServerError>)
    requires r.Ok?
    ensures r == Ok(())
  {
    assert r.value == ();
  }

  lemma AllAnswered(engine: Engine, s: State)
    requires PipeInv(engine, s) && !Busy(s)
    ensures Unwritten(s) == [] && s.stdout == Answers(engine, s.log)
  {
    hide Requests, Answers, AllEncodable, ShutdownLast, RequestBytes;
    assert s.log[..|s.received|] == s.log;
  }

  lemma WaitNearer(engine: Engine, s: State, c: nat)
    requires c in s.calls && s.holder == Some(c)
    ensures s.calls[c].pc.AwaitingExit? && !s.childAlive && !s.shared.waitDone ==> Nearer(engine, s, c, Wait)
    ensures s.calls[c].pc.ExitSeen? && !s.shared.stderrDone ==> Nearer(engine, s, c, DrainStderr)
  {
    hide Answers;
  }

  /** A caller's own step, wherever it needs nobody else. */
  lemma CallerNearer(engine: Engine, s: State, c: nat)
    requires Ready(engine, s, c) && !s.calls[c].pc.AwaitingExit? && !s.calls[c].pc.ExitSeen?
    requires s.calls[c].pc.Awaiting? ==> s.calls[c].task.Finished?
    ensures Nearer(engine, s, c, Step(c, false))
  {
    hide CallsFit, PoisonInv, LogInv, DistinctIds, ReceiptInv, DeliveryInv, LockstepInv, RejectInv, ExpectedInv, AllGood, PipeInv,
         WorkInv, StepsDown, Nearer, EndInv, Answers;
    var k := s.calls[c];
    Places(engine, s, c);
    CheckingFinds(engine, s, c);
    if k.pc.Awaiting? {
      CollectDown(engine.codec, s.shared, s.exitClean, k);
    } else if k.pc.Enter? || k.pc.Waiting? || k.pc.Granted? {
      AcquireDown(engine.codec, s.shared, s.exitClean, k);
    } else if k.pc.Checking? || k.pc.Numbering? || k.pc.Encoding? {
      PrepareDown(engine.codec, s.shared, s.exitClean, k);
    } else {
      ConcludeDown(engine.codec, s.shared, s.exitClean, k);
    }
    StepNearer(engine, s, c);
  }

  /** After an acknowledged shutdown: the worker exits, is waited for, and is drained. */
  lemma EndNearer(engine: Engine, s: State, c: nat) returns (a: Action)
    requires ValidEngine(engine) && Ready(engine, s, c) && (s.calls[c].pc.AwaitingExit? || s.calls[c].pc.ExitSeen?)
    ensures Nearer(engine, s, c, a)
  {
    hide ValidEngine, CallsFit, PoisonInv, LogInv, DistinctIds, ReceiptInv, DeliveryInv, LockstepInv, RejectInv, ExpectedInv, AllGood,
         PipeInv, WorkInv, StepsDown, Nearer, EndInv, Answers;
    var k := s.calls[c];
    Places(engine, s, c);
    WaitNearer(engine, s, c);
    if k.pc.AwaitingExit? && s.childAlive {
      ExitNearer(engine, s, c);
      a := Exit(true);
    } else if k.pc.AwaitingExit? && !s.shared.waitDone {
      a := Wait;
    } else if k.pc.ExitSeen? && !s.shared.stderrDone {
      a := DrainStderr;
    } else {
      ExitDown(engine.codec, s.shared, s.exitClean, k);
      WaitedIsGone(s);
      StepNearer(engine, s, c);
      a := Step(c, false);
    }
  }

  lemma WaitedIsGone(s: State)
    requires EndInv(s)
    ensures s.shared.waitDone ==> !s.childAlive
  {
  }

  /** Whatever the call that may move is doing, something brings it nearer to its end. */
  lemma SomeNearer(engine: Engine, s: State, c: nat) returns (a: Action)
    requires ValidEngine(engine) && Ready(engine, s, c)
    ensures Nearer(engine, s, c, a)
  {
    hide ValidEngine, CallsFit, PoisonInv, LogInv, DistinctIds, ReceiptInv, DeliveryInv, LockstepInv, RejectInv, ExpectedInv, AllGood,
         PipeInv, WorkInv, Nearer, EndInv, Answers, TokenInv;
    var k := s.calls[c];
    Places(engine, s, c);
    if k.pc.Awaiting? && k.task.Writing? {
      WriteNearer(engine, s, c);
      a := WriteChunk(c, |k.task.rest|);
    } else if k.pc.Awaiting? && k.task.Reading? {
      if s.stdout == Answers(engine, s.log) {
        ReadNearer(engine, s, c);
        a := ReadFrame(c);
      } else {
        a := EmitNearer(engine, s, c);
      }
    } else if k.pc.AwaitingExit? || k.pc.ExitSeen? {
      a := EndNearer(engine, s, c);
    } else {
      CallerNearer(engine, s, c);
      a := Step(c, false);
    }
  }

  // -------------------------------------------------------- runs to the end

  /** The call has returned; nobody else has moved, and nobody holds the token. */
  ghost predicate Finished1(s: State, c: nat, t: State) {
    && t.calls.Keys == s.calls.Keys && c in s.calls && t.holder == None && t.calls[c].pc.Done? && t.calls[c].kind == s.calls[c].kind
    && forall d :: d in s.calls && d != c ==> t.calls[d] == s.calls[d]
  }

  lemma FinishedVia(engine: Engine, s: State, c: nat, a: Action, t: State)
    requires Nearer(engine, s, c, a) && Finished1(Next(engine.codec, s, a).value, c, t)
    ensures Finished1(s, c, t)
  {
    hide Cooperative, Next, Rank;
    var u := Next(engine.codec, s, a).value;
    assert forall d :: d in s.calls <==> d in u.calls.Keys;
  }

  lemma RunReady(engine: Engine, actions: seq<Action>, s: State, c: nat)
    requires ValidEngine(engine) && CooperativeRun(engine, actions) == Some(s) && c in s.calls
    requires !s.calls[c].pc.Done? && (s.holder == Some(c) || s.holder == None)
    ensures Ready(engine, s, c)
  {
    hide ValidEngine, CooperativeRun, CoopInv, WorkInv;
    CooperativeInv(engine, actions);
    RunWork(engine, actions);
  }

  lemma DoneIsFinished(engine: Engine, actions: seq<Action>, s: State, c: nat)
    requires ValidEngine(engine) && CooperativeRun(engine, actions) == Some(s) && c in s.calls
    requires s.calls[c].pc.Done? && (s.holder == Some(c) || s.holder == None)
    ensures Finished1(s, c, s)
  {
    hide ValidEngine, CooperativeRun, CallsFit, PoisonInv, LogInv, DistinctIds, ReceiptInv, DeliveryInv, LockstepInv, RejectInv,
         ExpectedInv, AllGood, EndInv, PipeInv;
    CooperativeInv(engine, actions);
    InvToken(engine, s);
  }

  /** A call that holds the token, or finds it free, runs to its end. */
  lemma {:induction false} Finishes(engine: Engine, actions: seq<Action>, s: State, c: nat) returns (more: seq<Action>)
    requires ValidEngine(engine) && CooperativeRun(engine, actions) == Some(s) && c in s.calls
    requires s.holder == Some(c) || s.holder == None
    ensures actions <= more && CooperativeRun(engine, more).Some? && Finished1(s, c, CooperativeRun(engine, more).value)
    decreases Rank(engine, s, s.calls[c])
  {
    hide ValidEngine, CooperativeRun, Cooperative, Next, Rank, CoopInv, WorkInv;
    if s.calls[c].pc.Done? {
      DoneIsFinished(engine, actions, s, c);
      more := actions;
    } else {
      RunReady(engine, actions, s, c);
      var a := SomeNearer(engine, s, c);
      Take(engine, actions, s, a);
      var t := Next(engine.codec, s, a).value;
      assert c in t.calls.Keys;
      more := Finishes(engine, actions + [a], t, c);
      FinishedVia(engine, s, c, a, CooperativeRun(engine, more).value);
    }
  }

  // ---------------------------------------------------------------- theorems

  ghost function Unreturned(s: State): set<nat> {
    set c | c in s.calls && !s.calls[c].pc.Done?
  }

  /** Every call has returned, with what a sequential oracle would have told it. */
  ghost predicate AllReturned(engine: Engine, s: State, t: State) {
    && t.calls.Keys == s.calls.Keys && t.shared.tokens == 1
    && forall c :: c in s.calls ==>
         t.calls[c].kind == s.calls[c].kind && t.calls[c].pc.Done? && GoodOutcome(engine, t.calls[c], t.calls[c].pc.outcome)
  }

  lemma HolderRuns(engine: Engine, actions: seq<Action>, s: State)
    requires ValidEngine(engine) && CooperativeRun(engine, actions) == Some(s)
    ensures s.holder.Some? ==> s.holder.value in Unreturned(s)
  {
    hide ValidEngine, CooperativeRun, CallsFit, PoisonInv, LogInv, DistinctIds, ReceiptInv, DeliveryInv, LockstepInv, RejectInv,
         ExpectedInv, AllGood, EndInv, PipeInv;
    CooperativeInv(engine, actions);
    InvToken(engine, s);
  }

  /** Nobody holds the token and nobody is left. */
  lemma NobodyLeft(engine: Engine, actions: seq<Action>, s: State)
    requires ValidEngine(engine) && CooperativeRun(engine, actions) == Some(s) && Unreturned(s) == {}
    ensures AllReturned(engine, s, s)
  {
    hide ValidEngine, CooperativeRun, CallsFit, PoisonInv, LogInv, DistinctIds, ReceiptInv, DeliveryInv, LockstepInv, RejectInv,
         ExpectedInv, EndInv, PipeInv, AllGood, GoodOutcome;
    CooperativeInv(engine, actions);
    InvToken(engine, s);
    HolderRuns(engine, actions, s);
    forall c | c in s.calls
      ensures s.calls[c].pc.Done? && GoodOutcome(engine, s.calls[c], s.calls[c].pc.outcome)
    {
      assert c !in Unreturned(s);
      GoodAt(engine, s, c);
    }
  }

  lemma FewerLeft(s: State, c: nat, t: State)
    requires Finished1(s, c, t) && c in Unreturned(s)
    ensures Unreturned(t) == Unreturned(s) - {c} && |Unreturned(t)| < |Unreturned(s)|
    ensures forall d :: d in s.calls ==> d in t.calls && t.calls[d].kind == s.calls[d].kind
  {
    assert forall d :: d in t.calls <==> d in s.calls.Keys;
  }

  lemma ReturnedVia(engine: Engine, s: State, c: nat, t: State, u: State)
    requires Finished1(s, c, t) && AllReturned(engine, t, u)
    ensures AllReturned(engine, s, u)
  {
    hide GoodOutcome;
    assert forall d :: d in s.calls <==> d in t.calls.Keys;
  }

  /** The call to drive next: the holder, or any call that waits. */
  lemma NextCall(engine: Engine, actions: seq<Action>, s: State) returns (c: nat)
    requires ValidEngine(engine) && CooperativeRun(engine, actions) == Some(s) && Unreturned(s) != {}
    ensures c in Unreturned(s) && (s.holder == Some(c) || s.holder == None)
  {
    hide ValidEngine, CooperativeRun;
    HolderRuns(engine, actions, s);
    if s.holder.Some? {
      c := s.holder.value;
    } else {
      c :| c in Unreturned(s);
    }
  }

  lemma {:induction false} AllFinish(engine: Engine, actions: seq<Action>, s: State) returns (more: seq<Action>)
    requires ValidEngine(engine) && CooperativeRun(engine, actions) == Some(s)
    ensures actions <= more && CooperativeRun(engine, more).Some? && AllReturned(engine, s, CooperativeRun(engine, more).value)
    decreases |Unreturned(s)|
  {
    hide ValidEngine, CooperativeRun, Finished1, AllReturned, Rank;
    if Unreturned(s) == {} {
      NobodyLeft(engine, actions, s);
      more := actions;
    } else {
      var c := NextCall(engine, actions, s);
      var before := Finishes(engine, actions, s, c);
      var t := CooperativeRun(engine, before).value;
      FewerLeft(s, c, t);
      more := AllFinish(engine, before, t);
      ReturnedVia(engine, s, c, t, CooperativeRun(engine, more).value);
    }
  }

  /** From every state that any cooperative run can reach, with a request half written, an
      answer half read, a shutdown waiting for the worker's exit and any number of callers
      waiting for the token, the run can go on until every one of these calls has returned
      what a sequential oracle would have told it. */
  lemma EveryCallReturns(engine: Engine, actions: seq<Action>, s: State)
    requires ValidEngine(engine) && CooperativeRun(engine, actions) == Some(s)
    ensures exists more: seq<Action> :: actions <= more && CooperativeRun(engine, more).Some? &&
              AllReturned(engine, s, CooperativeRun(engine, more).value)
  {
    hide ValidEngine, CooperativeRun, AllReturned;
    var more := AllFinish(engine, actions, s);
  }
}
