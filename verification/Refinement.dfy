/** Against the real server, without cancellation, force-close or pipe failure, concurrent
    calls behave as sequential oracle calls. */
module Refinement {
  import opened Words
  import opened Framing
  import opened Protocol
  import opened Server
  import opened Agreement
  import opened Session
  import opened SessionSystem
  import opened SessionCalls
  import opened SessionHistory
  import opened SessionDelivery
  import opened SessionLockstep
  import opened SessionTheorems
  import opened Dialogue
  import Contracts
  import Hex

  /** No cancellation, no force-close, no pipe failure; the worker writes a prefix of what the
      server answers to the bytes it was sent, and exits once it has written all of it and the
      server has returned. */
  ghost predicate Cooperative(engine: Engine, s: State, a: Action) {
    match a
    case Invoke(_, kind) => !kind.CloseCall?
    case Cancel(_) => false
    case WriteFail(_) => false
    case ReadFail(_) => false
    case Emit(bytes) => s.stdout + bytes <= Serve(engine, s.stdin, Failed).output
    case Exit(clean) => clean && Serve(engine, s.stdin, Failed) == Served(s.stdout, Ok(()))
    case _ => true
  }

  ghost function CooperativeRun(engine: Engine, actions: seq<Action>): Option<State> {
    if actions == [] then Some(START) else
      var n := |actions| - 1;
      match CooperativeRun(engine, actions[..n])
      case None => None
      case Some(s) => if Cooperative(engine, s, actions[n]) then Next(engine.codec, s, actions[n]) else None
  }

  // --------------------------------------------------------------- one call

  /** The answer a returned call may carry. */
  ghost predicate GoodOutcome(engine: Engine, k: Call, o: Outcome) {
    match o
    case Delivered(result) => k.kind.ExecuteCall? && Completed(result) == ExpectedFor(engine, k.kind)
    case RemoteReported(error) => k.kind.ExecuteCall? && RemoteFailure(error) == ExpectedFor(engine, k.kind)
    case Acknowledged => k.kind.ShutdownCall?
    case ForceClosed => false
    case Refused(why) => k.task.NoTask? && (why.SessionClosed? || why.IdsExhausted? || why.EncodeRejected?)
  }

  ghost predicate Good(engine: Engine, s: Shared, k: Call) {
    && !k.cancelled && !k.kind.CloseCall?
    && !k.pc.Interrupted? && !k.pc.Failing? && !k.pc.Reaping? && !k.pc.Draining? && !k.pc.CloseEnter?
    && (k.task.Writing? ==> k.task.rest != [])
    && (k.task.Finished? ==> k.task.result == Ok(ExpectedFor(engine, k.kind)))
    && (k.pc.Answered? ==> k.pc.response == ExpectedFor(engine, k.kind))
    && (Sending(k) ==> s.state.Open?)
    && (k.pc.Leaving? ==> GoodOutcome(engine, k, k.pc.outcome))
    && (k.pc.Done? ==> GoodOutcome(engine, k, k.pc.outcome))
  }

  lemma ExpectedKind(engine: Engine, kind: Kind)
    ensures ExpectedFor(engine, kind).ShutdownAck? <==> !kind.ExecuteCall?
  {
    hide ExpectedIssues, Oracle;
  }

  ghost predicate GoodMoves(engine: Engine, s: Shared, k: Call, t: Shared, next: Call) {
    && Good(engine, t, next) && !t.state.Poisoned?
    && t.waitDone == s.waitDone
    && (t.state != s.state ==> k.pc.Acked? && t.state.Closed?)
    && (k.pc.Acked? ==> t.state.Closed?)
    && next.kind == k.kind
    && (next.task == k.task
        || (k.task.Finished? && next.task.Collected?)
        || (k.pc.Encoding? && next.pc.Awaiting? && k.id.Some? && EncodeFrame(engine.codec, k.kind, k.id.value).Ok?
            && next.task == Writing(EncodeFrame(engine.codec, k.kind, k.id.value).value)))
    && (k.kind.ShutdownCall? && (k.pc.Awaiting? || k.pc.Answered?) ==> next.pc.Answered? || next.pc.Acked?)
    && (k.pc.Encoding? && next.pc.Awaiting? ==> next.task.Writing?)
  }

  lemma AdvanceGood(engine: Engine, s: Shared, exitClean: bool, k: Call, alt: bool)
    requires Local(s, k) && Good(engine, s, k) && !s.state.Poisoned?
    requires k.pc.Checking? && s.state.Open? ==> !s.waitDone
    requires k.pc.ExitSeen? ==> exitClean
    requires Advance(engine.codec, s, exitClean, k, alt).Some?
    ensures var (t, next) := Advance(engine.codec, s, exitClean, k, alt).value; GoodMoves(engine, s, k, t, next)
  {
    LocalTask(s, k);
    assert IdFits(s, k);
    if k.pc.Awaiting? {
      TransactGood(engine, s, k, alt);
    } else if k.pc.Checking? || k.pc.Numbering? || k.pc.Encoding? {
      PrepareGood(engine, s, k);
    } else if !k.pc.Enter? && !k.pc.Waiting? && !k.pc.Granted? {
      ConcludeGood(engine, s, exitClean, k, alt);
    } else {
      AcquireGood(engine, s, k, alt);
    }
    hide GoodMoves, Acquire, Prepare, Transact, Reap, Conclude, TaskFits, KindFits, IdFits, PcFits;
  }

  lemma AcquireGood(engine: Engine, s: Shared, k: Call, alt: bool)
    requires Good(engine, s, k) && !s.state.Poisoned? && (k.pc.Enter? || k.pc.Waiting? || k.pc.Granted?)
    ensures Acquire(s, k, alt).Some? ==> var (t, next) := Acquire(s, k, alt).value; GoodMoves(engine, s, k, t, next)
  {
    hide ExpectedFor;
  }

  lemma PrepareGood(engine: Engine, s: Shared, k: Call)
    requires IdFits(s, k) && TaskFits(k) && Good(engine, s, k) && !s.state.Poisoned?
    requires k.pc.Checking? || k.pc.Numbering? || k.pc.Encoding?
    requires k.pc.Checking? && s.state.Open? ==> !s.waitDone
    ensures Prepare(engine.codec, s, k).Some? ==>
              var (t, next) := Prepare(engine.codec, s, k).value; GoodMoves(engine, s, k, t, next)
  {
    hide EncodeFrame, ExpectedFor;
    if k.pc.Encoding? && k.id.Some? {
      FrameNotEmpty(engine.codec, k.kind, k.id.value);
    }
  }

  lemma FrameNotEmpty(codec: Codec, kind: Kind, id: U64)
    ensures EncodeFrame(codec, kind, id).Ok? ==> EncodeFrame(codec, kind, id).value != []
  {
  }

  lemma TransactGood(engine: Engine, s: Shared, k: Call, alt: bool)
    requires TaskFits(k) && Good(engine, s, k) && !s.state.Poisoned? && k.pc.Awaiting?
    ensures Transact(s, k, alt).Some? ==> var (t, next) := Transact(s, k, alt).value; GoodMoves(engine, s, k, t, next)
  {
    hide ExpectedFor;
  }

  lemma ConcludeGood(engine: Engine, s: Shared, exitClean: bool, k: Call, alt: bool)
    requires TaskFits(k) && KindFits(k) && Good(engine, s, k) && !s.state.Poisoned?
    requires !k.pc.Awaiting? && !Sending(k)
    requires k.pc.ExitSeen? ==> exitClean
    ensures Conclude(s, exitClean, k, alt).Some? ==>
              var (t, next) := Conclude(s, exitClean, k, alt).value; GoodMoves(engine, s, k, t, next)
  {
    ExpectedKind(engine, k.kind);
    hide ExpectedFor, EncodeFrame;
  }

  // ---------------------------------------------------------------- all calls

  ghost predicate AllGood(engine: Engine, s: State) {
    forall c :: c in s.calls ==> Good(engine, s.shared, s.calls[c])
  }

  predicate LastShutdown(log: seq<Sent>) {
    log != [] && log[|log| - 1].kind.ShutdownCall?
  }

  /** The worker only exits, and the session only closes, over a shutdown that was sent last;
      until it closes, that shutdown call is still at work. */
  ghost predicate EndInv(s: State) {
    && !s.shared.state.Poisoned?
    && (s.shared.waitDone ==> !s.childAlive)
    && (!s.childAlive ==> s.exitClean && LastShutdown(s.log))
    && (!s.shared.state.Open? ==> LastShutdown(s.log))
    && (forall c :: c in s.calls && s.calls[c].kind.ShutdownCall? && !s.calls[c].task.NoTask? ==>
          LastShutdown(s.log) && s.log[|s.log| - 1].call == c)
    && (LastShutdown(s.log) && s.shared.state.Open? ==>
          var c := s.log[|s.log| - 1].call;
          s.holder == Some(c) && c in s.calls && (s.calls[c].pc.Awaiting? || s.calls[c].pc.Answered? || s.calls[c].pc.Acked?))
  }

  /** Bytes of the current request still to be written. */
  function Unwritten(s: State): seq<Byte> {
    if s.holder.Some? && s.holder.value in s.calls && s.calls[s.holder.value].task.Writing?
    then s.calls[s.holder.value].task.rest else []
  }

  predicate Busy(s: State) {
    s.holder.Some? && s.holder.value in s.calls && Live(s.calls[s.holder.value].task)
  }

  /** Both pipes hold exactly the dialogue so far. */
  ghost predicate PipeInv(engine: Engine, s: State) {
    && AllEncodable(engine.codec, s.log) && ShutdownLast(s.log)
    && s.stdin + Unwritten(s) == Requests(engine.codec, s.log)
    && (Unwritten(s) != [] ==> s.log != [] && |Unwritten(s)| <= |RequestBytes(engine.codec, s.log[|s.log| - 1])|)
    && |s.received| <= |s.log|
    && s.consumed == |Answers(engine, s.log[..|s.received|])| && s.consumed <= |s.stdout|
    && s.stdout <= Answers(engine, if Unwritten(s) == [] then s.log else s.log[..|s.log| - 1])
    && (!Busy(s) ==> |s.received| == |s.log|)
  }

  ghost predicate CoopInv(engine: Engine, s: State) {
    Inv(engine.codec, s) && AllGood(engine, s) && EndInv(s) && PipeInv(engine, s)
  }

  lemma GoodAt(engine: Engine, s: State, c: nat)
    requires AllGood(engine, s) && c in s.calls
    ensures Good(engine, s.shared, s.calls[c])
  {
  }

  /** A change of state elsewhere never touches a call that is not about to send. */
  lemma GoodElsewhere(engine: Engine, s: Shared, t: Shared, k: Call)
    requires Good(engine, s, k) && (t.state == s.state || !Sending(k))
    ensures Good(engine, t, k)
  {
    hide GoodOutcome, ExpectedFor;
  }

  lemma GoodUpdate(engine: Engine, s: State, t: State, c: nat, k: Call)
    requires AllGood(engine, s) && t.calls == s.calls[c := k] && Good(engine, t.shared, k)
    requires t.shared.state == s.shared.state || forall d :: d in s.calls && d != c ==> !Sending(s.calls[d])
    ensures AllGood(engine, t)
  {
    hide Good, Sending;
    forall d | d in t.calls
      ensures Good(engine, t.shared, t.calls[d])
    {
      if d != c {
        GoodElsewhere(engine, s.shared, t.shared, s.calls[d]);
      }
    }
  }

  // ------------------------------------------------------------ caller steps

  lemma CheckingFinds(engine: Engine, s: State, c: nat)
    requires EndInv(s) && c in s.calls && TokenInv(s)
    ensures s.calls[c].pc.Checking? && s.shared.state.Open? ==> !s.shared.waitDone
    ensures s.calls[c].pc.ExitSeen? && s.shared.waitDone ==> s.exitClean
  {
  }

  lemma ExitSeenWaited(s: Shared, k: Call)
    requires Local(s, k)
    ensures k.pc.ExitSeen? ==> s.waitDone
    ensures k.pc.Acked? ==> k.kind.ShutdownCall? && k.task.Collected? && Holds(k.pc)
    ensures k.pc.Encoding? ==> k.id.Some? && Holds(k.pc) && k.task.NoTask?
    ensures k.task.Finished? || Live(k.task) ==> Holds(k.pc)
  {
  }

  lemma StepGood(engine: Engine, s: State, c: nat, alt: bool)
    requires CallsFit(s) && TokenInv(s) && AllGood(engine, s) && EndInv(s)
    requires c in s.calls && StepCall(engine.codec, s, c, alt).Some?
    ensures var t := StepCall(engine.codec, s, c, alt).value;
            AllGood(engine, t) && GoodMoves(engine, s.shared, s.calls[c], t.shared, t.calls[c])
  {
    hide Advance, CallsFit, Local, AllGood, Good, KindFits, TaskFits, EndInv;
    var k, t := s.calls[c], StepCall(engine.codec, s, c, alt).value;
    CallFits(s, c);
    GoodAt(engine, s, c);
    CheckingFinds(engine, s, c);
    ExitSeenWaited(s.shared, k);
    NotPoisoned(s);
    AdvanceGood(engine, s.shared, s.exitClean, k, alt);
    if k.pc.Acked? {
      OthersQuiet(s, c);
    }
    GoodUpdate(engine, s, t, c, t.calls[c]);
  }

  lemma NotPoisoned(s: State)
    requires EndInv(s)
    ensures !s.shared.state.Poisoned?
  {
  }

  lemma EndFrame(s: State, t: State, c: nat, k: Call)
    requires EndInv(s) && t.log == s.log && c in s.calls && t.calls == s.calls[c := k]
    requires k.kind == s.calls[c].kind && (s.calls[c].task.NoTask? ==> k.task.NoTask?)
    requires t.childAlive == s.childAlive && t.exitClean == s.exitClean && t.shared.waitDone == s.shared.waitDone
    requires !t.shared.state.Poisoned? && (t.shared.state != s.shared.state ==> t.shared.state.Closed? && LastShutdown(s.log))
    requires t.shared.state.Open? && s.holder == Some(c) && LastShutdown(s.log) && s.log[|s.log| - 1].call == c ==>
               t.holder == Some(c) && (k.pc.Awaiting? || k.pc.Answered? || k.pc.Acked?)
    requires s.holder.Some? && s.holder != Some(c) ==> t.holder == s.holder
    ensures EndInv(t)
  {
  }

  lemma EndSend(s: State, t: State, c: nat, k: Call, e: Sent)
    requires EndInv(s) && !LastShutdown(s.log) && c in s.calls && t.calls == s.calls[c := k]
    requires t.log == s.log + [e] && e.call == c && e.kind == k.kind && k.kind == s.calls[c].kind
    requires t.childAlive == s.childAlive && t.exitClean == s.exitClean && t.shared == s.shared
    requires t.holder == Some(c) && k.pc.Awaiting?
    ensures EndInv(t)
  {
  }

  /** Neither the pipes nor the history change, and no goroutine starts or stops writing. */
  lemma PipeFrame(engine: Engine, s: State, t: State)
    requires PipeInv(engine, s) && t.log == s.log && t.received == s.received
    requires t.stdin == s.stdin && t.stdout == s.stdout && t.consumed == s.consumed
    requires Unwritten(t) == Unwritten(s) && (Busy(s) ==> Busy(t))
    ensures PipeInv(engine, t)
  {
    hide Unwritten, Busy, Requests, Answers, AllEncodable, ShutdownLast, RequestBytes;
  }

  lemma LastExecute(codec: Codec, log: seq<Sent>)
    requires AllEncodable(codec, log) && !LastShutdown(log)
    ensures log != [] ==> log[|log| - 1].kind.ExecuteCall?
  {
    hide EncodeFrame;
  }

  lemma PipeSend(engine: Engine, s: State, t: State, e: Sent)
    requires PipeInv(engine, s) && !Busy(s) && Unwritten(s) == [] && !LastShutdown(s.log)
    requires Encodable(engine.codec, e) && t.log == s.log + [e] && t.received == s.received
    requires t.stdin == s.stdin && t.stdout == s.stdout && t.consumed == s.consumed
    requires Unwritten(t) == RequestBytes(engine.codec, e) && Busy(t) && RequestBytes(engine.codec, e) != []
    ensures PipeInv(engine, t)
  {
    hide Unwritten, Busy, RequestBytes, Answer, Encodable;
    assert t.log[..|t.log| - 1] == s.log;
    assert t.log[..|t.received|] == s.log[..|s.received|];
    assert s.stdin == Requests(engine.codec, s.log);
    assert forall i :: 0 <= i < |s.log| ==> t.log[i] == s.log[i];
    LastExecute(engine.codec, s.log);
    assert ShutdownLast(t.log);
  }

  /** The only task changes a caller's step makes outside a launch. */
  lemma UnwrittenKept(s: State, t: State, c: nat, k: Call)
    requires TokenInv(s) && TokenInv(t) && c in s.calls && t.calls == s.calls[c := k]
    requires Live(s.calls[c].task) ==> Holds(s.calls[c].pc)
    requires Live(k.task) ==> Holds(k.pc)
    requires k.task == s.calls[c].task || (s.calls[c].task.Finished? && k.task.Collected?)
    requires s.holder.Some? && s.holder != Some(c) ==> t.holder == s.holder
    requires s.holder == Some(c) ==> t.holder == Some(c) || t.holder == None
    requires s.holder == None ==> t.holder == None || t.holder == Some(c)
    ensures Unwritten(t) == Unwritten(s) && Busy(t) == Busy(s)
  {
    hide Holds;
  }

  lemma HolderMoves(engine: Engine, s: State, c: nat, alt: bool)
    requires CallsFit(s) && TokenInv(s) && c in s.calls && StepCall(engine.codec, s, c, alt).Some?
    ensures var t := StepCall(engine.codec, s, c, alt).value;
            && TokenInv(t)
            && (s.holder.Some? && s.holder != Some(c) ==> t.holder == s.holder)
            && (s.holder == Some(c) ==> t.holder == Some(c) || t.holder == None)
            && (s.holder == None ==> t.holder == None || t.holder == Some(c))
  {
    hide Advance, CallsFit, Local, Holds, KindFits;
    CallFits(s, c);
    LocalKind(s.shared, s.calls[c]);
    AdvanceToken(engine.codec, s.shared, s.exitClean, s.calls[c], alt);
    TokenKept(engine.codec, s, Step(c, alt));
  }

  /** What the pipes and the ending need to know about one caller's step. */
  ghost predicate StepShape(engine: Engine, s: State, c: nat, t: State) {
    && c in s.calls && c in t.calls && t.calls == s.calls[c := t.calls[c]]
    && t.stdin == s.stdin && t.stdout == s.stdout && t.consumed == s.consumed && t.received == s.received
    && t.childAlive == s.childAlive && t.exitClean == s.exitClean
    && (Live(s.calls[c].task) ==> Holds(s.calls[c].pc)) && (Live(t.calls[c].task) ==> Holds(t.calls[c].pc))
    && if s.calls[c].pc.Encoding? && t.calls[c].pc.Awaiting? then
         && s.calls[c].id.Some? && t.log == s.log + [Launch(s, c, s.calls[c])]
         && t.holder == Some(c) && t.shared == s.shared && s.calls[c].task.NoTask?
       else t.log == s.log
  }

  lemma StepShaped(engine: Engine, s: State, c: nat, alt: bool)
    requires CallsFit(s) && TokenInv(s) && c in s.calls && StepCall(engine.codec, s, c, alt).Some?
    ensures StepShape(engine, s, c, StepCall(engine.codec, s, c, alt).value)
  {
    hide Advance, CallsFit, Local, Holds;
    var k, t := s.calls[c], StepCall(engine.codec, s, c, alt).value;
    CallFits(s, c);
    ExitSeenWaited(s.shared, k);
    AdvanceLocal(engine.codec, s.shared, s.exitClean, k, alt);
    ExitSeenWaited(t.shared, t.calls[c]);
    if k.pc.Encoding? {
      EncodingShared(engine.codec, s.shared, s.exitClean, k, alt);
      AwaitingHolds(t.calls[c].pc);
    }
  }

  lemma AwaitingHolds(pc: Pc)
    ensures pc.Awaiting? ==> Holds(pc)
  {
  }

  lemma EncodingShared(codec: Codec, s: Shared, exitClean: bool, k: Call, alt: bool)
    requires k.pc.Encoding? && Advance(codec, s, exitClean, k, alt).Some?
    ensures Advance(codec, s, exitClean, k, alt).value.0 == s
  {
    hide EncodeFrame;
  }

  lemma StepPipes(engine: Engine, s: State, c: nat, alt: bool)
    requires CallsFit(s) && TokenInv(s) && LogInv(s) && AllGood(engine, s) && EndInv(s) && PipeInv(engine, s)
    requires c in s.calls && StepCall(engine.codec, s, c, alt).Some?
    ensures PipeInv(engine, StepCall(engine.codec, s, c, alt).value) && EndInv(StepCall(engine.codec, s, c, alt).value)
  {
    hide StepCall, CallsFit, AllGood, EndInv, PipeInv, Good, TokenInv, LogInv;
    var k, t := s.calls[c], StepCall(engine.codec, s, c, alt).value;
    StepGood(engine, s, c, alt);
    StepShaped(engine, s, c, alt);
    HolderMoves(engine, s, c, alt);
    GoodAt(engine, s, c);
    if k.pc.Encoding? && t.calls[c].pc.Awaiting? {
      StepSends(engine, s, c, t);
    } else {
      UnwrittenKept(s, t, c, t.calls[c]);
      PipeFrame(engine, s, t);
      StepEnds(engine, s, c, t);
    }
  }

  lemma StepSends(engine: Engine, s: State, c: nat, t: State)
    requires TokenInv(s) && AllGood(engine, s) && EndInv(s) && PipeInv(engine, s) && StepShape(engine, s, c, t)
    requires GoodMoves(engine, s.shared, s.calls[c], t.shared, t.calls[c]) && Good(engine, s.shared, s.calls[c])
    requires s.calls[c].pc.Encoding? && t.calls[c].pc.Awaiting?
    ensures PipeInv(engine, t) && EndInv(t)
  {
    hide AllGood, PipeInv, GoodOutcome, ExpectedFor, EncodeFrame, Requests, Answers;
    var k := s.calls[c];
    var e := Launch(s, c, k);
    assert s.holder == Some(c);
    SendingOpen(engine, s, c);
    EndSend(s, t, c, t.calls[c], e);
    FrameNotEmpty(engine.codec, k.kind, k.id.value);
    PipeSend(engine, s, t, e);
  }

  lemma SendingOpen(engine: Engine, s: State, c: nat)
    requires EndInv(s) && c in s.calls && Good(engine, s.shared, s.calls[c]) && s.holder == Some(c) && s.calls[c].pc.Encoding?
    ensures !LastShutdown(s.log)
  {
    hide GoodOutcome, ExpectedFor;
  }

  lemma StepEnds(engine: Engine, s: State, c: nat, t: State)
    requires CallsFit(s) && TokenInv(s) && TokenInv(t) && LogInv(s) && EndInv(s) && StepShape(engine, s, c, t) && t.log == s.log
    requires GoodMoves(engine, s.shared, s.calls[c], t.shared, t.calls[c])
    requires !(s.calls[c].pc.Encoding? && t.calls[c].pc.Awaiting?)
    requires s.holder.Some? && s.holder != Some(c) ==> t.holder == s.holder
    ensures EndInv(t)
  {
    hide CallsFit, GoodOutcome, Good, Local, EncodeFrame, Holds;
    var k := s.calls[c];
    CallFits(s, c);
    ExitSeenWaited(s.shared, k);
    AnsweredHolds(t.calls[c].pc);
    if k.pc.Acked? {
      AckedLast(s, c);
    }
    if LastShutdown(s.log) && s.log[|s.log| - 1].call == c {
      assert k.kind.ShutdownCall?;
    }
    EndFrame(s, t, c, t.calls[c]);
  }

  lemma AnsweredHolds(pc: Pc)
    ensures pc.Awaiting? || pc.Answered? || pc.Acked? ==> Holds(pc)
  {
  }

  lemma AckedLast(s: State, c: nat)
    requires EndInv(s) && c in s.calls && s.calls[c].kind.ShutdownCall? && !s.calls[c].task.NoTask?
    ensures LastShutdown(s.log)
  {
  }

  // --------------------------------------------------------- goroutine steps

  lemma WritePipes(engine: Engine, s: State, c: nat, n: nat)
    requires TokenInv(s) && PipeInv(engine, s) && c in s.calls && s.holder == Some(c)
    requires StepTask(engine.codec, s, WriteChunk(c, n)).Some?
    ensures PipeInv(engine, StepTask(engine.codec, s, WriteChunk(c, n)).value)
  {
    hide RequestBytes, Answer, Encodable, TokenInv;
    var t := StepTask(engine.codec, s, WriteChunk(c, n)).value;
    var rest := s.calls[c].task.rest;
    assert Unwritten(t) == rest[n..];
    assert s.stdin + rest == (s.stdin + rest[..n]) + rest[n..];
    AnswersGrow(engine, s.log);
  }

  lemma AnswersGrow(engine: Engine, log: seq<Sent>)
    ensures log != [] ==> Answers(engine, log[..|log| - 1]) <= Answers(engine, log)
  {
    hide Answer;
  }

  /** The unread output of a waiting goroutine is a prefix of its own answer. */
  lemma UnreadAnswer(engine: Engine, s: State, c: nat)
    requires PipeInv(engine, s) && LogInv(s) && LockstepInv(s) && c in s.calls && s.holder == Some(c) && s.calls[c].task.Reading?
    ensures |s.log| == |s.received| + 1
    ensures var e := s.log[|s.received|];
            && Encodable(engine.codec, e) && s.calls[c].id == Some(e.id) && s.calls[c].kind == e.kind
            && s.stdout[s.consumed..] <= Answer(engine, e)
            && |Answers(engine, s.log)| == s.consumed + |Answer(engine, e)|
  {
    hide Answer, Encodable, RequestBytes, Requests;
    BalanceAt(s, c);
    var init, e := s.log[..|s.received|], s.log[|s.received|];
    assert s.log[..|s.log| - 1] == init;
    assert Answers(engine, s.log) == Answers(engine, init) + Answer(engine, e);
    PrefixTail(Answers(engine, init), Answer(engine, e), s.stdout);
  }

  lemma PrefixTail(a: seq<Byte>, b: seq<Byte>, whole: seq<Byte>)
    requires whole <= a + b && |a| <= |whole|
    ensures whole[|a|..] <= b
  {
    assert whole == (a + b)[..|whole|];
    assert whole[|a|..] == b[..|whole| - |a|];
  }

  /** A frame read is the call's own answer and decodes to exactly what is expected. */
  lemma ReadGood(engine: Engine, s: State, c: nat)
    requires ValidEngine(engine) && PipeInv(engine, s) && LogInv(s) && LockstepInv(s) && c in s.calls && s.holder == Some(c)
    requires StepTask(engine.codec, s, ReadFrame(c)).Some?
    ensures var t, k := StepTask(engine.codec, s, ReadFrame(c)).value, s.calls[c];
            && t.calls == s.calls[c := k.(task := Finished(Ok(ExpectedFor(engine, k.kind))), receipt := Some(|s.received|))]
            && |t.received| == |s.received| + 1 && |s.log| == |s.received| + 1
            && t.consumed == |Answers(engine, s.log)| == |s.stdout|
  {
    hide ValidEngine, PipeInv, LogInv, LockstepInv, Encodable, AnswerEnvelope, Answer, Decoded, GoFrame, LineEnd, Answers;
    UnreadAnswer(engine, s, c);
    var e, data := s.log[|s.received|], s.stdout[s.consumed..];
    AnswerRead(engine, e, data);
    AnswerDecodes(engine, e);
  }

  lemma ReadPipes(engine: Engine, s: State, c: nat)
    requires ValidEngine(engine) && PipeInv(engine, s) && LogInv(s) && LockstepInv(s) && c in s.calls && s.holder == Some(c)
    requires StepTask(engine.codec, s, ReadFrame(c)).Some?
    ensures PipeInv(engine, StepTask(engine.codec, s, ReadFrame(c)).value)
  {
    hide StepTask, LogInv, LockstepInv, ValidEngine, Encodable, RequestBytes, Requests, Answers, AllEncodable, ShutdownLast,
         ExpectedFor;
    var t := StepTask(engine.codec, s, ReadFrame(c)).value;
    ReadGood(engine, s, c);
    ReadOnly(engine.codec, s, c);
    assert s.log[..|t.received|] == s.log;
  }

  lemma ReadOnly(codec: Codec, s: State, c: nat)
    requires c in s.calls && StepTask(codec, s, ReadFrame(c)).Some?
    ensures var t := StepTask(codec, s, ReadFrame(c)).value;
            t.stdin == s.stdin && t.stdout == s.stdout && t.log == s.log && t.holder == s.holder && s.calls[c].task.Reading?
  {
    hide GoFrame, Decoded;
  }

  lemma TaskGood(engine: Engine, s: State, a: Action)
    requires ValidEngine(engine) && Inv(engine.codec, s) && AllGood(engine, s) && EndInv(s) && PipeInv(engine, s)
    requires (a.WriteChunk? || a.ReadFrame?) && a.c in s.calls && StepTask(engine.codec, s, a).Some?
    ensures var t := StepTask(engine.codec, s, a).value; AllGood(engine, t) && EndInv(t) && PipeInv(engine, t)
  {
    hide StepTask, ValidEngine, CallsFit, PoisonInv, LogInv, DistinctIds, ReceiptInv, DeliveryInv, LockstepInv, RejectInv, ExpectedInv,
         AllGood, EndInv, PipeInv, Good, ExpectedFor;
    var t, c := StepTask(engine.codec, s, a).value, a.c;
    TaskStep(engine.codec, s, a);
    OneTransaction(s, c, c);
    GoodAt(engine, s, c);
    if a.ReadFrame? {
      ReadGood(engine, s, c);
      ReadPipes(engine, s, c);
      FinishedGood(engine, s.shared, s.calls[c], t.calls[c]);
    } else {
      WritePipes(engine, s, c, a.n);
      WrittenGood(engine, s, c, a.n);
    }
    GoodUpdate(engine, s, t, c, t.calls[c]);
    NotPoisoned(s);
    EndTask(s, t, c);
  }

  lemma FinishedGood(engine: Engine, s: Shared, k: Call, next: Call)
    requires Good(engine, s, k) && Transacting(k.pc)
    requires next == k.(task := Finished(Ok(ExpectedFor(engine, k.kind))), receipt := next.receipt)
    ensures Good(engine, s, next)
  {
    hide ExpectedFor;
  }

  lemma WrittenGood(engine: Engine, s: State, c: nat, n: nat)
    requires c in s.calls && Good(engine, s.shared, s.calls[c]) && Transacting(s.calls[c].pc)
    requires StepTask(engine.codec, s, WriteChunk(c, n)).Some?
    ensures Good(engine, s.shared, StepTask(engine.codec, s, WriteChunk(c, n)).value.calls[c])
  {
    hide ExpectedFor;
  }

  lemma EndTask(s: State, t: State, c: nat)
    requires EndInv(s) && c in s.calls && c in t.calls && t.calls == s.calls[c := t.calls[c]]
    requires t.shared == s.shared && t.holder == s.holder && t.log == s.log && t.childAlive == s.childAlive && t.exitClean == s.exitClean
    requires t.calls[c] == s.calls[c].(task := t.calls[c].task, receipt := t.calls[c].receipt) && Live(s.calls[c].task)
    ensures EndInv(t)
  {
  }

  // -------------------------------------------------------------- worker steps

  /** What the server answers to the bytes written so far. */
  lemma ServedSoFar(engine: Engine, s: State)
    requires ValidEngine(engine) && PipeInv(engine, s)
    ensures var served := Serve(engine, s.stdin, Failed);
            && served.output == Answers(engine, if Unwritten(s) == [] then s.log else s.log[..|s.log| - 1])
            && (served.outcome.Ok? ==> LastShutdown(s.log) && Unwritten(s) == [])
  {
    hide Serve, ValidEngine, Encodable, RequestBytes, Requests, Answers, Unwritten, AllEncodable, ShutdownLast;
    if Unwritten(s) == [] {
      assert s.stdin == s.stdin + Unwritten(s);
      ServeComplete(engine, s.log);
    } else {
      ServeIncomplete(engine, s.log, s.stdin, Unwritten(s));
    }
  }

  lemma WorldGood(engine: Engine, s: State, a: Action)
    requires ValidEngine(engine) && AllGood(engine, s) && EndInv(s) && PipeInv(engine, s)
    requires (a.Emit? || a.Exit? || a.Wait? || a.DrainStderr?) && Cooperative(engine, s, a) && StepWorld(s, a).Some?
    ensures var t := StepWorld(s, a).value; AllGood(engine, t) && EndInv(t) && PipeInv(engine, t)
  {
    hide Serve, ValidEngine, Encodable, RequestBytes, Requests, Answers, AllEncodable, ShutdownLast, Good, AllGood;
    var t := StepWorld(s, a).value;
    ServedSoFar(engine, s);
    assert Unwritten(t) == Unwritten(s) && Busy(t) == Busy(s);
    GoodWorld(engine, s, t);
  }

  lemma GoodWorld(engine: Engine, s: State, t: State)
    requires AllGood(engine, s) && t.calls == s.calls && t.shared.state == s.shared.state
    ensures AllGood(engine, t)
  {
    hide Good;
    forall c | c in t.calls
      ensures Good(engine, t.shared, t.calls[c])
    {
      GoodElsewhere(engine, s.shared, t.shared, s.calls[c]);
    }
  }

  lemma InvokeGood(engine: Engine, s: State, c: nat, kind: Kind)
    requires TokenInv(s) && LogInv(s) && AllGood(engine, s) && EndInv(s) && PipeInv(engine, s) && c !in s.calls && !kind.CloseCall?
    ensures var t := s.(calls := s.calls[c := Begin(kind)]); AllGood(engine, t) && EndInv(t) && PipeInv(engine, t)
  {
    hide AllGood, PipeInv, ExpectedFor;
    var t := s.(calls := s.calls[c := Begin(kind)]);
    assert Unwritten(t) == Unwritten(s) && Busy(t) == Busy(s);
    PipeFrame(engine, s, t);
    GoodUpdate(engine, s, t, c, Begin(kind));
  }

  // ------------------------------------------------------------------ theorem

  lemma CoopKept(engine: Engine, s: State, a: Action)
    requires ValidEngine(engine) && CoopInv(engine, s) && Cooperative(engine, s, a) && Next(engine.codec, s, a).Some?
    ensures CoopInv(engine, Next(engine.codec, s, a).value)
  {
    hide ValidEngine, StepCall, StepTask, StepWorld, AllGood, EndInv, PipeInv, Serve;
    InvKept(engine.codec, s, a);
    hide CallsFit, PoisonInv, LogInv, DistinctIds, ReceiptInv, DeliveryInv, LockstepInv, RejectInv, ExpectedInv, TokenInv;
    match a
    case Invoke(c, kind) => InvokeGood(engine, s, c, kind);
    case Step(c, alt) =>
      StepGood(engine, s, c, alt);
      StepPipes(engine, s, c, alt);
    case WriteChunk(_, _) => TaskGood(engine, s, a);
    case ReadFrame(_) => TaskGood(engine, s, a);
    case Emit(_) => WorldGood(engine, s, a);
    case Exit(_) => WorldGood(engine, s, a);
    case Wait => WorldGood(engine, s, a);
    case DrainStderr => WorldGood(engine, s, a);
  }

  lemma CoopStart(engine: Engine)
    ensures CoopInv(engine, START)
  {
    hide Inv;
    InvStart(engine.codec);
  }

  lemma {:induction false} CooperativeInv(engine: Engine, actions: seq<Action>)
    requires ValidEngine(engine) && CooperativeRun(engine, actions).Some?
    ensures CoopInv(engine, CooperativeRun(engine, actions).value)
  {
    hide ValidEngine, CoopInv, Next, Cooperative;
    if actions == [] {
      CoopStart(engine);
    } else {
      var n := |actions| - 1;
      CooperativeInv(engine, actions[..n]);
      CoopKept(engine, CooperativeRun(engine, actions[..n]).value, actions[n]);
    }
  }

  function OutcomeOf(r: Response): Outcome {
    match r
    case Completed(result) => Delivered(result)
    case RemoteFailure(error) => RemoteReported(error)
    case ShutdownAck => Acknowledged
  }

  /** The session is never poisoned and closes only over an acknowledged shutdown; every call
      that sent its request and returned got exactly the sequential answer to its own request;
      and between calls the two pipes hold the requests and their answers, pair by pair. */
  lemma SequentialOracle(engine: Engine, actions: seq<Action>, s: State)
    requires ValidEngine(engine) && CooperativeRun(engine, actions) == Some(s)
    ensures !s.shared.state.Poisoned? && (!s.shared.state.Open? ==> LastShutdown(s.log))
    ensures forall i :: 0 <= i < |s.log| - 1 ==> s.log[i].kind.ExecuteCall?
    ensures forall i :: 0 <= i < |s.log| && s.log[i].call in s.calls && s.calls[s.log[i].call].pc.Done? ==>
              s.calls[s.log[i].call].pc.outcome == OutcomeOf(ExpectedFor(engine, s.log[i].kind))
    ensures s.shared.tokens > 0 ==>
              && s.stdin == Requests(engine.codec, s.log) && s.stdout == Answers(engine, s.log)
              && |s.received| == |s.log|
  {
    hide ValidEngine, CooperativeRun, AllGood, CallsFit, PoisonInv, DistinctIds, ReceiptInv, DeliveryInv, LockstepInv, RejectInv, ExpectedInv,
         ExpectedFor, GoodOutcome;
    CooperativeInv(engine, actions);
    forall i | 0 <= i < |s.log| && s.log[i].call in s.calls && s.calls[s.log[i].call].pc.Done?
      ensures s.calls[s.log[i].call].pc.outcome == OutcomeOf(ExpectedFor(engine, s.log[i].kind))
    {
      var k := s.calls[s.log[i].call];
      GoodAt(engine, s, s.log[i].call);
      OutcomeExact(engine, k);
    }
    if s.shared.tokens > 0 {
      IdlePipes(engine, s);
    }
  }

  lemma OutcomeExact(engine: Engine, k: Call)
    requires k.pc.Done? && GoodOutcome(engine, k, k.pc.outcome) && !k.task.NoTask? && !k.kind.CloseCall?
    ensures k.pc.outcome == OutcomeOf(ExpectedFor(engine, k.kind))
  {
    hide Agreement.Expected;
  }

  lemma IdlePipes(engine: Engine, s: State)
    requires PipeInv(engine, s) && s.holder.None?
    ensures s.stdin == Requests(engine.codec, s.log) && s.stdout == Answers(engine, s.log) && |s.received| == |s.log|
  {
    hide Requests, Answers, AllEncodable, ShutdownLast, RequestBytes;
    assert s.log[..|s.received|] == s.log;
    assert s.stdin + Unwritten(s) == s.stdin;
  }

  /** In particular an execute call on a valid workload returns the oracle's own result, bit
      for bit, and on an invalid one the structured validation error. */
  lemma ExecuteReturnsOracle(engine: Engine, actions: seq<Action>, s: State, c: nat, w: Contracts.WorkloadSpec)
    requires ValidEngine(engine) && CooperativeRun(engine, actions) == Some(s) && c in s.calls
    requires s.calls[c].pc.Done? && s.calls[c].kind.ExecuteCall? && !s.calls[c].pc.outcome.Refused?
    requires engine.codec.decodeWorkload(s.calls[c].kind.workload) == Some(w)
    ensures Contracts.ValidWorkload(w) ==> s.calls[c].pc.outcome.Delivered? && Oracle(engine.ops, w) == Ok(s.calls[c].pc.outcome.result)
    ensures !Contracts.ValidWorkload(w) ==>
              && s.calls[c].pc.outcome.RemoteReported? && s.calls[c].pc.outcome.error.code == "invalid_workload"
              && s.calls[c].pc.outcome.error.issues == ExpectedIssues(engine, Contracts.WorkloadIssues(w))
  {
    hide CooperativeRun, CallsFit, TokenInv, PoisonInv, LogInv, DistinctIds, ReceiptInv, DeliveryInv, LockstepInv, RejectInv, ExpectedInv,
         EndInv, PipeInv, ValidEngine;
    CooperativeInv(engine, actions);
    GoodAt(engine, s, c);
    OracleOutcome(engine, s.calls[c], w);
  }

  lemma SameWorkload(engine: Engine, raw: RawJson)
    requires ValidEngine(engine)
    ensures engine.codec.decodeWorkload(engine.codec.compact(raw)) == engine.codec.decodeWorkload(raw)
  {
  }

  lemma OracleOutcome(engine: Engine, k: Call, w: Contracts.WorkloadSpec)
    requires ValidEngine(engine) && k.pc.Done? && k.kind.ExecuteCall? && GoodOutcome(engine, k, k.pc.outcome) && !k.pc.outcome.Refused?
    requires engine.codec.decodeWorkload(k.kind.workload) == Some(w)
    ensures Contracts.ValidWorkload(w) ==> k.pc.outcome.Delivered? && Oracle(engine.ops, w) == Ok(k.pc.outcome.result)
    ensures !Contracts.ValidWorkload(w) ==>
              && k.pc.outcome.RemoteReported? && k.pc.outcome.error.code == "invalid_workload"
              && k.pc.outcome.error.issues == ExpectedIssues(engine, Contracts.WorkloadIssues(w))
  {
    hide Contracts.ValidWorkload, Contracts.WorkloadIssues, Oracle, ExpectedIssues, ValidEngine;
    SameWorkload(engine, k.kind.workload);
    if Contracts.ValidWorkload(w) {
      OracleDescribed(engine.ops, w);
    }
  }
}
