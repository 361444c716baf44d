/** When a response frame was written relative to the request that reads it, and what each
    frame that is read does to the call that reads it. */
module SessionFrames {
  import opened Words
  import opened Framing
  import opened Protocol
  import opened Session
  import opened SessionSystem
  import opened SessionCalls
  import opened SessionHistory
  import opened SessionDelivery
  import opened SessionLockstep
  import opened SessionTheorems
  import Hex

  // ------------------------------------------------------------------ positions

  /** Requests remember the output position they were handed over at, and each frame starts
      at the position of its own request. */
  ghost predicate StampInv(s: State) {
    && |s.received| <= |s.log|
    && (forall i :: 0 <= i < |s.log| ==> s.log[i].read <= s.log[i].written <= |s.stdout|)
    && (forall i :: 0 <= i < |s.received| ==> s.received[i].from == s.log[i].read)
    && (|s.received| < |s.log| ==> s.log[|s.received|].read == s.consumed)
  }

  lemma StampSend(codec: Codec, s: State, c: nat, alt: bool)
    requires CallsFit(s) && ReceiptInv(s) && LockstepInv(s) && StampInv(s) && c in s.calls && StepCall(codec, s, c, alt).Some?
    ensures StampInv(StepCall(codec, s, c, alt).value)
  {
    hide Advance, CallsFit, Paired, Framed;
    BalanceAt(s, c);
    LocalId(s, c);
  }

  lemma StampRead(codec: Codec, s: State, c: nat)
    requires LockstepInv(s) && StampInv(s) && c in s.calls && StepTask(codec, s, ReadFrame(c)).Some?
    ensures StampInv(StepTask(codec, s, ReadFrame(c)).value)
  {
    hide GoFrame, LineEnd, Decoded, Paired;
    BalanceAt(s, c);
  }

  lemma StampKept(codec: Codec, s: State, a: Action)
    requires Inv(codec, s) && StampInv(s) && Next(codec, s, a).Some?
    ensures StampInv(Next(codec, s, a).value)
  {
    hide CallsFit, TokenInv, PoisonInv, LogInv, DistinctIds, ReceiptInv, DeliveryInv, LockstepInv, RejectInv, ExpectedInv,
         StepCall, GoFrame, Decoded;
    match a
    case Step(c, alt) => StampSend(codec, s, c, alt);
    case ReadFrame(c) => StampRead(codec, s, c);
    case _ =>
  }

  lemma {:induction false} RunStamps(codec: Codec, actions: seq<Action>)
    requires Run(codec, START, actions).Some?
    ensures StampInv(Run(codec, START, actions).value)
  {
    hide Next, Inv;
    if actions != [] {
      var n := |actions| - 1;
      RunStamps(codec, actions[..n]);
      InvStart(codec);
      RunInv(codec, START, actions[..n]);
      StampKept(codec, Run(codec, START, actions[..n]).value, actions[n]);
    }
  }

  /** Every frame starts exactly where the worker's output had been read up to when its request
      was handed over. So it starts before anything the worker wrote afterwards exactly when
      unread output was pending then, and it was complete by then exactly when that output
      contained a line end. */
  lemma FramePosition(codec: Codec, actions: seq<Action>, s: State, i: nat)
    requires Run(codec, START, actions) == Some(s) && i < |s.received|
    ensures i < |s.log| && s.received[i].call == s.log[i].call && s.received[i].from == s.log[i].read
    ensures s.log[i].read <= s.log[i].written <= |s.stdout|
    ensures s.received[i].from < s.log[i].written <==> s.log[i].read < s.log[i].written
    ensures s.received[i].to <= s.log[i].written <==> LF in s.stdout[s.log[i].read..s.log[i].written]
  {
    hide Run, CallsFit, TokenInv, PoisonInv, LogInv, DistinctIds, DeliveryInv, RejectInv, ExpectedInv, BalanceOf, StripCr;
    InvStart(codec);
    RunInv(codec, START, actions);
    RunStamps(codec, actions);
    LineWithin(s.stdout, s.received[i], s.log[i].written);
  }

  lemma LineWithin(stdout: seq<Byte>, r: Receipt, end: nat)
    requires Framed(stdout, r) && r.from <= end <= |stdout|
    ensures r.to <= end <==> LF in stdout[r.from..end]
  {
    hide StripCr;
    var pending, line := stdout[r.from..end], stdout[r.from..r.to - 1];
    if r.to <= end {
      assert pending[r.to - 1 - r.from] == LF;
    } else {
      forall k | 0 <= k < |pending|
        ensures pending[k] != LF
      {
        assert pending[k] == line[k];
      }
    }
  }

  // ------------------------------------------------------------------- verdicts

  function Judged(codec: Codec, r: Receipt): Result<Response, Refusal> {
    Decoded(codec, r.kind, r.id, r.payload)
  }

  /** How a call ends whose frame was judged so. */
  predicate Settles(d: Result<Response, Refusal>, o: Outcome) {
    match d
    case Err(e) => o == Refused(e)
    case Ok(Completed(result)) => o == Delivered(result)
    case Ok(RemoteFailure(error)) => o == RemoteReported(error)
    case Ok(ShutdownAck) => o == Acknowledged || o == Refused(ExitFailed)
  }

  /** A call that has read its frame is on its way to that end, or its context has ended. */
  predicate Verdict(d: Result<Response, Refusal>, k: Call) {
    match k.pc
    case Awaiting => k.task == Finished(d)
    case Interrupted => k.cancelled
    case Draining => k.cancelled
    case Reaping(_, next) =>
      (d.Err? && next == ThenLeave(Refused(d.error)))
      || (k.cancelled && (next.ThenDrain? || next == ThenLeave(Refused(ContextEnded))))
    case Failing(why) => d == Err(why)
    case Answered(response) => d == Ok(response)
    case Acked => d == Ok(ShutdownAck)
    case ClosingInput => d == Ok(ShutdownAck)
    case AwaitingExit => d == Ok(ShutdownAck)
    case ExitSeen => d == Ok(ShutdownAck)
    case Leaving(o) => Settles(d, o) || (k.cancelled && o == Refused(ContextEnded))
    case Done(o) => Settles(d, o) || (k.cancelled && o == Refused(ContextEnded))
    case _ => false
  }

  /** A transaction is only broken off for an ended context. */
  predicate BrokenOff(k: Call) {
    k.pc.Interrupted? || k.pc.Draining? || (k.pc.Reaping? && k.pc.next.ThenDrain?) ==> k.cancelled
  }

  predicate KindAnswered(k: Call) {
    k.pc.Answered? ==> (k.pc.response.ShutdownAck? <==> k.kind.ShutdownCall?) && !k.kind.CloseCall?
  }

  /** A step keeps the receipt, and the verdict whatever it is. */
  ghost predicate VerdictMoves(k: Call, next: Call) {
    && next.receipt == k.receipt && (BrokenOff(k) ==> BrokenOff(next))
    && forall d :: Verdict(d, k) ==> Verdict(d, next)
  }

  lemma AcquireVerdict(s: Shared, k: Call, alt: bool)
    ensures Acquire(s, k, alt).Some? ==> VerdictMoves(k, Acquire(s, k, alt).value.1)
  {
    hide Settles;
  }

  lemma PrepareVerdict(codec: Codec, s: Shared, k: Call)
    ensures Prepare(codec, s, k).Some? ==> VerdictMoves(k, Prepare(codec, s, k).value.1)
  {
    hide Settles, EncodeFrame;
  }

  lemma TransactVerdict(s: Shared, k: Call, alt: bool)
    ensures Transact(s, k, alt).Some? ==> VerdictMoves(k, Transact(s, k, alt).value.1)
  {
  }

  lemma ReapVerdict(s: Shared, k: Call)
    ensures Reap(s, k).Some? ==> VerdictMoves(k, Reap(s, k).value.1)
  {
  }

  lemma ConcludeVerdict(s: Shared, exitClean: bool, k: Call, alt: bool)
    requires KindAnswered(k) && !k.pc.Reaping? && !k.pc.Awaiting?
    ensures Conclude(s, exitClean, k, alt).Some? ==> VerdictMoves(k, Conclude(s, exitClean, k, alt).value.1)
  {
  }

  lemma AdvanceVerdict(codec: Codec, s: Shared, exitClean: bool, k: Call, alt: bool)
    requires KindAnswered(k) && Advance(codec, s, exitClean, k, alt).Some?
    ensures VerdictMoves(k, Advance(codec, s, exitClean, k, alt).value.1)
  {
    hide VerdictMoves, KindAnswered, Acquire, Prepare, Transact, Reap, Conclude;
    AcquireVerdict(s, k, alt);
    PrepareVerdict(codec, s, k);
    TransactVerdict(s, k, alt);
    ReapVerdict(s, k);
    if !k.pc.Reaping? && !k.pc.Awaiting? {
      ConcludeVerdict(s, exitClean, k, alt);
    }
  }

  /** Every frame read so far, with the call that read it. */
  ghost predicate VerdictInv(codec: Codec, s: State) {
    && (forall c :: c in s.calls ==> BrokenOff(s.calls[c]))
    && forall i :: 0 <= i < |s.received| ==>
         var r := s.received[i];
         r.call in s.calls && s.calls[r.call].receipt == Some(i) && Verdict(Judged(codec, r), s.calls[r.call])
  }

  lemma VerdictAt(codec: Codec, s: State, i: nat)
    requires VerdictInv(codec, s) && i < |s.received|
    ensures var r := s.received[i];
            r.call in s.calls && s.calls[r.call].receipt == Some(i) && Verdict(Judged(codec, r), s.calls[r.call])
  {
  }

  lemma BrokenAt(codec: Codec, s: State, c: nat)
    requires VerdictInv(codec, s) && c in s.calls
    ensures BrokenOff(s.calls[c])
  {
  }

  /** One call changes in a way that keeps every verdict it may have. */
  lemma VerdictFrame(codec: Codec, s: State, t: State, c: nat, k: Call)
    requires VerdictInv(codec, s) && t.received == s.received && t.calls == s.calls[c := k] && BrokenOff(k)
    requires (c in s.calls && VerdictMoves(s.calls[c], k)) || forall i :: 0 <= i < |s.received| ==> s.received[i].call != c
    ensures VerdictInv(codec, t)
  {
    hide BrokenOff, Verdict, Judged;
    forall i | 0 <= i < |t.received|
      ensures var r := t.received[i];
              r.call in t.calls && t.calls[r.call].receipt == Some(i) && Verdict(Judged(codec, r), t.calls[r.call])
    {
      VerdictAt(codec, s, i);
    }
  }

  lemma CancelVerdict(k: Call)
    ensures VerdictMoves(k, k.(cancelled := true)) && BrokenOff(k.(cancelled := true))
  {
  }

  lemma BeginBroken(kind: Kind)
    ensures BrokenOff(Begin(kind))
  {
  }

  /** The call that steps answers in a kind its request can have. */
  lemma AnsweredFits(codec: Codec, s: State, c: nat)
    requires CallsFit(s) && DeliveryInv(codec, s) && ExpectedInv(codec, s) && c in s.calls
    ensures KindAnswered(s.calls[c])
  {
    hide Justified, KindExpected, IdFits, PcFits;
    CallFits(s, c);
    ExpectedAt(codec, s, c);
    if s.calls[c].pc.Answered? {
      JustifiedAt(codec, s, c);
      AnswerKind(codec, s.received, c, s.calls[c]);
    }
  }

  lemma VerdictStep(codec: Codec, s: State, c: nat, alt: bool)
    requires CallsFit(s) && DeliveryInv(codec, s) && ExpectedInv(codec, s) && VerdictInv(codec, s)
    requires c in s.calls && StepCall(codec, s, c, alt).Some?
    ensures VerdictInv(codec, StepCall(codec, s, c, alt).value)
  {
    hide Advance, CallsFit, DeliveryInv, ExpectedInv, VerdictInv, KindAnswered, BrokenOff, Verdict;
    var t := StepCall(codec, s, c, alt).value;
    AnsweredFits(codec, s, c);
    AdvanceVerdict(codec, s.shared, s.exitClean, s.calls[c], alt);
    BrokenAt(codec, s, c);
    VerdictFrame(codec, s, t, c, t.calls[c]);
  }

  /** A goroutine that still runs has no receipt yet. */
  lemma NoReceiptYet(s: State, c: nat)
    requires LockstepInv(s) && LogInv(s) && c in s.calls && Live(s.calls[c].task)
    ensures forall i :: 0 <= i < |s.received| ==> s.received[i].call != c
  {
    hide LockstepInv, LogInv;
    forall i | 0 <= i < |s.received|
      ensures s.received[i].call != c
    {
      FirstReceipt(s, c, i);
    }
  }

  lemma FinishedVerdict(d: Result<Response, Refusal>, k: Call, next: Call)
    requires TaskFits(k) && Live(k.task) && BrokenOff(k) && next == k.(task := Finished(d), receipt := next.receipt)
    ensures Verdict(d, next) && BrokenOff(next)
  {
  }

  lemma TaskBroken(k: Call, next: Call)
    requires BrokenOff(k) && next == k.(task := next.task, receipt := next.receipt)
    ensures BrokenOff(next)
  {
  }

  lemma VerdictRead(codec: Codec, s: State, c: nat)
    requires CallsFit(s) && LogInv(s) && ReceiptInv(s) && LockstepInv(s) && VerdictInv(codec, s)
    requires c in s.calls && StepTask(codec, s, ReadFrame(c)).Some?
    ensures VerdictInv(codec, StepTask(codec, s, ReadFrame(c)).value)
  {
    hide StepTask, CallsFit, LogInv, ReceiptInv, LockstepInv, Decoded, BrokenOff, Verdict, KindFits, IdFits, PcFits, TaskFits;
    var t, k := StepTask(codec, s, ReadFrame(c)).value, s.calls[c];
    TaskStep(codec, s, ReadFrame(c));
    ReadStep(codec, s, c);
    NoReceiptYet(s, c);
    BrokenAt(codec, s, c);
    TaskBroken(k, t.calls[c]);
    if t.received == s.received {
      VerdictFrame(codec, s, t, c, t.calls[c]);
    } else {
      CallFits(s, c);
      FinishedVerdict(Judged(codec, t.received[|s.received|]), k, t.calls[c]);
      VerdictNew(codec, s, t, c);
    }
  }

  lemma VerdictNew(codec: Codec, s: State, t: State, c: nat)
    requires VerdictInv(codec, s) && |t.received| == |s.received| + 1 && t.received[..|s.received|] == s.received
    requires c in t.calls && t.calls == s.calls[c := t.calls[c]] && t.received[|s.received|].call == c
    requires t.calls[c].receipt == Some(|s.received|) && BrokenOff(t.calls[c])
    requires Verdict(Judged(codec, t.received[|s.received|]), t.calls[c])
    requires forall i :: 0 <= i < |s.received| ==> s.received[i].call != c
    ensures VerdictInv(codec, t)
  {
    hide BrokenOff, Verdict, Judged;
    forall i | 0 <= i < |s.received|
      ensures t.received[i] == s.received[i]
    {
      assert t.received[..|s.received|][i] == s.received[i];
    }
  }

  lemma VerdictTask(codec: Codec, s: State, a: Action)
    requires (a.WriteChunk? || a.WriteFail? || a.ReadFail?) && a.c in s.calls
    requires LogInv(s) && LockstepInv(s) && VerdictInv(codec, s) && StepTask(codec, s, a).Some?
    ensures VerdictInv(codec, StepTask(codec, s, a).value)
  {
    hide LogInv, LockstepInv, VerdictInv, BrokenOff, Verdict;
    var t := StepTask(codec, s, a).value;
    NoReceiptYet(s, a.c);
    BrokenAt(codec, s, a.c);
    TaskBroken(s.calls[a.c], t.calls[a.c]);
    VerdictFrame(codec, s, t, a.c, t.calls[a.c]);
  }

  lemma VerdictSame(codec: Codec, s: State, t: State)
    requires VerdictInv(codec, s) && t.calls == s.calls && t.received == s.received
    ensures VerdictInv(codec, t)
  {
  }

  /** No receipt names a call that has not been made. */
  lemma ReceiptsOfCalls(codec: Codec, s: State, c: nat)
    requires VerdictInv(codec, s) && c !in s.calls
    ensures forall i :: 0 <= i < |s.received| ==> s.received[i].call != c
  {
    hide Verdict, BrokenOff;
  }

  lemma VerdictKept(codec: Codec, s: State, a: Action)
    requires Inv(codec, s) && VerdictInv(codec, s) && Next(codec, s, a).Some?
    ensures VerdictInv(codec, Next(codec, s, a).value)
  {
    hide CallsFit, TokenInv, PoisonInv, LogInv, DistinctIds, ReceiptInv, DeliveryInv, LockstepInv, RejectInv, ExpectedInv,
         VerdictInv, VerdictMoves, BrokenOff, StepCall, StepTask, StepWorld;
    var t := Next(codec, s, a).value;
    match a
    case Invoke(c, kind) =>
      BeginBroken(kind);
      ReceiptsOfCalls(codec, s, c);
      VerdictFrame(codec, s, t, c, Begin(kind));
    case Cancel(c) =>
      CancelVerdict(s.calls[c]);
      VerdictFrame(codec, s, t, c, s.calls[c].(cancelled := true));
    case Step(c, alt) => VerdictStep(codec, s, c, alt);
    case ReadFrame(c) => VerdictRead(codec, s, c);
    case WriteChunk(_, _) => VerdictTask(codec, s, a);
    case WriteFail(_) => VerdictTask(codec, s, a);
    case ReadFail(_) => VerdictTask(codec, s, a);
    case _ =>
      WorldStep(s, a);
      VerdictSame(codec, s, t);
  }

  lemma {:induction false} RunVerdicts(codec: Codec, actions: seq<Action>)
    requires Run(codec, START, actions).Some?
    ensures VerdictInv(codec, Run(codec, START, actions).value)
  {
    hide Next, Inv, Verdict, BrokenOff;
    if actions != [] {
      var n := |actions| - 1;
      RunVerdicts(codec, actions[..n]);
      InvStart(codec);
      RunInv(codec, START, actions[..n]);
      VerdictKept(codec, Run(codec, START, actions[..n]).value, actions[n]);
    }
  }

  /** Whenever a frame was written, before its request or after, only its content decides: a
      call that read one and was not broken off by its own context returns the frame's response
      exactly when the frame decodes for that call's request, and otherwise fails with a
      session that is shut and a worker that is gone. */
  lemma FrameDecides(codec: Codec, actions: seq<Action>, s: State, i: nat)
    requires Run(codec, START, actions) == Some(s) && i < |s.received|
    ensures s.received[i].call in s.calls && s.calls[s.received[i].call].receipt == Some(i)
    ensures var (d, k) := (Judged(codec, s.received[i]), s.calls[s.received[i].call]);
            k.pc.Done? && k.pc.outcome != Refused(ContextEnded) ==>
              && Settles(d, k.pc.outcome)
              && (d.Err? ==> !s.shared.state.Open? && Reaped(s.shared))
    ensures var k := s.calls[s.received[i].call];
            k.pc.Done? && k.pc.outcome == Refused(ContextEnded) ==> k.cancelled
  {
    hide Run, CallsFit, TokenInv, PoisonInv, LogInv, DistinctIds, ReceiptInv, DeliveryInv, LockstepInv, RejectInv, ExpectedInv,
         BrokenOff, Judged;
    InvStart(codec);
    RunInv(codec, START, actions);
    RunVerdicts(codec, actions);
    VerdictAt(codec, s, i);
    var k := s.calls[s.received[i].call];
    JudgedFatal(codec, s.received[i]);
    if k.pc.Done? {
      ReturnedCall(codec, actions, s, s.received[i].call);
    }
  }

  /** In particular a frame that was complete before its request was handed over, because a
      line end was already pending then, is delivered exactly when it decodes for the request
      that happens to read it, and otherwise poisons the session. */
  lemma EarlyFrameDecides(codec: Codec, actions: seq<Action>, s: State, i: nat)
    requires Run(codec, START, actions) == Some(s) && i < |s.received| <= |s.log|
    requires s.log[i].read <= s.log[i].written <= |s.stdout| && LF in s.stdout[s.log[i].read..s.log[i].written]
    ensures s.received[i].to <= s.log[i].written && s.received[i].call in s.calls
    ensures var (d, k) := (Judged(codec, s.received[i]), s.calls[s.received[i].call]);
            k.pc.Done? && k.kind.ExecuteCall? && k.pc.outcome != Refused(ContextEnded) ==>
              && (k.pc.outcome.Delivered? || k.pc.outcome.RemoteReported? <==> d.Ok?)
              && (k.pc.outcome.Refused? <==> d.Err?)
              && (d.Err? ==> !s.shared.state.Open? && Reaped(s.shared))
  {
    hide Run, Judged;
    FramePosition(codec, actions, s, i);
    FrameDecides(codec, actions, s, i);
    ExecuteJudged(codec, actions, s, i);
  }

  /** An execute request never gets an acknowledgement. */
  lemma ExecuteJudged(codec: Codec, actions: seq<Action>, s: State, i: nat)
    requires Run(codec, START, actions) == Some(s) && i < |s.received| && s.received[i].call in s.calls
    ensures s.calls[s.received[i].call].kind.ExecuteCall? && Judged(codec, s.received[i]).Ok? ==>
              !Judged(codec, s.received[i]).value.ShutdownAck?
  {
    hide Run, DecodeResponse;
    var r := s.received[i];
    ReceiptKind(codec, actions, s, i);
    if Judged(codec, r).Ok? {
      AcceptedFrame(codec, r.payload, Hex.FormatRequestId(r.id), Expect(codec, r.kind));
    }
  }

  lemma ReceiptKind(codec: Codec, actions: seq<Action>, s: State, i: nat)
    requires Run(codec, START, actions) == Some(s) && i < |s.received|
    ensures s.received[i].call in s.calls && s.calls[s.received[i].call].kind == s.received[i].kind
    ensures s.received[i].kind.ExecuteCall? ==> codec.project(s.received[i].kind.workload).Some?
  {
    hide Run, CallsFit, TokenInv, PoisonInv, DistinctIds, ReceiptInv, DeliveryInv, RejectInv, ExpectedInv, BalanceOf, Increasing;
    InvStart(codec);
    RunInv(codec, START, actions);
    assert s.received[i].call == s.log[i].call && s.received[i].kind == s.log[i].kind;
    assert Recorded(s.calls, s.log[i]);
    ExpectedAt(codec, s, s.log[i].call);
  }

  lemma JudgedFatal(codec: Codec, r: Receipt)
    ensures Judged(codec, r).Err? ==> Judged(codec, r).error.ResponseRejected?
  {
    hide DecodeResponse;
  }
}
