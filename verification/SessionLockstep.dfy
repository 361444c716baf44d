/** One response frame per request, in order, for as long as the session stays open. */
module SessionLockstep {
  import opened Words
  import opened Framing
  import opened Protocol
  import opened Session
  import opened SessionSystem
  import opened SessionCalls
  import opened SessionHistory
  import opened SessionDelivery

  /** The k-th frame read answers the k-th request sent. */
  ghost predicate Paired(log: seq<Sent>, received: seq<Receipt>) {
    && |received| <= |log|
    && forall i :: 0 <= i < |received| ==>
         received[i].call == log[i].call && received[i].id == log[i].id && received[i].kind == log[i].kind
  }

  /** The call has an outstanding request, or is about to poison the session over one. */
  predicate Unsettled(k: Call) {
    Live(k.task) || (k.task.Finished? && k.task.result.Err?) || k.pc.Failing? || k.pc.Interrupted?
  }

  /** The call was let past the check and has not sent yet. */
  predicate Sending(k: Call) {
    k.pc.Numbering? || k.pc.Encoding?
  }

  ghost predicate BalanceOf(s: State, c: nat, k: Call) {
    && (Sending(k) ==> |s.received| == |s.log|)
    && (Live(k.task) ==> |s.log| == |s.received| + 1 && s.log[|s.received|].call == c)
  }

  /** An open session has read one frame for every request except an unsettled holder's. */
  ghost predicate LockstepInv(s: State) {
    && Paired(s.log, s.received)
    && (forall c :: c in s.calls ==> BalanceOf(s, c, s.calls[c]))
    && (s.shared.state.Open? ==>
          |s.received| == |s.log| || (s.holder.Some? && s.holder.value in s.calls && Unsettled(s.calls[s.holder.value])))
  }

  /** What a step can do to the balance: leaving an unsettled state closes the session. */
  ghost predicate BalanceMoves(s: Shared, k: Call, t: Shared, next: Call) {
    && (t.state.Open? ==> s.state.Open?)
    && (Unsettled(k) && t.state.Open? ==> Unsettled(next) && Holds(next.pc))
    && (Live(next.task) ==> Live(k.task) || (k.pc.Encoding? && next.pc.Awaiting?))
    && (Sending(next) ==> Sending(k) || (k.pc.Checking? && s.state.Open? && !s.waitDone))
    && (k.pc.Encoding? && next.pc.Awaiting? ==> Live(next.task) && Holds(next.pc))
  }

  lemma AdvanceBalance(codec: Codec, s: Shared, exitClean: bool, k: Call, alt: bool)
    requires Local(s, k) && Advance(codec, s, exitClean, k, alt).Some?
    ensures var (t, next) := Advance(codec, s, exitClean, k, alt).value; BalanceMoves(s, k, t, next)
  {
    LocalTask(s, k);
    if k.pc.Reaping? {
      assert ReapFits(s, k.pc.step);
      ReapBalance(s, k);
    } else if k.pc.Awaiting? || k.pc.Interrupted? || k.pc.Failing? || k.pc.Draining? {
      assert k.pc.Draining? ==> !s.state.Open?;
      TransactBalance(s, k, alt);
    } else if k.pc.Checking? || k.pc.Numbering? || k.pc.Encoding? {
      PrepareBalance(codec, s, k);
    } else if !k.pc.Enter? && !k.pc.Waiting? && !k.pc.Granted? {
      ConcludeBalance(s, exitClean, k, alt);
    } else {
      AcquireBalance(s, k, alt);
    }
    hide BalanceMoves, Acquire, Prepare, Transact, Reap, Conclude, TaskFits, Local;
  }

  lemma AcquireBalance(s: Shared, k: Call, alt: bool)
    requires TaskFits(k) && (k.pc.Enter? || k.pc.Waiting? || k.pc.Granted?)
    ensures Acquire(s, k, alt).Some? ==> var (t, next) := Acquire(s, k, alt).value; BalanceMoves(s, k, t, next)
  {
  }

  lemma PrepareBalance(codec: Codec, s: Shared, k: Call)
    requires TaskFits(k) && (k.pc.Checking? || k.pc.Numbering? || k.pc.Encoding?)
    ensures Prepare(codec, s, k).Some? ==> var (t, next) := Prepare(codec, s, k).value; BalanceMoves(s, k, t, next)
  {
    hide EncodeFrame;
  }

  lemma TransactBalance(s: Shared, k: Call, alt: bool)
    requires TaskFits(k) && (k.pc.Draining? ==> !s.state.Open?)
    ensures Transact(s, k, alt).Some? ==> var (t, next) := Transact(s, k, alt).value; BalanceMoves(s, k, t, next)
  {
  }

  lemma ReapBalance(s: Shared, k: Call)
    requires k.pc.Reaping? && ReapFits(s, k.pc.step)
    ensures Reap(s, k).Some? ==> var (t, next) := Reap(s, k).value; BalanceMoves(s, k, t, next)
  {
  }

  lemma ConcludeBalance(s: Shared, exitClean: bool, k: Call, alt: bool)
    requires TaskFits(k) && !Transacting(k.pc) && !k.pc.Failing? && !Sending(k)
    ensures Conclude(s, exitClean, k, alt).Some? ==>
              var (t, next) := Conclude(s, exitClean, k, alt).value; BalanceMoves(s, k, t, next)
  {
  }

  // ------------------------------------------------------------ preservation

  lemma BalanceAt(s: State, c: nat)
    requires LockstepInv(s) && c in s.calls
    ensures BalanceOf(s, c, s.calls[c])
  {
  }

  /** One call changes while neither log nor receipts do. */
  lemma LockstepFrame(s: State, t: State, c: nat, k: Call)
    requires LockstepInv(s) && t.log == s.log && t.received == s.received && t.calls == s.calls[c := k]
    requires t.shared.state.Open? ==> s.shared.state.Open?
    requires BalanceOf(s, c, k)
    requires s.holder == Some(c) && c in s.calls && Unsettled(s.calls[c]) && t.shared.state.Open? ==>
               t.holder == Some(c) && Unsettled(k)
    requires s.holder.Some? && s.holder != Some(c) ==> t.holder == s.holder
    ensures LockstepInv(t)
  {
    hide Paired, Unsettled, Sending, Live;
  }

  lemma LockstepSend(s: State, t: State, c: nat, k: Call)
    requires LockstepInv(s) && c in s.calls && Sending(s.calls[c])
    requires exists e: Sent :: e.call == c && t.log == s.log + [e]
    requires t.received == s.received && t.calls == s.calls[c := k] && t.holder == Some(c)
    requires Live(k.task) && !Sending(k)
    requires forall d :: d in s.calls && d != c ==> !Sending(s.calls[d]) && !Live(s.calls[d].task)
    ensures LockstepInv(t)
  {
  }

  /** Only the holder sends or has a goroutine. */
  lemma OthersQuiet(s: State, c: nat)
    requires CallsFit(s) && TokenInv(s) && s.holder == Some(c)
    ensures forall d :: d in s.calls && d != c ==> !Sending(s.calls[d]) && !Live(s.calls[d].task)
  {
    forall d | d in s.calls && d != c
      ensures !Sending(s.calls[d]) && !Live(s.calls[d].task)
    {
      CallFits(s, d);
    }
  }

  lemma LockstepStep(codec: Codec, s: State, c: nat, alt: bool)
    requires CallsFit(s) && TokenInv(s) && LockstepInv(s) && c in s.calls && StepCall(codec, s, c, alt).Some?
    ensures LockstepInv(StepCall(codec, s, c, alt).value)
  {
    hide Advance, CallsFit, Local, LockstepInv, Paired, KindFits, TaskFits;
    var k, t := s.calls[c], StepCall(codec, s, c, alt).value;
    var next := t.calls[c];
    CallFits(s, c);
    LocalTask(s.shared, k);
    AdvanceToken(codec, s.shared, s.exitClean, k, alt);
    AdvanceBalance(codec, s.shared, s.exitClean, k, alt);
    BalanceAt(s, c);
    if k.pc.Encoding? && next.pc.Awaiting? {
      OthersQuiet(s, c);
      var e := t.log[|s.log|];
      assert e.call == c && t.log == s.log + [e];
      LockstepSend(s, t, c, next);
    } else {
      OpenBalance(s, c);
      CheckingSettled(k);
      LockstepFrame(s, t, c, next);
    }
  }

  lemma CheckingSettled(k: Call)
    requires TaskFits(k)
    ensures k.pc.Checking? ==> !Unsettled(k)
  {
  }

  lemma OpenBalance(s: State, c: nat)
    requires LockstepInv(s) && c in s.calls
    ensures s.shared.state.Open? && s.holder == Some(c) && !Unsettled(s.calls[c]) ==> |s.received| == |s.log|
  {
  }

  lemma LockstepRead(s: State, t: State, c: nat, k: Call, r: Receipt)
    requires LockstepInv(s) && LogInv(s) && c in s.calls && Live(s.calls[c].task)
    requires t.log == s.log && t.calls == s.calls[c := k] && t.holder == s.holder && t.shared == s.shared
    requires |t.received| == |s.received| + 1 && t.received[..|s.received|] == s.received && t.received[|s.received|] == r
    requires r.call == c && s.calls[c].id == Some(r.id) && r.kind == s.calls[c].kind
    requires k.pc == s.calls[c].pc && k.task.Finished? && !Sending(k)
    requires forall d :: d in s.calls && d != c ==> !Sending(s.calls[d]) && !Live(s.calls[d].task)
    ensures LockstepInv(t)
  {
    hide Sending, Live;
    BalanceAt(s, c);
    assert t.log[|s.received|].call == c;
    forall i | 0 <= i < |t.received|
      ensures t.received[i].call == t.log[i].call && t.received[i].id == t.log[i].id && t.received[i].kind == t.log[i].kind
    {
      assert i < |s.received| ==> t.received[i] == t.received[..|s.received|][i];
    }
    LiveOnly(k);
  }

  lemma LiveOnly(k: Call)
    ensures k.task.Finished? ==> !Live(k.task)
  {
  }

  lemma LockstepTask(codec: Codec, s: State, a: Action)
    requires (a.WriteChunk? || a.WriteFail? || a.ReadFrame? || a.ReadFail?) && a.c in s.calls
    requires CallsFit(s) && TokenInv(s) && LogInv(s) && ReceiptInv(s) && LockstepInv(s)
    requires StepTask(codec, s, a).Some?
    ensures LockstepInv(StepTask(codec, s, a).value)
  {
    hide GoFrame, CallsFit, TokenInv, LogInv, ReceiptInv, LockstepInv, Decoded, Local;
    var t, c := StepTask(codec, s, a).value, a.c;
    OneTransaction(s, c, c);
    BalanceAt(s, c);
    OthersQuiet(s, c);
    if a.ReadFrame? {
      ReadStep(codec, s, c);
    }
    if t.received != s.received {
      LockstepRead(s, t, c, t.calls[c], t.received[|s.received|]);
    } else {
      LockstepFrame(s, t, c, t.calls[c]);
    }
  }

  lemma LockstepSame(s: State, t: State)
    requires LockstepInv(s) && t.calls == s.calls && t.received == s.received && t.log == s.log && t.holder == s.holder
    requires t.shared.state == s.shared.state
    ensures LockstepInv(t)
  {
  }

  lemma LockstepKept(codec: Codec, s: State, a: Action)
    requires CallsFit(s) && TokenInv(s) && LogInv(s) && ReceiptInv(s) && LockstepInv(s)
    requires Next(codec, s, a).Some?
    ensures LockstepInv(Next(codec, s, a).value)
  {
    hide StepCall, StepTask, StepWorld, CallsFit, LogInv, ReceiptInv, LockstepInv;
    var t := Next(codec, s, a).value;
    match a
    case Invoke(c, kind) => LockstepFrame(s, t, c, Begin(kind));
    case Cancel(c) =>
      BalanceAt(s, c);
      LockstepFrame(s, t, c, s.calls[c].(cancelled := true));
    case Step(c, alt) => LockstepStep(codec, s, c, alt);
    case WriteChunk(_, _) => LockstepTask(codec, s, a);
    case WriteFail(_) => LockstepTask(codec, s, a);
    case ReadFrame(_) => LockstepTask(codec, s, a);
    case ReadFail(_) => LockstepTask(codec, s, a);
    case _ =>
      WorldStep(s, a);
      LockstepSame(s, t);
  }

  // ------------------------------------------------------- rejected frames

  /** After a frame that its request refuses, the session is no longer open, or the call
      that read it is on its way to poison it. */
  ghost predicate RejectInv(codec: Codec, s: State) {
    forall i :: 0 <= i < |s.received| && Refuses(codec, s.received[i]) && s.shared.state.Open? ==>
      s.holder == Some(s.received[i].call) && s.received[i].call in s.calls && Unsettled(s.calls[s.received[i].call])
  }

  predicate Refuses(codec: Codec, r: Receipt) {
    Decoded(codec, r.kind, r.id, r.payload).Err?
  }

  lemma RejectFrame(codec: Codec, s: State, t: State, c: nat, k: Call)
    requires RejectInv(codec, s) && t.received == s.received && t.calls == s.calls[c := k]
    requires t.shared.state.Open? ==> s.shared.state.Open?
    requires s.holder == Some(c) && c in s.calls && Unsettled(s.calls[c]) && t.shared.state.Open? ==>
               t.holder == Some(c) && Unsettled(k)
    requires s.holder.Some? && s.holder != Some(c) ==> t.holder == s.holder
    ensures RejectInv(codec, t)
  {
    hide Refuses, Unsettled;
  }

  lemma RejectStep(codec: Codec, s: State, c: nat, alt: bool)
    requires CallsFit(s) && TokenInv(s) && RejectInv(codec, s) && c in s.calls && StepCall(codec, s, c, alt).Some?
    ensures RejectInv(codec, StepCall(codec, s, c, alt).value)
  {
    hide Advance, CallsFit, Local, RejectInv, KindFits, Unsettled;
    var k, t := s.calls[c], StepCall(codec, s, c, alt).value;
    CallFits(s, c);
    LocalTask(s.shared, k);
    AdvanceToken(codec, s.shared, s.exitClean, k, alt);
    AdvanceBalance(codec, s.shared, s.exitClean, k, alt);
    RejectFrame(codec, s, t, c, t.calls[c]);
  }

  /** No receipt so far belongs to the call that is still waiting for one. */
  lemma FirstReceipt(s: State, c: nat, i: nat)
    requires LockstepInv(s) && LogInv(s) && c in s.calls && Live(s.calls[c].task) && i < |s.received|
    ensures s.received[i].call != c
  {
    BalanceAt(s, c);
    assert s.log[i].id < s.log[|s.received|].id;
  }

  lemma RejectRead(codec: Codec, s: State, c: nat)
    requires CallsFit(s) && TokenInv(s) && LogInv(s) && ReceiptInv(s) && LockstepInv(s) && RejectInv(codec, s)
    requires c in s.calls && StepTask(codec, s, ReadFrame(c)).Some?
    ensures RejectInv(codec, StepTask(codec, s, ReadFrame(c)).value)
  {
    hide GoFrame, CallsFit, TokenInv, LogInv, ReceiptInv, LockstepInv, Decoded, Local;
    var t := StepTask(codec, s, ReadFrame(c)).value;
    OneTransaction(s, c, c);
    ReadStep(codec, s, c);
    forall i | 0 <= i < |s.received|
      ensures s.received[i].call != c
    {
      FirstReceipt(s, c, i);
    }
    assert forall i :: 0 <= i < |s.received| ==> t.received[i] == t.received[..|s.received|][i];
    forall i | 0 <= i < |t.received| && Refuses(codec, t.received[i]) && t.shared.state.Open?
      ensures t.holder == Some(t.received[i].call) && t.received[i].call in t.calls && Unsettled(t.calls[t.received[i].call])
    {
    }
  }

  lemma RejectTask(codec: Codec, s: State, a: Action)
    requires (a.WriteChunk? || a.WriteFail? || a.ReadFail?) && a.c in s.calls
    requires RejectInv(codec, s) && StepTask(codec, s, a).Some?
    ensures RejectInv(codec, StepTask(codec, s, a).value)
  {
    var t := StepTask(codec, s, a).value;
    RejectFrame(codec, s, t, a.c, t.calls[a.c]);
  }

  lemma RejectSame(codec: Codec, s: State, t: State)
    requires RejectInv(codec, s) && t.calls == s.calls && t.received == s.received && t.holder == s.holder
    requires t.shared.state == s.shared.state
    ensures RejectInv(codec, t)
  {
  }

  lemma RejectKept(codec: Codec, s: State, a: Action)
    requires CallsFit(s) && TokenInv(s) && LogInv(s) && ReceiptInv(s) && LockstepInv(s) && RejectInv(codec, s)
    requires Next(codec, s, a).Some?
    ensures RejectInv(codec, Next(codec, s, a).value)
  {
    hide StepCall, StepTask, StepWorld, CallsFit, LogInv, ReceiptInv, LockstepInv, RejectInv;
    var t := Next(codec, s, a).value;
    match a
    case Invoke(c, kind) => RejectFrame(codec, s, t, c, Begin(kind));
    case Cancel(c) => RejectFrame(codec, s, t, c, s.calls[c].(cancelled := true));
    case Step(c, alt) => RejectStep(codec, s, c, alt);
    case WriteChunk(_, _) => RejectTask(codec, s, a);
    case WriteFail(_) => RejectTask(codec, s, a);
    case ReadFrame(c) => RejectRead(codec, s, c);
    case ReadFail(_) => RejectTask(codec, s, a);
    case _ =>
      WorldStep(s, a);
      RejectSame(codec, s, t);
  }
}
