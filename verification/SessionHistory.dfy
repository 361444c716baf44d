/** What holds of a whole run of the session: request identifiers, poisoning, and which
    response frame was read for which request. */
module SessionHistory {
  import opened Words
  import opened Framing
  import opened Protocol
  import opened Session
  import opened SessionSystem
  import opened SessionCalls
  import Hex

  // --------------------------------------------------------------- poisoning

  /** A poisoned session is being reaped by the call that poisoned it, or is reaped. */
  ghost predicate PoisonInv(s: State) {
    s.shared.state.Poisoned? ==>
      Reaped(s.shared) || (s.holder.Some? && s.holder.value in s.calls && s.calls[s.holder.value].pc.Reaping?)
  }

  ghost predicate PoisonMoves(s: Shared, k: Call, t: Shared, next: Call) {
    && (Reaped(s) ==> Reaped(t))
    && (t.state.Poisoned? ==> s.state.Poisoned? || Reaped(t) || (next.pc.Reaping? && Holds(next.pc)))
    && (k.pc.Reaping? ==> Reaped(t) || (next.pc.Reaping? && Holds(next.pc) == Holds(k.pc)))
  }

  lemma AdvancePoison(codec: Codec, s: Shared, exitClean: bool, k: Call, alt: bool)
    requires Local(s, k) && Advance(codec, s, exitClean, k, alt).Some?
    ensures var (t, next) := Advance(codec, s, exitClean, k, alt).value; PoisonMoves(s, k, t, next)
  {
    if k.pc.Reaping? {
      assert ReapFits(s, k.pc.step);
      ReapPoison(s, k);
    } else if k.pc.Awaiting? || k.pc.Interrupted? || k.pc.Failing? || k.pc.Draining? {
      TransactPoison(s, k, alt);
    } else if k.pc.Checking? || k.pc.Numbering? || k.pc.Encoding? {
      PreparePoison(codec, s, k);
    } else if !k.pc.Enter? && !k.pc.Waiting? && !k.pc.Granted? {
      ConcludePoison(s, exitClean, k, alt);
    } else {
      AcquirePoison(s, k, alt);
    }
    hide PoisonMoves, Local, Acquire, Prepare, Transact, Reap, Conclude;
  }

  lemma AcquirePoison(s: Shared, k: Call, alt: bool)
    ensures Acquire(s, k, alt).Some? ==> var (t, next) := Acquire(s, k, alt).value; PoisonMoves(s, k, t, next)
  {
  }

  lemma PreparePoison(codec: Codec, s: Shared, k: Call)
    ensures Prepare(codec, s, k).Some? ==> var (t, next) := Prepare(codec, s, k).value; PoisonMoves(s, k, t, next)
  {
    hide EncodeFrame;
  }

  lemma TransactPoison(s: Shared, k: Call, alt: bool)
    ensures Transact(s, k, alt).Some? ==> var (t, next) := Transact(s, k, alt).value; PoisonMoves(s, k, t, next)
  {
  }

  lemma ReapPoison(s: Shared, k: Call)
    requires k.pc.Reaping? && ReapFits(s, k.pc.step)
    ensures Reap(s, k).Some? ==> var (t, next) := Reap(s, k).value; PoisonMoves(s, k, t, next)
  {
  }

  lemma ConcludePoison(s: Shared, exitClean: bool, k: Call, alt: bool)
    requires !k.pc.Reaping?
    ensures Conclude(s, exitClean, k, alt).Some? ==>
              var (t, next) := Conclude(s, exitClean, k, alt).value; PoisonMoves(s, k, t, next)
  {
  }

  lemma PoisonKept(codec: Codec, s: State, a: Action)
    requires CallsFit(s) && TokenInv(s) && PoisonInv(s) && Next(codec, s, a).Some?
    ensures PoisonInv(Next(codec, s, a).value)
  {
    hide Local, Advance, StepTask, StepWorld, CallsFit, Holds, Reaped;
    match a
    case Step(c, alt) =>
      CallFits(s, c);
      assert KindFits(s.calls[c]) by { LocalKind(s.shared, s.calls[c]); }
      AdvanceToken(codec, s.shared, s.exitClean, s.calls[c], alt);
      AdvancePoison(codec, s.shared, s.exitClean, s.calls[c], alt);
    case Invoke(_, _) =>
    case Cancel(_) =>
    case WriteChunk(_, _) => TaskStep(codec, s, a);
    case WriteFail(_) => TaskStep(codec, s, a);
    case ReadFrame(_) => TaskStep(codec, s, a);
    case ReadFail(_) => TaskStep(codec, s, a);
    case _ =>
      WorldStep(s, a);
      ReapedMonotone(s.shared, Next(codec, s, a).value.shared);
  }

  lemma ReapedMonotone(s: Shared, t: Shared)
    requires Progress(s, t)
    ensures Reaped(s) ==> Reaped(t)
  {
  }

  predicate PoisonRefused(k: Call) {
    (k.pc.Leaving? || k.pc.Done?) && k.pc.outcome == Refused(SessionPoisoned)
  }

  /** A call is only turned away from a poisoned session once nothing of the child is left. */
  ghost predicate RefusalInv(s: State) {
    forall c :: c in s.calls && PoisonRefused(s.calls[c]) ==> Reaped(s.shared)
  }

  lemma AdvanceRefusal(codec: Codec, s: Shared, exitClean: bool, k: Call, alt: bool)
    requires TaskFits(k) && KindFits(k) && Advance(codec, s, exitClean, k, alt).Some?
    requires (k.pc.Checking? && s.state.Poisoned?) || PoisonRefused(k) ==> Reaped(s)
    ensures var (t, next) := Advance(codec, s, exitClean, k, alt).value; PoisonRefused(next) ==> Reaped(t)
  {
    if k.pc.Reaping? {
      ReapRefusal(s, k);
    } else if k.pc.Checking? || k.pc.Numbering? || k.pc.Encoding? {
      PrepareRefusal(codec, s, k);
    } else if k.pc.Awaiting? || k.pc.Interrupted? || k.pc.Failing? || k.pc.Draining? {
    } else if k.pc.Enter? || k.pc.Waiting? || k.pc.Granted? {
    } else {
      ConcludeRefusal(s, exitClean, k, alt);
    }
    hide Reap, Prepare, Conclude, TaskFits, KindFits;
  }

  lemma ReapRefusal(s: Shared, k: Call)
    requires KindFits(k)
    ensures Reap(s, k).Some? ==> !PoisonRefused(Reap(s, k).value.1)
  {
  }

  lemma PrepareRefusal(codec: Codec, s: Shared, k: Call)
    requires k.pc.Checking? && s.state.Poisoned? ==> Reaped(s)
    ensures Prepare(codec, s, k).Some? ==> var (t, next) := Prepare(codec, s, k).value; PoisonRefused(next) ==> Reaped(t)
  {
    hide EncodeFrame;
  }

  lemma ConcludeRefusal(s: Shared, exitClean: bool, k: Call, alt: bool)
    requires PoisonRefused(k) ==> Reaped(s)
    ensures Conclude(s, exitClean, k, alt).Some? ==>
              var (t, next) := Conclude(s, exitClean, k, alt).value; PoisonRefused(next) ==> Reaped(t)
  {
  }

  lemma RefusalUpdate(s: State, t: State, c: nat, k: Call)
    requires RefusalInv(s) && t.calls == s.calls[c := k] && (Reaped(s.shared) ==> Reaped(t.shared))
    requires PoisonRefused(k) ==> Reaped(t.shared)
    ensures RefusalInv(t)
  {
    hide PoisonRefused, Reaped;
  }

  lemma RefusalStep(codec: Codec, s: State, c: nat, alt: bool)
    requires CallsFit(s) && TokenInv(s) && PoisonInv(s) && RefusalInv(s) && c in s.calls && StepCall(codec, s, c, alt).Some?
    ensures RefusalInv(StepCall(codec, s, c, alt).value)
  {
    hide Advance, CallsFit, RefusalInv, Reaped, IdFits, PcFits, TaskFits, KindFits;
    var k, t := s.calls[c], StepCall(codec, s, c, alt).value;
    CallFits(s, c);
    CheckedReaped(s, c);
    AdvanceRefusal(codec, s.shared, s.exitClean, k, alt);
    AdvancePoison(codec, s.shared, s.exitClean, k, alt);
    RefusalUpdate(s, t, c, t.calls[c]);
  }

  /** A call at the check holds the token, so no other call is reaping. */
  lemma CheckedReaped(s: State, c: nat)
    requires TokenInv(s) && PoisonInv(s) && RefusalInv(s) && c in s.calls
    ensures (s.calls[c].pc.Checking? && s.shared.state.Poisoned?) || PoisonRefused(s.calls[c]) ==> Reaped(s.shared)
  {
  }

  lemma RefusalTask(codec: Codec, s: State, a: Action)
    requires (a.WriteChunk? || a.WriteFail? || a.ReadFrame? || a.ReadFail?) && a.c in s.calls
    requires RefusalInv(s) && StepTask(codec, s, a).Some?
    ensures RefusalInv(StepTask(codec, s, a).value)
  {
    hide StepTask, RefusalInv, Reaped;
    TaskStep(codec, s, a);
    var t := StepTask(codec, s, a).value;
    SameRefusal(s, a.c);
    RefusalUpdate(s, t, a.c, t.calls[a.c]);
  }

  lemma SameRefusal(s: State, c: nat)
    requires RefusalInv(s) && c in s.calls
    ensures PoisonRefused(s.calls[c]) ==> Reaped(s.shared)
  {
  }

  lemma RefusalKept(codec: Codec, s: State, a: Action)
    requires CallsFit(s) && TokenInv(s) && PoisonInv(s) && RefusalInv(s) && Next(codec, s, a).Some?
    ensures RefusalInv(Next(codec, s, a).value)
  {
    hide StepCall, StepTask, StepWorld, CallsFit, TokenInv, PoisonInv, RefusalInv, Reaped;
    var t := Next(codec, s, a).value;
    match a
    case Step(c, alt) => RefusalStep(codec, s, c, alt);
    case Invoke(c, kind) => RefusalUpdate(s, t, c, Begin(kind));
    case Cancel(c) =>
      SameRefusal(s, c);
      RefusalUpdate(s, t, c, s.calls[c].(cancelled := true));
    case WriteChunk(_, _) => RefusalTask(codec, s, a);
    case WriteFail(_) => RefusalTask(codec, s, a);
    case ReadFrame(_) => RefusalTask(codec, s, a);
    case ReadFail(_) => RefusalTask(codec, s, a);
    case _ =>
      WorldStep(s, a);
      ReapedMonotone(s.shared, t.shared);
      RefusalSame(s, t);
  }

  lemma RefusalSame(s: State, t: State)
    requires RefusalInv(s) && t.calls == s.calls && (Reaped(s.shared) ==> Reaped(t.shared))
    ensures RefusalInv(t)
  {
  }

  // ------------------------------------------------------ request identifiers

  ghost predicate Increasing(log: seq<Sent>) {
    forall i, j :: 0 <= i < j < |log| ==> log[i].id < log[j].id
  }

  ghost predicate AllBelow(log: seq<Sent>, id: U64) {
    forall i :: 0 <= i < |log| ==> log[i].id < id
  }

  /** A log entry carries the identity of the call that made it. */
  ghost predicate Recorded(calls: map<nat, Call>, e: Sent) {
    e.call in calls && calls[e.call].id == Some(e.id) && calls[e.call].kind == e.kind && !calls[e.call].task.NoTask?
  }

  /** Every request handed to a transaction, with the identifier its call drew. */
  ghost predicate LogInv(s: State) {
    && (forall i :: 0 <= i < |s.log| ==> Recorded(s.calls, s.log[i]))
    && Increasing(s.log)
    && (forall c :: c in s.calls && s.calls[c].pc.Encoding? ==> s.calls[c].id.Some? && AllBelow(s.log, s.calls[c].id.value))
  }

  /** No two calls ever share an identifier, whether or not they got to send it. */
  ghost predicate DistinctIds(s: State) {
    forall c, d :: c in s.calls && d in s.calls && c != d && s.calls[c].id.Some? ==> s.calls[c].id != s.calls[d].id
  }

  ghost predicate IdMoves(s: Shared, k: Call, next: Call) {
    && next.kind == k.kind
    && (k.id.Some? ==> next.id == k.id)
    && (next.id != k.id ==> k.pc.Numbering? && next.pc.Encoding? && s.sequence != 0 && next.id == Some(s.sequence))
    && (next.pc.Encoding? ==> k.pc.Numbering? && next.id == Some(s.sequence) && s.sequence != 0)
    && (k.pc.Encoding? && next.pc.Awaiting? ==> k.id.Some? && next.task.Writing?)
    && (!k.task.NoTask? ==> !next.task.NoTask?)
  }

  lemma AdvanceId(codec: Codec, s: Shared, exitClean: bool, k: Call, alt: bool)
    requires IdFits(s, k) && Advance(codec, s, exitClean, k, alt).Some?
    ensures IdMoves(s, k, Advance(codec, s, exitClean, k, alt).value.1)
  {
    if k.pc.Reaping? {
      ReapId(s, k);
    } else if k.pc.Awaiting? || k.pc.Interrupted? || k.pc.Failing? || k.pc.Draining? {
      TransactId(s, k, alt);
    } else if k.pc.Checking? || k.pc.Numbering? || k.pc.Encoding? {
      PrepareId(codec, s, k);
    } else if !k.pc.Enter? && !k.pc.Waiting? && !k.pc.Granted? {
      ConcludeId(s, exitClean, k, alt);
    } else {
      AcquireId(s, k, alt);
    }
    hide IdMoves, Acquire, Prepare, Transact, Reap, Conclude;
  }

  lemma AcquireId(s: Shared, k: Call, alt: bool)
    ensures Acquire(s, k, alt).Some? ==> IdMoves(s, k, Acquire(s, k, alt).value.1)
  {
  }

  lemma PrepareId(codec: Codec, s: Shared, k: Call)
    requires IdFits(s, k)
    ensures Prepare(codec, s, k).Some? ==> IdMoves(s, k, Prepare(codec, s, k).value.1)
  {
    hide EncodeFrame;
  }

  lemma TransactId(s: Shared, k: Call, alt: bool)
    ensures Transact(s, k, alt).Some? ==> IdMoves(s, k, Transact(s, k, alt).value.1)
  {
  }

  lemma ReapId(s: Shared, k: Call)
    ensures Reap(s, k).Some? ==> IdMoves(s, k, Reap(s, k).value.1)
  {
  }

  lemma ConcludeId(s: Shared, exitClean: bool, k: Call, alt: bool)
    requires !k.pc.Encoding?
    ensures Conclude(s, exitClean, k, alt).Some? ==> IdMoves(s, k, Conclude(s, exitClean, k, alt).value.1)
  {
  }

  /** Identifiers of recorded calls lie below the counter until it is exhausted. */
  lemma IdBelow(s: State, c: nat)
    requires CallsFit(s) && c in s.calls && s.calls[c].id.Some? && s.shared.sequence != 0
    ensures s.calls[c].id.value < s.shared.sequence
  {
    CallFits(s, c);
  }

  lemma LocalId(s: State, c: nat)
    requires CallsFit(s) && c in s.calls
    ensures IdFits(s.shared, s.calls[c])
  {
    CallFits(s, c);
  }

  /** One call changes, its identity does not, and the log stays. */
  lemma LogFrame(s: State, t: State, c: nat, k: Call)
    requires LogInv(s) && DistinctIds(s) && t.log == s.log && t.calls == s.calls[c := k]
    requires c in s.calls ==>
               && k.id == s.calls[c].id && k.kind == s.calls[c].kind && (k.pc.Encoding? ==> s.calls[c].pc.Encoding?)
               && (!s.calls[c].task.NoTask? ==> !k.task.NoTask?)
    requires c !in s.calls ==> k.id.None? && !k.pc.Encoding?
    ensures LogInv(t) && DistinctIds(t)
  {
    hide Increasing, AllBelow;
    forall i | 0 <= i < |t.log|
      ensures Recorded(t.calls, t.log[i])
    {
      assert Recorded(s.calls, s.log[i]);
    }
  }

  /** A call draws the next identifier. */
  lemma LogNumber(s: State, t: State, c: nat, k: Call)
    requires CallsFit(s) && LogInv(s) && DistinctIds(s) && c in s.calls && s.calls[c].id.None?
    requires t.log == s.log && t.calls == s.calls[c := k] && s.shared.sequence != 0 && k.id == Some(s.shared.sequence)
    requires k.kind == s.calls[c].kind && (!s.calls[c].task.NoTask? ==> !k.task.NoTask?)
    ensures LogInv(t) && DistinctIds(t)
  {
    hide CallsFit, Increasing;
    forall d | d in s.calls && s.calls[d].id.Some?
      ensures s.calls[d].id.value < s.shared.sequence
    {
      IdBelow(s, d);
    }
    forall i | 0 <= i < |t.log|
      ensures Recorded(t.calls, t.log[i]) && t.log[i].id < s.shared.sequence
    {
      assert Recorded(s.calls, s.log[i]);
    }
    assert AllBelow(t.log, s.shared.sequence);
  }

  /** A call sends under the identifier it drew. */
  lemma LogSend(s: State, t: State, c: nat, k: Call)
    requires LogInv(s) && DistinctIds(s) && c in s.calls && s.calls[c].pc.Encoding? && s.calls[c].id.Some?
    requires t.log == s.log + [Launch(s, c, s.calls[c])] && t.calls == s.calls[c := k]
    requires k.id == s.calls[c].id && k.kind == s.calls[c].kind && !k.pc.Encoding? && !k.task.NoTask?
    requires forall d :: d in s.calls && s.calls[d].pc.Encoding? ==> d == c
    ensures LogInv(t) && DistinctIds(t)
  {
    assert AllBelow(s.log, s.calls[c].id.value);
    forall i | 0 <= i < |t.log|
      ensures Recorded(t.calls, t.log[i])
    {
      if i < |s.log| {
        assert Recorded(s.calls, s.log[i]);
      }
    }
  }

  lemma LogStep(codec: Codec, s: State, c: nat, alt: bool)
    requires CallsFit(s) && TokenInv(s) && LogInv(s) && DistinctIds(s) && c in s.calls && StepCall(codec, s, c, alt).Some?
    ensures LogInv(StepCall(codec, s, c, alt).value)
    ensures DistinctIds(StepCall(codec, s, c, alt).value)
  {
    hide Local, Advance, CallsFit, IdMoves, LogInv, DistinctIds;
    var k, t := s.calls[c], StepCall(codec, s, c, alt).value;
    var next := t.calls[c];
    LocalId(s, c);
    AdvanceId(codec, s.shared, s.exitClean, k, alt);
    IdCases(s.shared, k, next);
    if next.id != k.id {
      LogNumber(s, t, c, next);
    } else if k.pc.Encoding? && next.pc.Awaiting? {
      LogSend(s, t, c, next);
    } else {
      LogFrame(s, t, c, next);
    }
  }

  lemma IdCases(s: Shared, k: Call, next: Call)
    requires IdMoves(s, k, next) && IdFits(s, k)
    ensures next.kind == k.kind && (k.id.Some? ==> next.id == k.id) && (!k.task.NoTask? ==> !next.task.NoTask?)
    ensures next.id != k.id ==> next.id == Some(s.sequence) && s.sequence != 0 && k.id.None? && !k.pc.Encoding?
    ensures next.pc.Encoding? ==> next.id != k.id
    ensures k.pc.Encoding? && next.pc.Awaiting? ==> k.id.Some? && !next.task.NoTask?
  {
  }

  lemma LogKept(codec: Codec, s: State, a: Action)
    requires CallsFit(s) && TokenInv(s) && LogInv(s) && DistinctIds(s) && Next(codec, s, a).Some?
    ensures LogInv(Next(codec, s, a).value) && DistinctIds(Next(codec, s, a).value)
  {
    hide Advance, StepTask, StepCall, StepWorld, CallsFit, TokenInv, LogInv, DistinctIds;
    var t := Next(codec, s, a).value;
    match a
    case Step(c, alt) => LogStep(codec, s, c, alt);
    case Invoke(c, kind) => LogFrame(s, t, c, Begin(kind));
    case Cancel(c) => LogFrame(s, t, c, s.calls[c].(cancelled := true));
    case WriteChunk(c, _) => LogTask(codec, s, a);
    case WriteFail(c) => LogTask(codec, s, a);
    case ReadFrame(c) => LogTask(codec, s, a);
    case ReadFail(c) => LogTask(codec, s, a);
    case _ =>
      WorldStep(s, a);
      LogSame(s, t);
  }

  lemma LogTask(codec: Codec, s: State, a: Action)
    requires (a.WriteChunk? || a.WriteFail? || a.ReadFrame? || a.ReadFail?) && a.c in s.calls
    requires LogInv(s) && DistinctIds(s) && StepTask(codec, s, a).Some?
    ensures LogInv(StepTask(codec, s, a).value) && DistinctIds(StepTask(codec, s, a).value)
  {
    hide StepTask, LogInv, DistinctIds;
    TaskStep(codec, s, a);
    var t := StepTask(codec, s, a).value;
    LogFrame(s, t, a.c, t.calls[a.c]);
  }

  lemma LogSame(s: State, t: State)
    requires LogInv(s) && DistinctIds(s) && t.log == s.log && t.calls == s.calls
    ensures LogInv(t) && DistinctIds(t)
  {
    hide Increasing, AllBelow, Recorded;
  }
}
