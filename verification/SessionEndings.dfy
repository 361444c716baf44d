/** How every call ends, in every interleaving: what its outcome says about the child, the
    session and the caller itself, and which failure a poisoned session records. */
module SessionEndings {
  import opened Words
  import opened Framing
  import opened Protocol
  import opened Session
  import opened SessionSystem
  import opened SessionCalls

  // ------------------------------------------------------------ what is recorded

  /** A cause is recorded exactly when an open session is poisoned. */
  predicate CauseFits(s: Shared) {
    (s.state.Open? ==> s.cause.None?) && (s.state.Poisoned? ==> s.cause.Some?)
  }

  /** The session fails for this reason, unless it was closed first. */
  predicate Blamed(s: Shared, why: Refusal) {
    s.cause == Some(why) || s.state.Closed?
  }

  /** The call was turned away by, or is giving up after, this failure of its own request. */
  predicate Culprit(k: Call, why: Refusal) {
    && !k.task.NoTask?
    && match k.pc
       case Reaping(_, ThenLeave(o)) => o == Refused(why)
       case Reaping(_, ThenDrain) => why.ContextEnded?
       case Draining => why.ContextEnded?
       case Leaving(o) => o == Refused(why)
       case Done(o) => o == Refused(why)
       case _ => false
  }

  // ------------------------------------------------------------- what a call says

  /** What a call that ends with `o` says about the child, the session and its caller. */
  predicate Ends(codec: Codec, s: Shared, alive: bool, clean: bool, k: Call, o: Outcome) {
    match o
    case Delivered(_) => k.kind.ExecuteCall?
    case RemoteReported(_) => k.kind.ExecuteCall?
    case Acknowledged => k.kind.ShutdownCall? && s.state.Closed? && !alive && clean
    case ForceClosed => k.kind.CloseCall? && s.state.Closed?
    case Refused(ContextEnded) => k.cancelled && (k.task.NoTask? || Blamed(s, ContextEnded))
    case Refused(SessionClosed) => s.state.Closed?
    case Refused(SessionPoisoned) => s.cause.Some?
    case Refused(IdsExhausted) => s.sequence == 0
    case Refused(EncodeRejected(e)) => k.id.Some? && EncodeFrame(codec, k.kind, k.id.value) == Err(e)
    case Refused(ExitFailed) => k.kind.ShutdownCall? && s.state.Closed? && !alive && !clean
    case Refused(ExitedBeforeRequest) => false
    case Refused(why) => Blamed(s, why)
  }

  /** The call holds an open session, or one closed under it. */
  predicate Past(pc: Pc) {
    pc.Numbering? || pc.Encoding? || pc.Awaiting? || pc.Interrupted? || pc.Failing? || pc.Answered? || pc.Acked?
  }

  predicate Stands(codec: Codec, s: Shared, alive: bool, clean: bool, k: Call) {
    match k.pc
    case Leaving(o) => Ends(codec, s, alive, clean, k, o)
    case Done(o) => Ends(codec, s, alive, clean, k, o)
    case Reaping(_, ThenLeave(o)) => Ends(codec, s, alive, clean, k, o)
    case Reaping(_, ThenDrain) => k.cancelled && Blamed(s, ContextEnded)
    case Reaping(_, ThenDone) => s.state.Closed?
    case Draining => k.cancelled && Blamed(s, ContextEnded)
    case Interrupted => k.cancelled && !s.state.Poisoned?
    case ClosingInput => s.state.Closed?
    case AwaitingExit => s.state.Closed?
    case ExitSeen => s.state.Closed? && !alive
    case pc => Past(pc) ==> !s.state.Poisoned?
  }

  /** A recorded cause and a closed session are final, and only a token holder poisons. */
  predicate EndMoves(s: Shared, k: Call, t: Shared, next: Call) {
    && CauseFits(t) && (s.cause.Some? ==> t.cause == s.cause) && (s.state.Closed? ==> t.state.Closed?)
    && t.waitDone == s.waitDone && (s.sequence == 0 ==> t.sequence == 0)
    && (t.state.Poisoned? && !s.state.Poisoned? ==> Holds(k.pc))
  }

  /** The failure recorded is the one the poisoning call goes on to report. */
  predicate CulpritMoves(s: Shared, k: Call, t: Shared, next: Call) {
    && (t.cause.Some? && s.cause.None? ==> (t.cause == Some(ExitedBeforeRequest) && t.waitDone) || Culprit(next, t.cause.value))
    && (s.cause.Some? && Culprit(k, s.cause.value) ==> Culprit(next, s.cause.value))
  }

  lemma AdvanceEnds(codec: Codec, s: Shared, alive: bool, clean: bool, k: Call, alt: bool)
    requires Local(s, k) && CauseFits(s) && (s.waitDone ==> !alive) && Stands(codec, s, alive, clean, k)
    requires Advance(codec, s, clean, k, alt).Some?
    ensures var (t, next) := Advance(codec, s, clean, k, alt).value;
            EndMoves(s, k, t, next) && Stands(codec, t, alive, clean, next)
  {
    hide TaskFits, IdFits, KindFits, PcFits, CauseFits, Stands, EndMoves, Acquire, Prepare, Transact, Reap, Conclude;
    if k.pc.Enter? || k.pc.Waiting? || k.pc.Granted? {
      AcquireEnds(codec, s, alive, clean, k, alt);
    } else if k.pc.Checking? || k.pc.Numbering? || k.pc.Encoding? {
      PrepareMoves(codec, s, k);
      PrepareEnds(codec, s, alive, clean, k);
    } else if k.pc.Awaiting? || k.pc.Interrupted? || k.pc.Failing? || k.pc.Draining? {
      PastCause(codec, s, alive, clean, k);
      TransactMoves(s, k, alt);
      TransactEnds(codec, s, alive, clean, k, alt);
    } else if k.pc.Reaping? {
      ReapMoves(s, k);
      ReapEnds(codec, s, alive, clean, k);
    } else {
      ConcludeMoves(s, clean, k, alt);
      ConcludeEnds(codec, s, alive, clean, k, alt);
    }
  }

  lemma PastCause(codec: Codec, s: Shared, alive: bool, clean: bool, k: Call)
    requires Stands(codec, s, alive, clean, k)
    ensures Past(k.pc) ==> !s.state.Poisoned?
  {
    hide Ends;
  }

  lemma AcquireEnds(codec: Codec, s: Shared, alive: bool, clean: bool, k: Call, alt: bool)
    requires IdFits(s, k) && CauseFits(s) && Acquire(s, k, alt).Some?
    ensures var (t, next) := Acquire(s, k, alt).value; EndMoves(s, k, t, next) && Stands(codec, t, alive, clean, next)
  {
  }

  lemma PrepareMoves(codec: Codec, s: Shared, k: Call)
    requires CauseFits(s) && Prepare(codec, s, k).Some?
    ensures var (t, next) := Prepare(codec, s, k).value; EndMoves(s, k, t, next)
  {
    hide EncodeFrame;
  }

  lemma PrepareEnds(codec: Codec, s: Shared, alive: bool, clean: bool, k: Call)
    requires CauseFits(s) && Stands(codec, s, alive, clean, k) && Prepare(codec, s, k).Some?
    ensures var (t, next) := Prepare(codec, s, k).value; Stands(codec, t, alive, clean, next)
  {
    hide EncodeFrame;
  }

  lemma TransactMoves(s: Shared, k: Call, alt: bool)
    requires TaskFits(k) && CauseFits(s) && (Past(k.pc) ==> !s.state.Poisoned?) && Transact(s, k, alt).Some?
    ensures var (t, next) := Transact(s, k, alt).value; EndMoves(s, k, t, next)
  {
  }

  lemma TransactEnds(codec: Codec, s: Shared, alive: bool, clean: bool, k: Call, alt: bool)
    requires TaskFits(k) && Stands(codec, s, alive, clean, k) && Transact(s, k, alt).Some?
    ensures var (t, next) := Transact(s, k, alt).value; Stands(codec, t, alive, clean, next)
  {
    if k.pc.Awaiting? || k.pc.Draining? {
      CollectEnds(codec, s, alive, clean, k, alt);
    } else {
      PoisonEnds(codec, s, alive, clean, k, alt);
    }
    hide Transact, Stands, TaskFits;
  }

  lemma CollectEnds(codec: Codec, s: Shared, alive: bool, clean: bool, k: Call, alt: bool)
    requires Stands(codec, s, alive, clean, k) && Transact(s, k, alt).Some? && (k.pc.Awaiting? || k.pc.Draining?)
    ensures var (t, next) := Transact(s, k, alt).value; Stands(codec, t, alive, clean, next)
  {
    hide EncodeFrame;
  }

  lemma PoisonEnds(codec: Codec, s: Shared, alive: bool, clean: bool, k: Call, alt: bool)
    requires TaskFits(k) && Stands(codec, s, alive, clean, k) && Transact(s, k, alt).Some? && !k.pc.Awaiting? && !k.pc.Draining?
    ensures var (t, next) := Transact(s, k, alt).value; Stands(codec, t, alive, clean, next)
  {
    hide EncodeFrame;
  }

  lemma ReapMoves(s: Shared, k: Call)
    requires CauseFits(s) && Reap(s, k).Some?
    ensures var (t, next) := Reap(s, k).value; EndMoves(s, k, t, next)
  {
  }

  /** Reaping changes nothing an outcome speaks of. */
  lemma EndsReaping(codec: Codec, s: Shared, t: Shared, alive: bool, clean: bool, k: Call, next: Call, o: Outcome)
    requires Ends(codec, s, alive, clean, k, o)
    requires t.cause == s.cause && t.state == s.state && t.sequence == s.sequence && next == k.(pc := next.pc)
    ensures Ends(codec, t, alive, clean, next, o)
  {
    hide EncodeFrame;
  }

  lemma ReapEnds(codec: Codec, s: Shared, alive: bool, clean: bool, k: Call)
    requires KindFits(k) && Stands(codec, s, alive, clean, k) && Reap(s, k).Some?
    ensures var (t, next) := Reap(s, k).value; Stands(codec, t, alive, clean, next)
  {
    if k.pc.next.ThenLeave? {
      ReapLeaves(codec, s, alive, clean, k);
    } else {
      ReapOthers(codec, s, alive, clean, k);
    }
    hide Reap, Stands, KindFits;
  }

  lemma ReapLeaves(codec: Codec, s: Shared, alive: bool, clean: bool, k: Call)
    requires Stands(codec, s, alive, clean, k) && Reap(s, k).Some? && k.pc.next.ThenLeave?
    ensures var (t, next) := Reap(s, k).value; Stands(codec, t, alive, clean, next)
  {
    hide Ends;
    var (t, next) := Reap(s, k).value;
    EndsReaping(codec, s, t, alive, clean, k, next, k.pc.next.outcome);
  }

  lemma ReapOthers(codec: Codec, s: Shared, alive: bool, clean: bool, k: Call)
    requires KindFits(k) && Stands(codec, s, alive, clean, k) && Reap(s, k).Some? && !k.pc.next.ThenLeave?
    ensures var (t, next) := Reap(s, k).value; Stands(codec, t, alive, clean, next)
  {
    hide Ends;
    var (t, next) := Reap(s, k).value;
    CloseEnds(codec, t, alive, clean, next);
  }

  lemma CloseEnds(codec: Codec, s: Shared, alive: bool, clean: bool, k: Call)
    ensures Ends(codec, s, alive, clean, k, ForceClosed) == (k.kind.CloseCall? && s.state.Closed?)
  {
  }

  lemma ConcludeMoves(s: Shared, clean: bool, k: Call, alt: bool)
    requires CauseFits(s) && Conclude(s, clean, k, alt).Some? && !k.pc.Reaping?
    ensures var (t, next) := Conclude(s, clean, k, alt).value; EndMoves(s, k, t, next)
  {
  }

  /** The outcomes that `Conclude` itself decides on. */
  lemma ConcludedEnds(codec: Codec, s: Shared, alive: bool, clean: bool, k: Call)
    ensures forall r :: k.kind.ExecuteCall? ==> Ends(codec, s, alive, clean, k, Delivered(r))
    ensures forall e :: k.kind.ExecuteCall? ==> Ends(codec, s, alive, clean, k, RemoteReported(e))
    ensures k.kind.ShutdownCall? && s.state.Closed? && !alive ==> Ends(codec, s, alive, clean, k, if clean then Acknowledged else Refused(ExitFailed))
    ensures s.state.Closed? && k.cancelled ==> Ends(codec, s, alive, clean, k, Refused(ContextEnded))
  {
    hide EncodeFrame;
  }

  lemma ConcludeEnds(codec: Codec, s: Shared, alive: bool, clean: bool, k: Call, alt: bool)
    requires KindFits(k) && (s.waitDone ==> !alive) && Stands(codec, s, alive, clean, k)
    requires Conclude(s, clean, k, alt).Some? && !k.pc.Reaping?
    ensures var (t, next) := Conclude(s, clean, k, alt).value; Stands(codec, t, alive, clean, next)
  {
    if k.pc.Answered? {
      JudgeEnds(codec, s, alive, clean, k, alt);
    } else if k.pc.AwaitingExit? || k.pc.ExitSeen? {
      ExitEnds(codec, s, alive, clean, k, alt);
    } else if k.pc.Leaving? {
      LeaveEnds(codec, s, alive, clean, k, alt);
    } else if k.pc.Acked? || k.pc.ClosingInput? || k.pc.CloseEnter? {
      FlagEnds(codec, s, alive, clean, k, alt);
    }
    hide Conclude, Stands, KindFits;
  }

  lemma JudgeEnds(codec: Codec, s: Shared, alive: bool, clean: bool, k: Call, alt: bool)
    requires KindFits(k) && Stands(codec, s, alive, clean, k)
    requires Conclude(s, clean, k, alt).Some? && (k.pc.Answered?)
    ensures var (t, next) := Conclude(s, clean, k, alt).value; Stands(codec, t, alive, clean, next)
  {
    hide Ends;
    var (t, next) := Conclude(s, clean, k, alt).value;
    ConcludedEnds(codec, t, alive, clean, next);
  }

  lemma ExitEnds(codec: Codec, s: Shared, alive: bool, clean: bool, k: Call, alt: bool)
    requires KindFits(k) && (s.waitDone ==> !alive) && Stands(codec, s, alive, clean, k)
    requires Conclude(s, clean, k, alt).Some? && (k.pc.AwaitingExit? || k.pc.ExitSeen?)
    ensures var (t, next) := Conclude(s, clean, k, alt).value; Stands(codec, t, alive, clean, next)
  {
    hide Ends;
    var (t, next) := Conclude(s, clean, k, alt).value;
    ConcludedEnds(codec, t, alive, clean, next);
  }

  lemma LeaveEnds(codec: Codec, s: Shared, alive: bool, clean: bool, k: Call, alt: bool)
    requires KindFits(k) && Stands(codec, s, alive, clean, k)
    requires Conclude(s, clean, k, alt).Some? && (k.pc.Leaving?)
    ensures var (t, next) := Conclude(s, clean, k, alt).value; Stands(codec, t, alive, clean, next)
  {
    hide Ends;
    var (t, next) := Conclude(s, clean, k, alt).value;
    EndsReaping(codec, s, t, alive, clean, k, next, k.pc.outcome);
  }

  lemma FlagEnds(codec: Codec, s: Shared, alive: bool, clean: bool, k: Call, alt: bool)
    requires KindFits(k) && Stands(codec, s, alive, clean, k)
    requires Conclude(s, clean, k, alt).Some? && (k.pc.Acked? || k.pc.ClosingInput? || k.pc.CloseEnter?)
    ensures var (t, next) := Conclude(s, clean, k, alt).value; Stands(codec, t, alive, clean, next)
  {
    hide Ends;
    var (t, next) := Conclude(s, clean, k, alt).value;
  }

  lemma AdvanceCulprit(codec: Codec, s: Shared, alive: bool, clean: bool, k: Call, alt: bool)
    requires Local(s, k) && CauseFits(s) && Stands(codec, s, alive, clean, k) && Advance(codec, s, clean, k, alt).Some?
    ensures var (t, next) := Advance(codec, s, clean, k, alt).value; CulpritMoves(s, k, t, next)
  {
    hide TaskFits, IdFits, KindFits, PcFits, CauseFits, Stands, CulpritMoves, Acquire, Prepare, Transact, Reap, Conclude;
    if k.pc.Enter? || k.pc.Waiting? || k.pc.Granted? {
      AcquireCulprit(s, k, alt);
    } else if k.pc.Checking? || k.pc.Numbering? || k.pc.Encoding? {
      PrepareCulprit(codec, s, k);
    } else if k.pc.Awaiting? || k.pc.Interrupted? || k.pc.Failing? || k.pc.Draining? {
      PastCause(codec, s, alive, clean, k);
      TransactCulprit(s, k, alt);
    } else if k.pc.Reaping? {
      ReapCulprit(s, k);
    } else {
      ConcludeCulprit(s, clean, k, alt);
    }
  }

  lemma AcquireCulprit(s: Shared, k: Call, alt: bool)
    requires Acquire(s, k, alt).Some?
    ensures var (t, next) := Acquire(s, k, alt).value; CulpritMoves(s, k, t, next)
  {
  }

  lemma PrepareCulprit(codec: Codec, s: Shared, k: Call)
    requires CauseFits(s) && Prepare(codec, s, k).Some?
    ensures var (t, next) := Prepare(codec, s, k).value; CulpritMoves(s, k, t, next)
  {
    hide EncodeFrame;
  }

  lemma TransactCulprit(s: Shared, k: Call, alt: bool)
    requires TaskFits(k) && CauseFits(s) && (Past(k.pc) ==> !s.state.Poisoned?) && Transact(s, k, alt).Some?
    ensures var (t, next) := Transact(s, k, alt).value; CulpritMoves(s, k, t, next)
  {
  }

  lemma ReapCulprit(s: Shared, k: Call)
    requires Reap(s, k).Some?
    ensures var (t, next) := Reap(s, k).value; CulpritMoves(s, k, t, next)
  {
  }

  lemma ConcludeCulprit(s: Shared, clean: bool, k: Call, alt: bool)
    requires Conclude(s, clean, k, alt).Some? && !k.pc.Reaping?
    ensures var (t, next) := Conclude(s, clean, k, alt).value; CulpritMoves(s, k, t, next)
  {
  }

  // ------------------------------------------------------------------- all calls

  ghost predicate AllStand(codec: Codec, s: State) {
    forall c :: c in s.calls ==> Stands(codec, s.shared, s.childAlive, s.exitClean, s.calls[c])
  }

  ghost predicate Explained(s: State) {
    s.shared.cause.Some? ==>
      || (s.shared.cause == Some(ExitedBeforeRequest) && s.shared.waitDone)
      || exists c :: c in s.calls && Culprit(s.calls[c], s.shared.cause.value)
  }

  ghost predicate EndingInv(codec: Codec, s: State) {
    && CauseFits(s.shared) && (s.shared.waitDone ==> !s.childAlive)
    && AllStand(codec, s) && Explained(s)
  }

  /** What another call's step, or the world's, may change without touching what a call says. */
  lemma StandsMonotone(codec: Codec, s: State, t: State, k: Call)
    requires Stands(codec, s.shared, s.childAlive, s.exitClean, k)
    requires (s.shared.cause.Some? ==> t.shared.cause == s.shared.cause) && (s.shared.state.Closed? ==> t.shared.state.Closed?)
    requires s.shared.sequence == 0 ==> t.shared.sequence == 0
    requires t.shared.state.Poisoned? && !s.shared.state.Poisoned? ==> !Holds(k.pc)
    requires !s.childAlive ==> !t.childAlive && t.exitClean == s.exitClean
    ensures Stands(codec, t.shared, t.childAlive, t.exitClean, k)
  {
    hide EncodeFrame;
  }

  lemma StandAt(codec: Codec, s: State, c: nat)
    requires AllStand(codec, s) && c in s.calls
    ensures Stands(codec, s.shared, s.childAlive, s.exitClean, s.calls[c])
  {
  }

  /** One call changes, and nothing is taken back. */
  lemma StandUpdate(codec: Codec, s: State, t: State, c: nat, k: Call)
    requires AllStand(codec, s) && TokenInv(s) && t.calls == s.calls[c := k]
    requires (s.shared.cause.Some? ==> t.shared.cause == s.shared.cause) && (s.shared.state.Closed? ==> t.shared.state.Closed?)
    requires s.shared.sequence == 0 ==> t.shared.sequence == 0
    requires t.shared.state.Poisoned? && !s.shared.state.Poisoned? ==> c in s.calls && Holds(s.calls[c].pc)
    requires t.childAlive == s.childAlive && t.exitClean == s.exitClean
    requires Stands(codec, t.shared, t.childAlive, t.exitClean, k)
    ensures AllStand(codec, t)
  {
    hide Stands, Holds;
    forall d | d in t.calls && d != c
      ensures Stands(codec, t.shared, t.childAlive, t.exitClean, t.calls[d])
    {
      StandsMonotone(codec, s, t, s.calls[d]);
    }
  }

  /** The recorded cause stays the failure of a call that is there to report it. */
  lemma ExplainedKept(s: State, t: State, c: nat, k: Call)
    requires Explained(s) && t.calls == s.calls[c := k] && t.shared.cause == s.shared.cause
    requires s.shared.waitDone ==> t.shared.waitDone
    requires c in s.calls && s.shared.cause.Some? && Culprit(s.calls[c], s.shared.cause.value) ==> Culprit(k, s.shared.cause.value)
    ensures Explained(t)
  {
    hide Culprit;
    if t.shared.cause.Some? && t.shared.cause != Some(ExitedBeforeRequest) {
      var d :| d in s.calls && Culprit(s.calls[d], s.shared.cause.value);
      assert d in t.calls && Culprit(t.calls[d], t.shared.cause.value);
    } else if t.shared.cause.Some? && !t.shared.waitDone {
      var d :| d in s.calls && Culprit(s.calls[d], s.shared.cause.value);
      assert d in t.calls && Culprit(t.calls[d], t.shared.cause.value);
    }
  }

  lemma EndingStep(codec: Codec, s: State, c: nat, alt: bool)
    requires CallsFit(s) && TokenInv(s) && EndingInv(codec, s) && c in s.calls && StepCall(codec, s, c, alt).Some?
    ensures EndingInv(codec, StepCall(codec, s, c, alt).value)
  {
    hide Advance, CallsFit, TokenInv, AllStand, Explained, Local, Stands, Holds, Culprit;
    var k, t := s.calls[c], StepCall(codec, s, c, alt).value;
    CallFits(s, c);
    StandAt(codec, s, c);
    AdvanceEnds(codec, s.shared, s.childAlive, s.exitClean, k, alt);
    AdvanceCulprit(codec, s.shared, s.childAlive, s.exitClean, k, alt);
    StandUpdate(codec, s, t, c, t.calls[c]);
    if s.shared.cause.Some? {
      ExplainedKept(s, t, c, t.calls[c]);
    } else {
      Explains(t, c);
    }
  }

  lemma Explains(t: State, c: nat)
    requires c in t.calls
    requires t.shared.cause.Some? ==>
               (t.shared.cause == Some(ExitedBeforeRequest) && t.shared.waitDone) || Culprit(t.calls[c], t.shared.cause.value)
    ensures Explained(t)
  {
    hide Culprit;
  }

  lemma EndingTask(codec: Codec, s: State, a: Action)
    requires (a.WriteChunk? || a.WriteFail? || a.ReadFrame? || a.ReadFail?) && a.c in s.calls
    requires CallsFit(s) && TokenInv(s) && EndingInv(codec, s) && StepTask(codec, s, a).Some?
    ensures EndingInv(codec, StepTask(codec, s, a).value)
  {
    hide StepTask, CallsFit, TokenInv, AllStand, Explained, Local, Stands, Holds, Culprit;
    var t := StepTask(codec, s, a).value;
    CallFits(s, a.c);
    StandAt(codec, s, a.c);
    TaskStep(codec, s, a);
    TaskStands(codec, s, t.calls[a.c], a.c);
    StandUpdate(codec, s, t, a.c, t.calls[a.c]);
    ExplainedKept(s, t, a.c, t.calls[a.c]);
  }

  /** A live goroutine belongs to a call inside its transaction, whose ending does not look at it. */
  lemma TaskStands(codec: Codec, s: State, next: Call, c: nat)
    requires c in s.calls && Local(s.shared, s.calls[c]) && Live(s.calls[c].task)
    requires next == s.calls[c].(task := next.task, receipt := next.receipt) && (Live(next.task) || next.task.Finished?)
    requires Stands(codec, s.shared, s.childAlive, s.exitClean, s.calls[c])
    ensures Stands(codec, s.shared, s.childAlive, s.exitClean, next)
    ensures forall why :: Culprit(s.calls[c], why) ==> Culprit(next, why)
  {
    hide EncodeFrame;
  }

  lemma CancelStands(codec: Codec, s: State, c: nat)
    requires c in s.calls && Stands(codec, s.shared, s.childAlive, s.exitClean, s.calls[c])
    ensures Stands(codec, s.shared, s.childAlive, s.exitClean, s.calls[c].(cancelled := true))
    ensures forall why :: Culprit(s.calls[c], why) ==> Culprit(s.calls[c].(cancelled := true), why)
  {
    hide EncodeFrame;
  }

  /** The child ends once, and is waited for only after that. */
  lemma EndingWorld(codec: Codec, s: State, a: Action)
    requires (a.Emit? || a.Exit? || a.Wait? || a.DrainStderr?) && StepWorld(s, a).Some? && EndingInv(codec, s)
    ensures EndingInv(codec, StepWorld(s, a).value)
  {
    hide Stands, Culprit;
    var t := StepWorld(s, a).value;
    forall c | c in t.calls
      ensures Stands(codec, t.shared, t.childAlive, t.exitClean, t.calls[c])
    {
      StandsMonotone(codec, s, t, s.calls[c]);
    }
    if t.shared.cause.Some? && exists c :: c in s.calls && Culprit(s.calls[c], s.shared.cause.value) {
      var c :| c in s.calls && Culprit(s.calls[c], s.shared.cause.value);
      Explains(t, c);
    }
  }

  /** Every step of every caller, goroutine, pipe and process keeps what the endings say. */
  lemma EndingKept(codec: Codec, s: State, a: Action)
    requires CallsFit(s) && TokenInv(s) && EndingInv(codec, s) && Next(codec, s, a).Some?
    ensures EndingInv(codec, Next(codec, s, a).value)
  {
    hide StepCall, StepTask, StepWorld, CallsFit, TokenInv, Stands, Culprit, AllStand, Explained;
    var t := Next(codec, s, a).value;
    match a
    case Step(c, alt) => EndingStep(codec, s, c, alt);
    case Invoke(c, kind) =>
      BeginStands(codec, s, kind);
      StandUpdate(codec, s, t, c, Begin(kind));
      ExplainedKept(s, t, c, Begin(kind));
    case Cancel(c) =>
      StandAt(codec, s, c);
      CancelStands(codec, s, c);
      StandUpdate(codec, s, t, c, s.calls[c].(cancelled := true));
      ExplainedKept(s, t, c, s.calls[c].(cancelled := true));
    case WriteChunk(_, _) => EndingTask(codec, s, a);
    case WriteFail(_) => EndingTask(codec, s, a);
    case ReadFrame(_) => EndingTask(codec, s, a);
    case ReadFail(_) => EndingTask(codec, s, a);
    case _ => EndingWorld(codec, s, a);
  }

  lemma BeginStands(codec: Codec, s: State, kind: Kind)
    ensures Stands(codec, s.shared, s.childAlive, s.exitClean, Begin(kind))
  {
  }

  lemma EndingStart(codec: Codec)
    ensures EndingInv(codec, START)
  {
  }
}
