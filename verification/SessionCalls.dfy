/** What holds of every single call in every interleaving: who owns the token, when a
    request goroutine exists, and how far the child has been reaped. */
module SessionCalls {
  import opened Words
  import opened Framing
  import opened Protocol
  import opened Session
  import opened SessionSystem
  import Contracts
  import Hex

  /** Nothing of the child process is left. */
  predicate Reaped(s: Shared) {
    s.waitDone && s.outputClosed && s.stderrDone
  }

  /** Failures that poison the session. */
  predicate Fatal(why: Refusal) {
    why.TransportFailed? || why.ResponseRejected? || why.UnexpectedKind?
  }

  /** A goroutine exists exactly while its call is inside `transact`. */
  predicate TaskFits(k: Call) {
    && (Transacting(k.pc) <==> Live(k.task) || k.task.Finished?)
    && (k.pc.Answered? || k.pc.Failing? || k.pc.Acked? ==> k.task.Collected?)
    && (k.pc.Encoding? ==> k.task.NoTask?)
    && (k.task.Finished? && k.task.result.Err? ==> Fatal(k.task.result.error))
    && (k.pc.Failing? ==> Fatal(k.pc.why))
  }

  predicate Unnumbered(pc: Pc) {
    pc.Enter? || pc.Waiting? || pc.Granted? || pc.Checking? || pc.Numbering? || pc.CloseEnter?
  }

  predicate IdFits(s: Shared, k: Call) {
    && (Unnumbered(k.pc) ==> k.id.None? && k.task.NoTask?)
    && (k.pc.Encoding? || !k.task.NoTask? ==> k.id.Some?)
    && (k.id.Some? ==> 1 <= k.id.value && (s.sequence == 0 || k.id.value < s.sequence))
  }

  predicate KindFits(k: Call) {
    && (k.kind.CloseCall? ==> k.pc.CloseEnter? || k.pc.Done? || (k.pc.Reaping? && k.pc.next.ThenDone?))
    && (!k.kind.CloseCall? ==> !k.pc.CloseEnter? && !(k.pc.Reaping? && k.pc.next.ThenDone?))
    && (k.pc.Acked? || k.pc.ClosingInput? || k.pc.AwaitingExit? || k.pc.ExitSeen? ==> k.kind.ShutdownCall?)
    && (k.pc.Reaping? && k.pc.next.ThenLeave? ==>
          !k.task.NoTask? && k.pc.next.outcome.Refused? && (Fatal(k.pc.next.outcome.why) || k.pc.next.outcome.why.ContextEnded?))
    && (k.pc.ClosingInput? || k.pc.AwaitingExit? || k.pc.ExitSeen? ==> !k.task.NoTask?)
    && (k.pc.Leaving? ==> !k.pc.outcome.ForceClosed?)
  }

  /** How far `killAndReap` has come. */
  predicate ReapFits(s: Shared, step: ReapStep) {
    && !s.state.Open?
    && (!step.CloseIn? ==> s.inputClosed)
    && (step.AwaitWait? || step.CloseOut? || step.AwaitStderr? ==> s.killed)
    && (step.CloseOut? || step.AwaitStderr? ==> s.waitDone)
    && (step.AwaitStderr? ==> s.outputClosed)
  }

  /** What a call has seen by the time it returns. */
  predicate OutcomeFits(s: Shared, task: Task, o: Outcome) {
    match o
    case Delivered(_) => true
    case RemoteReported(_) => true
    case Acknowledged => !s.state.Open? && Reaped(s) && s.inputClosed
    case ForceClosed => !s.state.Open? && Reaped(s) && s.inputClosed && s.killed
    case Refused(why) =>
      && (Fatal(why) || (why.ContextEnded? && !task.NoTask?) ==> !s.state.Open? && Reaped(s) && s.inputClosed && s.killed)
      && (why.ExitFailed? ==> !s.state.Open? && Reaped(s) && s.inputClosed)
      && (why.SessionClosed? || why.SessionPoisoned? ==> !s.state.Open?)
      && (why.IdsExhausted? ==> s.sequence == 0)
  }

  predicate PcFits(s: Shared, k: Call) {
    match k.pc
    case Reaping(step, _) => ReapFits(s, step)
    case Draining => !s.state.Open? && Reaped(s) && s.inputClosed && s.killed
    case ClosingInput => !s.state.Open?
    case AwaitingExit => !s.state.Open? && s.inputClosed
    case ExitSeen => !s.state.Open? && s.inputClosed && s.waitDone && s.outputClosed
    case Leaving(o) => OutcomeFits(s, k.task, o)
    case Done(o) => OutcomeFits(s, k.task, o)
    case _ => true
  }

  predicate Local(s: Shared, k: Call) {
    TaskFits(k) && IdFits(s, k) && KindFits(k) && PcFits(s, k)
  }

  // -------------------------------------------------------- one call, one step

  lemma LocalMonotone(s: Shared, t: Shared, k: Call)
    requires Local(s, k) && Progress(s, t)
    ensures Local(t, k)
  {
  }

  lemma LocalBegin(s: Shared, kind: Kind)
    ensures Local(s, Begin(kind)) && !Holds(Begin(kind).pc)
  {
  }

  lemma LocalCancel(s: Shared, k: Call)
    requires Local(s, k)
    ensures Local(s, k.(cancelled := true))
  {
  }

  /** Every step of a caller keeps its local facts and only moves the session forward. */
  lemma AdvanceLocal(codec: Codec, s: Shared, exitClean: bool, k: Call, alt: bool)
    requires Local(s, k) && Advance(codec, s, exitClean, k, alt).Some?
    ensures var (t, next) := Advance(codec, s, exitClean, k, alt).value; Progress(s, t) && Local(t, next)
  {
    hide Progress, Local, Acquire, Prepare, Transact, Reap, Conclude;
    AcquireLocal(s, k, alt);
    PrepareLocal(codec, s, k);
    TransactLocal(s, k, alt);
    ReapLocal(s, k);
    ConcludeLocal(s, exitClean, k, alt);
  }

  lemma AcquireLocal(s: Shared, k: Call, alt: bool)
    requires Local(s, k)
    ensures Acquire(s, k, alt).Some? ==> var (t, next) := Acquire(s, k, alt).value; Progress(s, t) && Local(t, next)
  {
  }

  lemma PrepareLocal(codec: Codec, s: Shared, k: Call)
    requires Local(s, k)
    ensures Prepare(codec, s, k).Some? ==> var (t, next) := Prepare(codec, s, k).value; Progress(s, t) && Local(t, next)
  {
    hide EncodeFrame;
  }

  lemma TransactLocal(s: Shared, k: Call, alt: bool)
    requires Local(s, k)
    ensures Transact(s, k, alt).Some? ==> var (t, next) := Transact(s, k, alt).value; Progress(s, t) && Local(t, next)
  {
    if k.pc.Awaiting? || k.pc.Draining? {
      CollectLocal(s, k, alt);
    } else {
      PoisonLocal(s, k, alt);
    }
  }

  lemma CollectLocal(s: Shared, k: Call, alt: bool)
    requires Local(s, k) && (k.pc.Awaiting? || k.pc.Draining?)
    ensures Transact(s, k, alt).Some? ==> var (t, next) := Transact(s, k, alt).value; t == s && Local(s, next)
  {
  }

  lemma PoisonLocal(s: Shared, k: Call, alt: bool)
    requires Local(s, k) && !k.pc.Awaiting? && !k.pc.Draining?
    ensures Transact(s, k, alt).Some? ==> var (t, next) := Transact(s, k, alt).value; Progress(s, t) && Local(t, next)
  {
  }

  lemma ReapLocal(s: Shared, k: Call)
    requires Local(s, k)
    ensures Reap(s, k).Some? ==> var (t, next) := Reap(s, k).value; Progress(s, t) && Local(t, next)
  {
    if k.pc.Reaping? {
      match k.pc.step
      case CloseIn =>
      case Kill =>
      case AwaitWait =>
      case CloseOut =>
      case AwaitStderr =>
    }
  }

  lemma ConcludeLocal(s: Shared, exitClean: bool, k: Call, alt: bool)
    requires Local(s, k)
    ensures Conclude(s, exitClean, k, alt).Some? ==>
              var (t, next) := Conclude(s, exitClean, k, alt).value; Progress(s, t) && Local(t, next)
  {
    if k.pc.Answered? {
      JudgeLocal(s, exitClean, k, alt);
    } else if k.pc.AwaitingExit? || k.pc.ExitSeen? {
      ExitLocal(s, exitClean, k, alt);
    } else if k.pc.Leaving? {
      LeaveLocal(s, exitClean, k, alt);
    } else if k.pc.Acked? || k.pc.ClosingInput? || k.pc.CloseEnter? {
      FlagLocal(s, exitClean, k, alt);
    }
  }

  lemma JudgeLocal(s: Shared, exitClean: bool, k: Call, alt: bool)
    requires Local(s, k) && k.pc.Answered?
    ensures Conclude(s, exitClean, k, alt).Some? ==>
              var (t, next) := Conclude(s, exitClean, k, alt).value; Progress(s, t) && Local(t, next)
  {
  }

  lemma ExitLocal(s: Shared, exitClean: bool, k: Call, alt: bool)
    requires Local(s, k) && (k.pc.AwaitingExit? || k.pc.ExitSeen?)
    ensures Conclude(s, exitClean, k, alt).Some? ==>
              var (t, next) := Conclude(s, exitClean, k, alt).value; Progress(s, t) && Local(t, next)
  {
  }

  lemma LeaveLocal(s: Shared, exitClean: bool, k: Call, alt: bool)
    requires Local(s, k) && k.pc.Leaving?
    ensures Conclude(s, exitClean, k, alt).Some? ==>
              var (t, next) := Conclude(s, exitClean, k, alt).value; Progress(s, t) && Local(t, next)
  {
  }

  lemma FlagLocal(s: Shared, exitClean: bool, k: Call, alt: bool)
    requires Local(s, k) && (k.pc.Acked? || k.pc.ClosingInput? || k.pc.CloseEnter?)
    ensures Conclude(s, exitClean, k, alt).Some? ==>
              var (t, next) := Conclude(s, exitClean, k, alt).value; Progress(s, t) && Local(t, next)
  {
  }

  /** The token moves exactly when a call starts or stops holding it. */
  ghost predicate TokenMoves(s: Shared, k: Call, t: Shared, next: Call) {
    && next.kind == k.kind
    && (!Holds(k.pc) && Holds(next.pc) ==> s.tokens > 0 && t.tokens == s.tokens - 1)
    && (Holds(k.pc) && !Holds(next.pc) ==> t.tokens == 1)
    && (Holds(k.pc) == Holds(next.pc) ==> t.tokens == s.tokens)
  }

  lemma AdvanceToken(codec: Codec, s: Shared, exitClean: bool, k: Call, alt: bool)
    requires KindFits(k) && Advance(codec, s, exitClean, k, alt).Some?
    ensures var (t, next) := Advance(codec, s, exitClean, k, alt).value; TokenMoves(s, k, t, next)
  {
    if k.pc.Reaping? {
      ReapToken(s, k);
    } else if k.pc.Awaiting? || k.pc.Interrupted? || k.pc.Failing? || k.pc.Draining? {
      TransactToken(s, k, alt);
    } else if k.pc.Checking? || k.pc.Numbering? || k.pc.Encoding? {
      PrepareToken(codec, s, k);
    } else if !k.pc.Enter? && !k.pc.Waiting? && !k.pc.Granted? {
      ConcludeToken(s, exitClean, k, alt);
    } else {
      AcquireToken(s, k, alt);
    }
    hide TokenMoves, KindFits, Acquire, Prepare, Transact, Reap, Conclude;
  }

  lemma AcquireToken(s: Shared, k: Call, alt: bool)
    ensures Acquire(s, k, alt).Some? ==> var (t, next) := Acquire(s, k, alt).value; TokenMoves(s, k, t, next)
  {
  }

  lemma PrepareToken(codec: Codec, s: Shared, k: Call)
    ensures Prepare(codec, s, k).Some? ==> var (t, next) := Prepare(codec, s, k).value; TokenMoves(s, k, t, next)
  {
    hide EncodeFrame;
  }

  lemma TransactToken(s: Shared, k: Call, alt: bool)
    ensures Transact(s, k, alt).Some? ==> var (t, next) := Transact(s, k, alt).value; TokenMoves(s, k, t, next)
  {
  }

  lemma ReapToken(s: Shared, k: Call)
    ensures Reap(s, k).Some? ==> var (t, next) := Reap(s, k).value; TokenMoves(s, k, t, next)
  {
  }

  lemma ConcludeToken(s: Shared, exitClean: bool, k: Call, alt: bool)
    requires !k.pc.Enter? && !k.pc.Waiting? && !k.pc.Reaping?
    ensures Conclude(s, exitClean, k, alt).Some? ==>
              var (t, next) := Conclude(s, exitClean, k, alt).value; TokenMoves(s, k, t, next)
  {
  }

  // ------------------------------------------------------------- all calls

  ghost predicate CallsFit(s: State) {
    forall c :: c in s.calls ==> Local(s.shared, s.calls[c])
  }

  /** Mutual exclusion: the one token is either free or with one named call. */
  ghost predicate TokenInv(s: State) {
    && s.shared.tokens == (if s.holder.None? then 1 else 0)
    && (s.holder.Some? ==> s.holder.value in s.calls)
    && forall c :: c in s.calls ==> (Holds(s.calls[c].pc) <==> s.holder == Some(c))
  }

  lemma Update(s: State, t: State, c: nat, k: Call)
    requires CallsFit(s) && t.calls == s.calls[c := k] && Progress(s.shared, t.shared) && Local(t.shared, k)
    ensures CallsFit(t)
  {
    hide Local, Progress;
    forall d | d in t.calls
      ensures Local(t.shared, t.calls[d])
    {
      if d != c {
        LocalMonotone(s.shared, t.shared, s.calls[d]);
      }
    }
  }

  /** Goroutine steps leave the shared state, every program counter and the identity alone. */
  lemma TaskStep(codec: Codec, s: State, a: Action)
    requires (a.WriteChunk? || a.WriteFail? || a.ReadFrame? || a.ReadFail?) && a.c in s.calls
    requires StepTask(codec, s, a).Some?
    ensures var t := StepTask(codec, s, a).value;
            && a.c in t.calls && t.calls == s.calls[a.c := t.calls[a.c]]
            && t.shared == s.shared && t.holder == s.holder && t.log == s.log
            && t.childAlive == s.childAlive && t.exitClean == s.exitClean && t.stdout == s.stdout
            && s.stdin <= t.stdin && s.received <= t.received
            && t.calls[a.c] == s.calls[a.c].(task := t.calls[a.c].task, receipt := t.calls[a.c].receipt)
            && Live(s.calls[a.c].task)
            && (Live(t.calls[a.c].task) || t.calls[a.c].task.Finished?)
            && (t.calls[a.c].task.Finished? && t.calls[a.c].task.result.Err? ==> Fatal(t.calls[a.c].task.result.error))
  {
    hide GoFrame, DecodeResponse;
  }

  /** The worker and the operating system touch no call and no history. */
  lemma WorldStep(s: State, a: Action)
    requires (a.Emit? || a.Exit? || a.Wait? || a.DrainStderr?) && StepWorld(s, a).Some?
    ensures var t := StepWorld(s, a).value;
            && t.calls == s.calls && t.holder == s.holder && t.log == s.log && t.received == s.received
            && t.stdin == s.stdin && t.consumed == s.consumed && s.stdout <= t.stdout
            && Progress(s.shared, t.shared) && t.shared.state == s.shared.state && t.shared.tokens == s.shared.tokens
            && t.shared.sequence == s.shared.sequence && t.shared.inputClosed == s.shared.inputClosed
  {
  }

  lemma CallsKept(codec: Codec, s: State, a: Action)
    requires CallsFit(s) && Next(codec, s, a).Some?
    ensures CallsFit(Next(codec, s, a).value) && Progress(s.shared, Next(codec, s, a).value.shared)
  {
    hide Local, Advance, StepTask, StepWorld, CallsFit;
    var t := Next(codec, s, a).value;
    match a
    case Invoke(c, kind) =>
      LocalBegin(s.shared, kind);
      Update(s, t, c, Begin(kind));
    case Cancel(c) =>
      CallFits(s, c);
      LocalCancel(s.shared, s.calls[c]);
      Update(s, t, c, s.calls[c].(cancelled := true));
    case Step(c, alt) =>
      CallFits(s, c);
      AdvanceLocal(codec, s.shared, s.exitClean, s.calls[c], alt);
      Update(s, t, c, t.calls[c]);
    case WriteChunk(c, _) => TaskCallsKept(codec, s, a);
    case WriteFail(c) => TaskCallsKept(codec, s, a);
    case ReadFrame(c) => TaskCallsKept(codec, s, a);
    case ReadFail(c) => TaskCallsKept(codec, s, a);
    case _ =>
      WorldStep(s, a);
      SameCalls(s, t);
  }

  lemma TaskCallsKept(codec: Codec, s: State, a: Action)
    requires (a.WriteChunk? || a.WriteFail? || a.ReadFrame? || a.ReadFail?) && a.c in s.calls
    requires CallsFit(s) && StepTask(codec, s, a).Some?
    ensures CallsFit(StepTask(codec, s, a).value) && StepTask(codec, s, a).value.shared == s.shared
  {
    hide Local, StepTask, CallsFit;
    var t := StepTask(codec, s, a).value;
    CallFits(s, a.c);
    TaskStep(codec, s, a);
    TaskLocal(s.shared, s.calls[a.c], t.calls[a.c]);
    Update(s, t, a.c, t.calls[a.c]);
  }

  lemma CallFits(s: State, c: nat)
    requires CallsFit(s) && c in s.calls
    ensures Local(s.shared, s.calls[c])
  {
  }

  lemma SameCalls(s: State, t: State)
    requires CallsFit(s) && t.calls == s.calls && Progress(s.shared, t.shared)
    ensures CallsFit(t)
  {
    hide Local, Progress;
    forall d | d in t.calls
      ensures Local(t.shared, t.calls[d])
    {
      LocalMonotone(s.shared, t.shared, s.calls[d]);
    }
  }

  lemma TaskLocal(s: Shared, k: Call, next: Call)
    requires Local(s, k) && Live(k.task) && next == k.(task := next.task, receipt := next.receipt)
    requires Live(next.task) || next.task.Finished?
    requires next.task.Finished? && next.task.result.Err? ==> Fatal(next.task.result.error)
    ensures Local(s, next)
  {
  }

  lemma LocalKind(s: Shared, k: Call)
    requires Local(s, k)
    ensures KindFits(k)
  {
  }

  lemma TokenKept(codec: Codec, s: State, a: Action)
    requires CallsFit(s) && TokenInv(s) && Next(codec, s, a).Some?
    ensures TokenInv(Next(codec, s, a).value)
  {
    hide Local, Advance, StepTask, StepWorld, CallsFit, Holds;
    match a
    case Invoke(c, kind) => LocalBegin(s.shared, kind);
    case Cancel(c) =>
    case Step(c, alt) =>
      CallFits(s, c);
      assert KindFits(s.calls[c]) by { LocalKind(s.shared, s.calls[c]); }
      AdvanceToken(codec, s.shared, s.exitClean, s.calls[c], alt);
    case WriteChunk(_, _) => TaskStep(codec, s, a);
    case WriteFail(_) => TaskStep(codec, s, a);
    case ReadFrame(_) => TaskStep(codec, s, a);
    case ReadFail(_) => TaskStep(codec, s, a);
    case _ => WorldStep(s, a);
  }

  /** At most one goroutine may touch the pipes, only inside its call's transaction, and
      only while that call holds the token. */
  lemma OneTransaction(s: State, c: nat, d: nat)
    requires CallsFit(s) && TokenInv(s) && c in s.calls && d in s.calls
    requires Live(s.calls[c].task)
    ensures Transacting(s.calls[c].pc) && s.holder == Some(c)
    ensures Live(s.calls[d].task) ==> d == c
  {
    CallFits(s, c);
    CallFits(s, d);
  }
}
