/** The session object: the fields callers share, updated in place one atomic step at a time. */
module SessionObject {
  import opened Words
  import opened Framing
  import opened Protocol
  import opened Session
  import opened SessionSystem
  import SessionTheorems

  class WorkerSession {
    var tokens: nat
    var state: SessionState
    var cause: Option<Refusal>
    var sequence: U64
    var inputClosed: bool
    var outputClosed: bool
    var killed: bool
    var waitDone: bool
    var stderrDone: bool

    ghost function Snapshot(): Shared
      reads this
    {
      Shared(tokens, state, cause, sequence, inputClosed, outputClosed, killed, waitDone, stderrDone)
    }

    constructor ()
      ensures Snapshot() == FRESH
    {
      tokens, state, cause, sequence := 1, Open, None, 1;
      inputClosed, outputClosed, killed, waitDone, stderrDone := false, false, false, false, false;
    }

    method Current() returns (s: Shared)
      ensures s == Snapshot()
    {
      s := Shared(tokens, state, cause, sequence, inputClosed, outputClosed, killed, waitDone, stderrDone);
    }

    method Poison(cause: Refusal)
      modifies this
      ensures Snapshot() == MarkPoisoned(old(Snapshot()), cause)
    {
      if state == Open {
        state := Poisoned;
        this.cause := Some(cause);
      }
    }

    method Check() returns (refusal: Option<Refusal>)
      modifies this
      ensures (Snapshot(), refusal) == CheckOpen(old(Snapshot()))
    {
      match state
      case Closed => return Some(SessionClosed);
      case Poisoned => return Some(SessionPoisoned);
      case Open =>
        if waitDone {
          outputClosed := true;
          state := Poisoned;
          cause := Some(ExitedBeforeRequest);
          return Some(SessionPoisoned);
        }
        return None;
    }

    method TakeRequestId() returns (id: Option<U64>)
      modifies this
      ensures (Snapshot(), id) == NextRequestId(old(Snapshot()))
    {
      if sequence == 0 {
        return None;
      }
      id := Some(sequence);
      sequence := WrappingAdd(sequence, 1);
    }

    /** The force-close flag; reaping follows separately. */
    method MarkClosed()
      modifies this
      ensures Snapshot() == old(Snapshot()).(state := Closed)
    {
      state := Closed;
    }

    /** Receiving from and sending to the one-slot token channel, when neither blocks. */
    method TakeToken()
      requires tokens > 0
      modifies this
      ensures Snapshot() == old(Snapshot()).(tokens := old(tokens) - 1)
    {
      tokens := tokens - 1;
    }

    method PutToken()
      requires tokens == 0
      modifies this
      ensures Snapshot() == old(Snapshot()).(tokens := 1)
    {
      tokens := tokens + 1;
    }

    method CloseInput()
      modifies this
      ensures Snapshot() == old(Snapshot()).(inputClosed := true)
    {
      if !inputClosed {
        inputClosed := true;
      }
    }

    method CloseOutput()
      modifies this
      ensures Snapshot() == old(Snapshot()).(outputClosed := true)
    {
      if !outputClosed {
        outputClosed := true;
      }
    }

    method KillChild()
      modifies this
      ensures Snapshot() == old(Snapshot()).(killed := true)
    {
      if !killed {
        killed := true;
      }
    }

    /** The two goroutines that outlive every call: one waits for the child, one drains its
        diagnostics. */
    method ChildGone()
      modifies this
      ensures Snapshot() == old(Snapshot()).(waitDone := true)
    {
      waitDone := true;
    }

    method DiagnosticsDrained()
      modifies this
      ensures Snapshot() == old(Snapshot()).(stderrDone := true)
    {
      stderrDone := true;
    }

    // ------------------------------------------------ the steps of one caller

    /** `acquire`. */
    method StepAcquire(k: Call, alt: bool) returns (next: Option<Call>)
      modifies this
      ensures match Acquire(old(Snapshot()), k, alt)
              case None => next == None && Snapshot() == old(Snapshot())
              case Some((t, after)) => next == Some(after) && Snapshot() == t
    {
      match k.pc
      case Enter =>
        return Some(k.(pc := if k.cancelled then Done(Refused(ContextEnded)) else Waiting));
      case Waiting =>
        if alt {
          return if k.cancelled then Some(k.(pc := Done(Refused(ContextEnded)))) else None;
        }
        if tokens == 0 {
          return None;
        }
        TakeToken();
        return Some(k.(pc := Granted));
      case Granted =>
        return Some(k.(pc := if k.cancelled then Leaving(Refused(ContextEnded)) else Checking));
      case _ => return None;
    }

    /** `checkOpen`, `nextRequestID` and the encoder. */
    method StepPrepare(codec: Codec, k: Call) returns (next: Option<Call>)
      modifies this
      ensures match Prepare(codec, old(Snapshot()), k)
              case None => next == None && Snapshot() == old(Snapshot())
              case Some((t, after)) => next == Some(after) && Snapshot() == t
    {
      hide EncodeFrame;
      match k.pc
      case Checking =>
        if state == Open && waitDone && !stderrDone {
          return None;
        }
        var refusal := Check();
        return Some(k.(pc := if refusal.Some? then Leaving(Refused(refusal.value)) else Numbering));
      case Numbering =>
        var id := TakeRequestId();
        if id.None? {
          return Some(k.(pc := Leaving(Refused(IdsExhausted))));
        }
        return Some(k.(pc := Encoding, id := id));
      case Encoding =>
        if k.id.None? {
          return None;
        }
        var frame := EncodeFrame(codec, k.kind, k.id.value);
        match frame {
          case Err(e) => return Some(k.(pc := Leaving(Refused(EncodeRejected(e)))));
          case Ok(bytes) => return Some(k.(pc := Awaiting, task := Writing(bytes)));
        }
      case _ => return None;
    }

    /** The waiting side of `transact`, and `markPoisoned` after it. */
    method StepTransact(k: Call, alt: bool) returns (next: Option<Call>)
      modifies this
      ensures match Transact(old(Snapshot()), k, alt)
              case None => next == None && Snapshot() == old(Snapshot())
              case Some((t, after)) => next == Some(after) && Snapshot() == t
    {
      match k.pc
      case Awaiting =>
        if k.task.Finished? {
          var pc := if k.task.result.Ok? then Answered(k.task.result.value) else Failing(k.task.result.error);
          return Some(k.(task := Collected, pc := pc));
        }
        return if alt && k.cancelled then Some(k.(pc := Interrupted)) else None;
      case Interrupted =>
        Poison(ContextEnded);
        return Some(k.(pc := Reaping(CloseIn, ThenDrain)));
      case Failing(why) =>
        Poison(why);
        return Some(k.(pc := Reaping(CloseIn, ThenLeave(Refused(why)))));
      case Draining =>
        return if k.task.Finished? then Some(k.(task := Collected, pc := Leaving(Refused(ContextEnded)))) else None;
      case _ => return None;
    }

    /** `killAndReap`. */
    method StepReap(k: Call) returns (next: Option<Call>)
      modifies this
      ensures match Reap(old(Snapshot()), k)
              case None => next == None && Snapshot() == old(Snapshot())
              case Some((t, after)) => next == Some(after) && Snapshot() == t
    {
      match k.pc
      case Reaping(CloseIn, after) =>
        CloseInput();
        return Some(k.(pc := Reaping(Kill, after)));
      case Reaping(Kill, after) =>
        KillChild();
        return Some(k.(pc := Reaping(AwaitWait, after)));
      case Reaping(AwaitWait, after) =>
        return if waitDone then Some(k.(pc := Reaping(CloseOut, after))) else None;
      case Reaping(CloseOut, after) =>
        CloseOutput();
        return Some(k.(pc := Reaping(AwaitStderr, after)));
      case Reaping(AwaitStderr, after) =>
        if !stderrDone {
          return None;
        }
        match after {
          case ThenLeave(o) => return Some(k.(pc := Leaving(o)));
          case ThenDrain => return Some(k.(pc := Draining));
          case ThenDone => return Some(k.(pc := Done(ForceClosed)));
        }
      case _ => return None;
    }

    /** What `Execute`, `Shutdown` and `Close` do around a transaction. */
    method StepConclude(exitClean: bool, k: Call, alt: bool) returns (next: Option<Call>)
      modifies this
      ensures match Conclude(old(Snapshot()), exitClean, k, alt)
              case None => next == None && Snapshot() == old(Snapshot())
              case Some((t, after)) => next == Some(after) && Snapshot() == t
    {
      match k.pc
      case Answered(response) =>
        match response {
          case Completed(result) => return Some(k.(pc := if k.kind.ExecuteCall? then Leaving(Delivered(result)) else Failing(UnexpectedKind)));
          case RemoteFailure(error) => return Some(k.(pc := if k.kind.ExecuteCall? then Leaving(RemoteReported(error)) else Failing(UnexpectedKind)));
          case ShutdownAck => return Some(k.(pc := if k.kind.ShutdownCall? then Acked else Failing(UnexpectedKind)));
        }
      case Acked =>
        MarkClosed();
        return Some(k.(pc := ClosingInput));
      case ClosingInput =>
        CloseInput();
        return Some(k.(pc := AwaitingExit));
      case AwaitingExit =>
        if alt {
          return if k.cancelled then Some(k.(pc := Reaping(CloseIn, ThenLeave(Refused(ContextEnded))))) else None;
        }
        if !waitDone {
          return None;
        }
        CloseOutput();
        return Some(k.(pc := ExitSeen));
      case ExitSeen =>
        return if stderrDone then Some(k.(pc := Leaving(if exitClean then Acknowledged else Refused(ExitFailed)))) else None;
      case CloseEnter =>
        MarkClosed();
        return Some(k.(pc := Reaping(CloseIn, ThenDone)));
      case Leaving(o) =>
        if tokens != 0 {
          return None;
        }
        PutToken();
        return Some(k.(pc := Done(o)));
      case _ => return None;
    }

    /** One atomic step of a caller on the object is the step of the interleaved system: a
        blocked step changes nothing. */
    method CallerStep(codec: Codec, exitClean: bool, k: Call, alt: bool) returns (next: Option<Call>)
      modifies this
      ensures match Advance(codec, old(Snapshot()), exitClean, k, alt)
              case None => next == None && Snapshot() == old(Snapshot())
              case Some((t, after)) => next == Some(after) && Snapshot() == t
    {
      hide Acquire, Prepare, Transact, Reap, Conclude;
      if k.pc.Enter? || k.pc.Waiting? || k.pc.Granted? {
        next := StepAcquire(k, alt);
      } else if k.pc.Checking? || k.pc.Numbering? || k.pc.Encoding? {
        next := StepPrepare(codec, k);
      } else if k.pc.Awaiting? || k.pc.Interrupted? || k.pc.Failing? || k.pc.Draining? {
        next := StepTransact(k, alt);
      } else if k.pc.Reaping? {
        next := StepReap(k);
      } else {
        next := StepConclude(exitClean, k, alt);
      }
    }
  }

  /** A fresh session stands for the shared part of the system's initial state. */
  method Start() returns (session: WorkerSession)
    ensures fresh(session) && session.Snapshot() == START.shared
  {
    session := new WorkerSession();
  }

  /** A caller's step of the whole system, with the shared part kept in the object. */
  method TakeStep(codec: Codec, session: WorkerSession, s: State, c: nat, alt: bool) returns (t: Option<State>)
    requires c in s.calls && session.Snapshot() == s.shared
    modifies session
    ensures t == StepCall(codec, s, c, alt)
    ensures session.Snapshot() == if t.Some? then t.value.shared else s.shared
  {
    hide Advance;
    var k := s.calls[c];
    var next := session.CallerStep(codec, s.exitClean, k, alt);
    if next.None? {
      return None;
    }
    var after := next.value;
    SendsNumbered(codec, s.shared, s.exitClean, k, alt);
    var shared := session.Current();
    return Some(s.(shared := shared, calls := s.calls[c := after],
                   holder := if Holds(after.pc) then Some(c) else if Holds(k.pc) then None else s.holder,
                   log := if k.pc.Encoding? && after.pc.Awaiting? then s.log + [Launch(s, c, k)] else s.log));
  }

  /** Any action of the whole system, with the shared part kept in the object. */
  method TakeAction(codec: Codec, session: WorkerSession, s: State, a: Action) returns (t: Option<State>)
    requires session.Snapshot() == s.shared
    modifies session
    ensures t == Next(codec, s, a)
    ensures session.Snapshot() == if t.Some? then t.value.shared else s.shared
  {
    hide StepCall;
    match a
    case Step(c, alt) =>
      if c !in s.calls {
        return None;
      }
      t := TakeStep(codec, session, s, c, alt);
    case Wait =>
      if s.childAlive {
        return None;
      }
      session.ChildGone();
      var shared := session.Current();
      return Some(s.(shared := shared));
    case DrainStderr =>
      session.DiagnosticsDrained();
      var shared := session.Current();
      return Some(s.(shared := shared));
    case _ =>
      Untouched(codec, s, a);
      return Next(codec, s, a);
  }

  /** The other actions belong to the pipes, the worker and the callers' own fields. */
  lemma Untouched(codec: Codec, s: State, a: Action)
    requires !a.Step? && !a.Wait? && !a.DrainStderr?
    ensures Next(codec, s, a).Some? ==> Next(codec, s, a).value.shared == s.shared
  {
    hide GoFrame, Decoded;
  }

  lemma {:induction false} RunStops(codec: Codec, actions: seq<Action>, n: nat)
    requires n <= |actions| && Run(codec, START, actions[..n]).None?
    ensures Run(codec, START, actions).None?
    decreases |actions| - n
  {
    hide Next;
    if n < |actions| {
      assert actions[..n + 1][..n] == actions[..n];
      RunStops(codec, actions, n + 1);
    } else {
      assert actions[..n] == actions;
    }
  }

  /** A session object driven through a list of actions, from the start to the end or to the
      first action that cannot be taken. It ends in the shared state of the run, and whenever its
      token is free the object itself shows what the run guarantees: a poisoned session has
      nothing left of its child, and a free token is the only one. */
  method Drive(codec: Codec, actions: seq<Action>) returns (session: WorkerSession, t: Option<State>)
    ensures fresh(session) && t == Run(codec, START, actions)
    ensures t.Some? ==> session.Snapshot() == t.value.shared
    ensures t.Some? ==> session.tokens <= 1
    ensures t.Some? && session.tokens > 0 && session.state.Poisoned? ==>
              session.waitDone && session.outputClosed && session.stderrDone
  {
    hide Next, Run, SessionTheorems.Inv;
    session := Start();
    var s := START;
    RunNothing(codec, actions);
    for i := 0 to |actions|
      invariant fresh(session) && session.Snapshot() == s.shared && Run(codec, START, actions[..i]) == Some(s)
    {
      RunSnoc(codec, actions, i);
      var next := TakeAction(codec, session, s, actions[i]);
      if next.None? {
        RunStops(codec, actions, i + 1);
        return session, None;
      }
      s := next.value;
    }
    assert actions[..|actions|] == actions;
    t := Some(s);
    Promises(codec, actions, s);
  }

  lemma RunNothing(codec: Codec, actions: seq<Action>)
    ensures Run(codec, START, actions[..0]) == Some(START)
  {
  }

  lemma RunSnoc(codec: Codec, actions: seq<Action>, i: nat)
    requires i < |actions| && Run(codec, START, actions[..i]).Some?
    ensures Run(codec, START, actions[..i + 1]) == Next(codec, Run(codec, START, actions[..i]).value, actions[i])
  {
    hide Next;
    assert actions[..i + 1][..i] == actions[..i];
  }

  lemma Promises(codec: Codec, actions: seq<Action>, s: State)
    requires Run(codec, START, actions) == Some(s)
    ensures s.shared.tokens <= 1
    ensures s.shared.tokens > 0 && s.shared.state.Poisoned? ==> s.shared.waitDone && s.shared.outputClosed && s.shared.stderrDone
  {
    hide Run, SessionTheorems.Holders;
    SessionTheorems.MutualExclusion(codec, actions, s);
    if s.shared.tokens > 0 && s.shared.state.Poisoned? {
      SessionTheorems.FreeTokenReaped(codec, actions, s);
    }
  }

  lemma SendsNumbered(codec: Codec, s: Shared, exitClean: bool, k: Call, alt: bool)
    ensures k.pc.Encoding? && Advance(codec, s, exitClean, k, alt).Some? ==> k.id.Some?
  {
    hide EncodeFrame;
  }
}
