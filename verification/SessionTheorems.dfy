/** Whole-run results about the worker session, for every interleaving of callers and every
    behaviour of the worker process. */
module SessionTheorems {
  import opened Words
  import opened Floats
  import opened Framing
  import opened Protocol
  import opened Session
  import opened SessionSystem
  import opened SessionCalls
  import opened SessionHistory
  import opened SessionDelivery
  import opened SessionEndings
  import opened SessionLockstep
  import Aggregates
  import Contracts
  import Hex

  ghost predicate Inv(codec: Codec, s: State) {
    && CallsFit(s) && TokenInv(s) && PoisonInv(s) && LogInv(s) && DistinctIds(s)
    && ReceiptInv(s) && DeliveryInv(codec, s) && LockstepInv(s) && RejectInv(codec, s)
    && ExpectedInv(codec, s)
  }

  lemma InvStart(codec: Codec)
    ensures Inv(codec, START)
  {
  }

  lemma InvKept(codec: Codec, s: State, a: Action)
    requires Inv(codec, s) && Next(codec, s, a).Some?
    ensures Inv(codec, Next(codec, s, a).value)
  {
    hide Next, CallsFit, TokenInv, PoisonInv, LogInv, DistinctIds, ReceiptInv, DeliveryInv, LockstepInv, RejectInv, ExpectedInv;
    CallsKept(codec, s, a);
    TokenKept(codec, s, a);
    PoisonKept(codec, s, a);
    LogKept(codec, s, a);
    ReceiptsKept(codec, s, a);
    DeliveryKept(codec, s, a);
    LockstepKept(codec, s, a);
    RejectKept(codec, s, a);
    ExpectedKept(codec, s, a);
  }

  lemma {:induction false} RunInv(codec: Codec, s: State, actions: seq<Action>)
    requires Inv(codec, s) && Run(codec, s, actions).Some?
    ensures Inv(codec, Run(codec, s, actions).value)
  {
    hide Inv, Next;
    if actions != [] {
      var n := |actions| - 1;
      RunInv(codec, s, actions[..n]);
      InvKept(codec, Run(codec, s, actions[..n]).value, actions[n]);
    }
  }

  // -------------------------------------------------------- mutual exclusion

  ghost function Holders(s: State): set<nat> {
    set c | c in s.calls && Holds(s.calls[c].pc)
  }

  /** Token and holders always add up to one. */
  lemma MutualExclusion(codec: Codec, actions: seq<Action>, s: State)
    requires Run(codec, START, actions) == Some(s)
    ensures s.shared.tokens + |Holders(s)| == 1
    ensures forall c, d :: c in s.calls && d in s.calls && Live(s.calls[c].task) && Live(s.calls[d].task) ==> c == d
    ensures forall c :: c in s.calls && Live(s.calls[c].task) ==> Transacting(s.calls[c].pc) && Holders(s) == {c}
  {
    hide Run;
    InvStart(codec);
    RunInv(codec, START, actions);
    HoldersAre(s);
    forall c, d | c in s.calls && d in s.calls && Live(s.calls[c].task)
      ensures Transacting(s.calls[c].pc) && s.holder == Some(c) && (Live(s.calls[d].task) ==> d == c)
    {
      OneTransaction(s, c, d);
    }
  }

  lemma HoldersAre(s: State)
    requires TokenInv(s)
    ensures Holders(s) == if s.holder.Some? then {s.holder.value} else {}
  {
    hide Holds;
  }

  // ------------------------------------------------------ request identifiers

  /** Identifiers reach the worker in strictly increasing order, and no two calls share one. */
  lemma IdsNeverReused(codec: Codec, actions: seq<Action>, s: State)
    requires Run(codec, START, actions) == Some(s)
    ensures forall i, j :: 0 <= i < j < |s.log| ==> s.log[i].id < s.log[j].id && s.log[i].call != s.log[j].call
    ensures forall c, d :: c in s.calls && d in s.calls && c != d && s.calls[c].id.Some? ==> s.calls[c].id != s.calls[d].id
    ensures forall i :: 0 <= i < |s.log| ==> 1 <= s.log[i].id && (s.shared.sequence == 0 || s.log[i].id < s.shared.sequence)
  {
    hide Run, CallsFit;
    InvStart(codec);
    RunInv(codec, START, actions);
    forall i | 0 <= i < |s.log|
      ensures 1 <= s.log[i].id && (s.shared.sequence == 0 || s.log[i].id < s.shared.sequence)
    {
      LocalId(s, s.log[i].call);
    }
  }

  /** Facts that survive every step, whatever the worker and the callers do. */
  ghost predicate Later(s: State, t: State) {
    && (!s.shared.state.Open? ==> !t.shared.state.Open?)
    && (s.shared.waitDone ==> t.shared.waitDone)
    && (s.shared.sequence == 0 ==> t.shared.sequence == 0)
    && (forall c :: c in s.calls ==> c in t.calls && t.calls[c].kind == s.calls[c].kind
                                     && (s.calls[c].id.Some? ==> t.calls[c].id == s.calls[c].id))
    && (s.shared.sequence == 0 ==>
          forall c :: c in t.calls && (c !in s.calls || s.calls[c].id.None?) ==> t.calls[c].id.None?)
  }

  lemma LaterStep(codec: Codec, s: State, a: Action)
    requires Inv(codec, s) && Next(codec, s, a).Some?
    ensures Later(s, Next(codec, s, a).value)
  {
    hide Advance, StepTask, StepWorld, CallsFit, TokenInv, PoisonInv, LogInv, DistinctIds, ReceiptInv, DeliveryInv,
         LockstepInv, RejectInv, ExpectedInv;
    CallsKept(codec, s, a);
    match a
    case Step(c, alt) =>
      LocalId(s, c);
      AdvanceId(codec, s.shared, s.exitClean, s.calls[c], alt);
    case Invoke(_, _) =>
    case Cancel(_) =>
    case WriteChunk(_, _) => TaskStep(codec, s, a);
    case WriteFail(_) => TaskStep(codec, s, a);
    case ReadFrame(_) => TaskStep(codec, s, a);
    case ReadFail(_) => TaskStep(codec, s, a);
    case _ => WorldStep(s, a);
  }

  lemma LaterTransitive(s: State, t: State, u: State)
    requires Later(s, t) && Later(t, u)
    ensures Later(s, u)
  {
  }

  /** A session never reopens, a reaped child stays reaped, and once the counter is exhausted
      no call ever draws an identifier again. */
  lemma {:induction false} NothingComesBack(codec: Codec, s: State, actions: seq<Action>, t: State)
    requires Inv(codec, s) && Run(codec, s, actions) == Some(t)
    ensures Later(s, t)
  {
    hide Inv, Next, Later;
    if actions == [] {
      LaterSelf(s);
    } else {
      var n := |actions| - 1;
      var m := Run(codec, s, actions[..n]).value;
      NothingComesBack(codec, s, actions[..n], m);
      RunInv(codec, s, actions[..n]);
      LaterStep(codec, m, actions[n]);
      LaterTransitive(s, m, t);
    }
  }

  lemma LaterSelf(s: State)
    ensures Later(s, s)
  {
  }

  // ---------------------------------------------------------------- poisoning

  /** Whenever the token is free, a poisoned session's child has been reaped. */
  lemma FreeTokenReaped(codec: Codec, actions: seq<Action>, s: State)
    requires Run(codec, START, actions) == Some(s) && s.shared.tokens > 0 && s.shared.state.Poisoned?
    ensures Reaped(s.shared)
  {
    hide Run;
    InvStart(codec);
    RunInv(codec, START, actions);
  }

  lemma {:induction false} RunRefusals(codec: Codec, actions: seq<Action>)
    requires Run(codec, START, actions).Some?
    ensures RefusalInv(Run(codec, START, actions).value)
  {
    hide Next, CallsFit, TokenInv, PoisonInv, LogInv, DistinctIds, ReceiptInv, DeliveryInv, LockstepInv, RejectInv, ExpectedInv;
    if actions != [] {
      var n := |actions| - 1;
      RunRefusals(codec, actions[..n]);
      InvStart(codec);
      RunInv(codec, START, actions[..n]);
      RefusalKept(codec, Run(codec, START, actions[..n]).value, actions[n]);
    }
  }

  lemma {:induction false} RunEndings(codec: Codec, actions: seq<Action>)
    requires Run(codec, START, actions).Some?
    ensures EndingInv(codec, Run(codec, START, actions).value)
  {
    hide Next, CallsFit, TokenInv, PoisonInv, LogInv, DistinctIds, ReceiptInv, DeliveryInv, LockstepInv, RejectInv, ExpectedInv, EndingInv;
    if actions == [] {
      EndingStart(codec);
    } else {
      var n := |actions| - 1;
      RunEndings(codec, actions[..n]);
      InvStart(codec);
      RunInv(codec, START, actions[..n]);
      EndingKept(codec, Run(codec, START, actions[..n]).value, actions[n]);
    }
  }

  /** Nothing of the child is left, and the session takes no more requests. */
  predicate Over(s: Shared) {
    !s.state.Open? && Reaped(s)
  }

  /** What each way of returning tells the caller: how the child ended after a shutdown, what
      was done to it otherwise, which failure the session keeps, and whose fault it was. */
  lemma ReturnedCall(codec: Codec, actions: seq<Action>, s: State, c: nat)
    requires Run(codec, START, actions) == Some(s) && c in s.calls && s.calls[c].pc.Done?
    ensures !Live(s.calls[c].task)
    ensures var (k, t) := (s.calls[c], s.shared);
            match k.pc.outcome
            case Delivered(_) => k.kind.ExecuteCall?
            case RemoteReported(_) => k.kind.ExecuteCall?
            case ForceClosed => k.kind.CloseCall? && t.state.Closed? && Over(t) && t.inputClosed && t.killed && !s.childAlive
            case Acknowledged => k.kind.ShutdownCall? && t.state.Closed? && Over(t) && t.inputClosed && !s.childAlive && s.exitClean
            case Refused(ExitFailed) => k.kind.ShutdownCall? && t.state.Closed? && Over(t) && t.inputClosed && !s.childAlive && !s.exitClean
            case Refused(ContextEnded) =>
              k.cancelled && (k.task.NoTask? || (Over(t) && t.inputClosed && t.killed && Blamed(t, ContextEnded)))
            case Refused(IdsExhausted) => t.sequence == 0
            case Refused(EncodeRejected(e)) => k.id.Some? && EncodeFrame(codec, k.kind, k.id.value) == Err(e)
            case Refused(SessionClosed) => t.state.Closed?
            case Refused(SessionPoisoned) => Over(t) && t.cause.Some?
            case Refused(ExitedBeforeRequest) => false
            case Refused(why) => Over(t) && t.inputClosed && t.killed && Blamed(t, why)
  {
    hide Run, TokenInv, PoisonInv, LogInv, DistinctIds, ReceiptInv, DeliveryInv, LockstepInv, RejectInv, ExpectedInv, Explained,
         TaskFits, IdFits, KindFits, EncodeFrame;
    InvStart(codec);
    RunInv(codec, START, actions);
    RunRefusals(codec, actions);
    RunEndings(codec, actions);
    CallFits(s, c);
    DoneLocal(s.shared, s.calls[c]);
    StandAt(codec, s, c);
  }

  lemma DoneLocal(s: Shared, k: Call)
    requires Local(s, k) && k.pc.Done?
    ensures !Live(k.task) && OutcomeFits(s, k.task, k.pc.outcome)
  {
  }

  /** A poisoned session keeps the first failure for good: the child had exited before a
      request, or one call's own request failed that way and that call says so. */
  lemma PoisonExplained(codec: Codec, actions: seq<Action>, s: State)
    requires Run(codec, START, actions) == Some(s)
    ensures s.shared.state.Open? ==> s.shared.cause.None?
    ensures s.shared.state.Poisoned? ==> s.shared.cause.Some?
    ensures s.shared.cause.Some? ==>
              || (s.shared.cause == Some(ExitedBeforeRequest) && s.shared.waitDone && !s.childAlive)
              || exists c :: c in s.calls && Culprit(s.calls[c], s.shared.cause.value)
    ensures s.shared.cause.Some? && s.shared.tokens > 0 && s.shared.cause != Some(ExitedBeforeRequest) ==>
              exists c :: c in s.calls && s.calls[c].pc == Done(Refused(s.shared.cause.value))
  {
    hide Run, Culprit, AllStand, CallsFit, PoisonInv, LogInv, DistinctIds, ReceiptInv, DeliveryInv, LockstepInv, RejectInv, ExpectedInv;
    InvStart(codec);
    RunInv(codec, START, actions);
    RunEndings(codec, actions);
    if s.shared.cause.Some? && s.shared.tokens > 0 && s.shared.cause != Some(ExitedBeforeRequest) {
      var c :| c in s.calls && Culprit(s.calls[c], s.shared.cause.value);
      CulpritDone(codec, s, c);
    }
  }

  /** A culprit that has given its token back has returned its failure. */
  lemma CulpritDone(codec: Codec, s: State, c: nat)
    requires CallsFit(s) && TokenInv(s) && s.shared.tokens > 0 && c in s.calls
    requires s.shared.cause.Some? && Culprit(s.calls[c], s.shared.cause.value)
    ensures s.calls[c].pc == Done(Refused(s.shared.cause.value))
  {
    CallFits(s, c);
  }

  /** Giving the token back never blocks: in every reachable state a call that is leaving can
      take its last step, whatever else is going on. */
  lemma ReleaseNeverBlocks(codec: Codec, actions: seq<Action>, s: State, c: nat, alt: bool)
    requires Run(codec, START, actions) == Some(s) && c in s.calls && s.calls[c].pc.Leaving?
    ensures Next(codec, s, Step(c, alt)).Some?
    ensures var t := Next(codec, s, Step(c, alt)).value; t.calls[c].pc == Done(s.calls[c].pc.outcome) && t.shared.tokens == 1
  {
    hide Run, CallsFit, PoisonInv, LogInv, DistinctIds, ReceiptInv, DeliveryInv, LockstepInv, RejectInv, ExpectedInv;
    InvStart(codec);
    RunInv(codec, START, actions);
  }

  /** A call whose context has ended while it waits for the token, or before, can return on its
      own: no other call and no worker can keep it, and it touches nothing shared. A call that
      comes with an ended context has no other step. */
  lemma CancelledReturnsAtOnce(codec: Codec, s: State, c: nat, alt: bool)
    requires c in s.calls && s.calls[c].cancelled
    requires s.calls[c].pc.Enter? || (s.calls[c].pc.Waiting? && alt)
    ensures var t := Next(codec, s, Step(c, alt));
            t.Some? && t.value.calls[c].pc == Done(Refused(ContextEnded)) && t.value.shared == s.shared
  {
    hide EncodeFrame;
  }

  /** The session is shut, or its child is known to be gone, and no call is past the check. */
  ghost predicate Sealed(s: State) {
    (!s.shared.state.Open? || s.shared.waitDone) && forall c :: c in s.calls ==> !Sending(s.calls[c]) && !Live(s.calls[c].task)
  }

  lemma SealedStep(codec: Codec, s: State, a: Action)
    requires CallsFit(s) && Sealed(s) && Next(codec, s, a).Some?
    ensures var t := Next(codec, s, a).value;
            Sealed(t) && t.stdin == s.stdin && t.log == s.log && t.received == s.received
  {
    hide Advance, StepTask, StepWorld, CallsFit, Local;
    CallsKept(codec, s, a);
    match a
    case Step(c, alt) =>
      CallFits(s, c);
      AdvanceBalance(codec, s.shared, s.exitClean, s.calls[c], alt);
    case Invoke(_, _) =>
    case Cancel(_) =>
    case WriteChunk(_, _) => TaskStep(codec, s, a);
    case WriteFail(_) => TaskStep(codec, s, a);
    case ReadFrame(_) => TaskStep(codec, s, a);
    case ReadFail(_) => TaskStep(codec, s, a);
    case _ => WorldStep(s, a);
  }

  lemma {:induction false} SealedRun(codec: Codec, s: State, actions: seq<Action>, t: State)
    requires Inv(codec, s) && Sealed(s) && Run(codec, s, actions) == Some(t)
    ensures Sealed(t) && t.stdin == s.stdin && t.log == s.log && t.received == s.received
  {
    hide Next, Sealed, CallsFit, TokenInv, PoisonInv, LogInv, DistinctIds, ReceiptInv, DeliveryInv, LockstepInv, RejectInv, ExpectedInv;
    if actions != [] {
      var n := |actions| - 1;
      var m := Run(codec, s, actions[..n]).value;
      SealedRun(codec, s, actions[..n], m);
      RunInv(codec, s, actions[..n]);
      SealedStep(codec, m, actions[n]);
    }
  }

  /** Once the token is free and the session is closed or poisoned, or its child has been waited
      for, nothing is ever written to the worker, or read from it, again. */
  lemma NothingWrittenAfterwards(codec: Codec, before: seq<Action>, s: State, after: seq<Action>, t: State)
    requires Run(codec, START, before) == Some(s) && s.shared.tokens > 0
    requires !s.shared.state.Open? || s.shared.waitDone
    requires Run(codec, s, after) == Some(t)
    ensures t.stdin == s.stdin && t.log == s.log && t.received == s.received && Sealed(t)
  {
    hide Run;
    InvStart(codec);
    RunInv(codec, START, before);
    FreeIsSealed(s);
    SealedRun(codec, s, after, t);
  }

  lemma FreeIsSealed(s: State)
    requires CallsFit(s) && TokenInv(s) && s.shared.tokens > 0 && (!s.shared.state.Open? || s.shared.waitDone)
    ensures Sealed(s)
  {
    forall c | c in s.calls
      ensures !Sending(s.calls[c]) && !Live(s.calls[c].task)
    {
      CallFits(s, c);
    }
  }

  // ------------------------------------------------------------------ delivery

  /** Every result a caller gets was read from the worker in one complete line for that very
      call: the line carries the call's own request identifier, workload name and backend,
      its counters are consistent, and its bytes answer no other call. */
  lemma DeliveredResult(codec: Codec, actions: seq<Action>, s: State, c: nat, result: Contracts.ResultV1)
    requires Run(codec, START, actions) == Some(s) && c in s.calls && s.calls[c].pc == Done(Delivered(result))
    ensures s.calls[c].kind.ExecuteCall?
    ensures s.calls[c].receipt.Some? && s.calls[c].receipt.value < |s.received| && s.calls[c].id.Some?
    ensures var r := s.received[s.calls[c].receipt.value];
            && r.call == c && Framed(s.stdout, r) && codec.decodeResponse(r.payload).Some?
            && AnswersTo(codec, codec.decodeResponse(r.payload).value, s.calls[c].kind.workload, s.calls[c].id.value, result)
    ensures forall d :: d in s.calls && d != c && s.calls[d].receipt.Some? && Holding(s.calls[d]).Some? ==>
              s.calls[d].receipt != s.calls[c].receipt
    ensures forall i, j :: 0 <= i < j < |s.received| ==> s.received[i].to <= s.received[j].from
  {
    hide Run, CallsFit, TokenInv, PoisonInv, LogInv, LockstepInv, RejectInv, ExpectedInv, DistinctIds, Decoded, Framed, AnswersTo, Holding,
         PcFits, IdFits, KindFits;
    InvStart(codec);
    RunInv(codec, START, actions);
    var k := s.calls[c];
    JustifiedAt(codec, s, c);
    CallFits(s, c);
    DoneHolds(k);
    var r := s.received[k.receipt.value];
    DecodedResult(codec, r.kind, r.id, r.payload, result);
    forall d | d in s.calls && d != c && s.calls[d].receipt.Some? && Holding(s.calls[d]).Some?
      ensures s.calls[d].receipt != k.receipt
    {
      JustifiedAt(codec, s, d);
    }
    forall i, j | 0 <= i < j < |s.received|
      ensures s.received[i].to <= s.received[j].from
    {
      ReceiptsOrdered(s, i, j);
    }
  }

  lemma DoneHolds(k: Call)
    requires TaskFits(k) && k.pc.Done?
    ensures Holding(k) == FromOutcome(k.pc.outcome)
  {
  }

  /** The response envelope is this request's own answer. */
  ghost predicate AnswersTo(codec: Codec, e: Envelope, workload: RawJson, id: U64, result: Contracts.ResultV1) {
    && e.requestId == Hex.FormatRequestId(id) && codec.project(workload).Some?
    && var p := codec.project(workload).value;
       && e.workloadName == Some(p.name) && e.execution == Present(BACKEND_SCALAR)
       && result.acceptedCount <= p.recordCount && |result.histogram| == p.categoryCount
       && Aggregates.Total(result.histogram) == result.acceptedCount
       && !Val64(result.scoreSum).NaN? && !Val64(result.scoreSum).NegInf?
  }

  lemma DecodedResult(codec: Codec, kind: Kind, id: U64, payload: seq<Byte>, result: Contracts.ResultV1)
    requires Decoded(codec, kind, id, payload) == Ok(Completed(result))
    ensures kind.ExecuteCall? && codec.decodeResponse(payload).Some?
    ensures AnswersTo(codec, codec.decodeResponse(payload).value, kind.workload, id, result)
  {
    hide DecodeResponse, Val64;
    AcceptedFrame(codec, payload, Hex.FormatRequestId(id), Expect(codec, kind));
  }

  lemma {:induction false} ReceiptsOrdered(s: State, i: nat, j: nat)
    requires ReceiptInv(s) && i < j < |s.received|
    ensures s.received[i].to <= s.received[j].from
  {
    hide OneLine, StripCr;
    if i + 1 < j {
      ReceiptsOrdered(s, i, j - 1);
      assert Framed(s.stdout, s.received[j - 1]);
    }
  }

  /** A frame that does not decode, or that carries another request's identifier, is refused by
      the request that reads it, and by the time the token is free again the session is no
      longer open. */
  lemma ForeignFramePoisons(codec: Codec, actions: seq<Action>, s: State, i: nat)
    requires Run(codec, START, actions) == Some(s) && i < |s.received|
    requires var e := codec.decodeResponse(s.received[i].payload);
             e.None? || e.value.requestId != Hex.FormatRequestId(s.received[i].id)
    ensures Refuses(codec, s.received[i])
    ensures s.shared.tokens > 0 ==> !s.shared.state.Open?
    ensures forall c :: c in s.calls && Holding(s.calls[c]).Some? ==> s.calls[c].receipt != Some(i)
  {
    hide Run, CallsFit, LogInv, LockstepInv, DistinctIds, DecodeResponse, Holding;
    InvStart(codec);
    RunInv(codec, START, actions);
    var r := s.received[i];
    if DecodeResponse(codec, r.payload, Hex.FormatRequestId(r.id), Expect(codec, r.kind)).Ok? {
      AcceptedFrame(codec, r.payload, Hex.FormatRequestId(r.id), Expect(codec, r.kind));
      assert false;
    }
    forall c | c in s.calls && Holding(s.calls[c]).Some?
      ensures s.calls[c].receipt != Some(i)
    {
      JustifiedAt(codec, s, c);
    }
  }

  /** As long as the session is open and idle, every request sent has had exactly one frame
      read for it, in order. */
  lemma OneResponsePerRequest(codec: Codec, actions: seq<Action>, s: State)
    requires Run(codec, START, actions) == Some(s)
    ensures |s.received| <= |s.log|
    ensures forall i :: 0 <= i < |s.received| ==> s.received[i].call == s.log[i].call && s.received[i].id == s.log[i].id
    ensures s.shared.state.Open? && s.shared.tokens > 0 ==> |s.received| == |s.log|
  {
    hide Run, CallsFit, LogInv, RejectInv, ExpectedInv, DistinctIds, Unsettled, BalanceOf;
    InvStart(codec);
    RunInv(codec, START, actions);
  }

  /** Exactly when a waiting read can complete, whatever the worker has written: once the unread
      output holds a whole line, or more than 4 MiB without one. Only an oversized line fails
      the transport; any other is decoded for this very request. */
  lemma ReadCompletes(codec: Codec, actions: seq<Action>, s: State, c: nat)
    requires Run(codec, START, actions) == Some(s) && c in s.calls && s.calls[c].task.Reading?
    ensures s.consumed <= |s.stdout| && s.calls[c].id.Some?
    ensures var (k, data, t) := (s.calls[c], s.stdout[s.consumed..], Next(codec, s, ReadFrame(c)));
            var payload := StripCr(data[..LineEnd(data)]);
            && (t.Some? <==> LF in data || |payload| > 4_194_304)
            && (t.Some? ==>
                  && t.value.shared == s.shared
                  && t.value.calls[c].task == Finished(if |payload| > 4_194_304 then Err(TransportFailed)
                                                       else Decoded(codec, k.kind, k.id.value, payload)))
  {
    hide Run, TokenInv, PoisonInv, LogInv, DistinctIds, DeliveryInv, LockstepInv, RejectInv, ExpectedInv, CallsFit, Decoded, LineEnd, StripCr;
    InvStart(codec);
    RunInv(codec, START, actions);
    LocalId(s, c);
    LineFound(s.stdout[s.consumed..]);
  }

  lemma LineFound(data: seq<Byte>)
    ensures LF in data <==> HasNewline(data)
  {
    assert data[..|data|] == data;
  }

  /** No accepted frame ever has a kind its request cannot have: the two checks for an
      unexpected response kind are unreachable, whatever the worker sends. */
  lemma KindsNeverSurprise(codec: Codec, actions: seq<Action>, s: State, c: nat)
    requires Run(codec, START, actions) == Some(s) && c in s.calls
    ensures s.calls[c].pc != Failing(UnexpectedKind) && s.calls[c].pc != Done(Refused(UnexpectedKind))
    ensures s.calls[c].pc.Answered? ==> (s.calls[c].pc.response.ShutdownAck? <==> s.calls[c].kind.ShutdownCall?)
  {
    hide Run, TokenInv, PoisonInv, LogInv, DistinctIds, ReceiptInv, LockstepInv, RejectInv, Justified, IdFits, PcFits;
    InvStart(codec);
    RunInv(codec, START, actions);
    CallFits(s, c);
    ExpectedAt(codec, s, c);
    if s.calls[c].pc.Answered? {
      JustifiedAt(codec, s, c);
      AnswerKind(codec, s.received, c, s.calls[c]);
    }
  }

  // -------------------------------------------------------------- cancellation

  /** The call's context ended before it was let past the second context check. */
  predicate Withdrawn(k: Call) {
    && k.cancelled && k.id.None? && k.task.NoTask?
    && (k.pc.Enter? || k.pc.Waiting? || k.pc.Granted?
        || k.pc == Leaving(Refused(ContextEnded)) || k.pc == Done(Refused(ContextEnded)))
  }

  lemma WithdrawnAdvance(codec: Codec, s: Shared, exitClean: bool, k: Call, alt: bool)
    requires Withdrawn(k) && Advance(codec, s, exitClean, k, alt).Some?
    ensures Withdrawn(Advance(codec, s, exitClean, k, alt).value.1)
  {
    hide EncodeFrame;
  }

  lemma WithdrawnStep(codec: Codec, s: State, a: Action, c: nat)
    requires c in s.calls && Withdrawn(s.calls[c]) && Next(codec, s, a).Some?
    ensures c in Next(codec, s, a).value.calls && Withdrawn(Next(codec, s, a).value.calls[c])
  {
    hide Advance, StepTask, StepWorld;
    match a
    case Step(d, alt) =>
      if d == c {
        WithdrawnAdvance(codec, s.shared, s.exitClean, s.calls[c], alt);
      }
    case Invoke(_, _) =>
    case Cancel(_) =>
    case WriteChunk(_, _) => TaskStep(codec, s, a);
    case WriteFail(_) => TaskStep(codec, s, a);
    case ReadFrame(_) => TaskStep(codec, s, a);
    case ReadFail(_) => TaskStep(codec, s, a);
    case _ => WorldStep(s, a);
  }

  lemma {:induction false} WithdrawnRun(codec: Codec, s: State, actions: seq<Action>, t: State, c: nat)
    requires c in s.calls && Withdrawn(s.calls[c]) && Run(codec, s, actions) == Some(t)
    ensures c in t.calls && Withdrawn(t.calls[c])
  {
    hide Next, Withdrawn;
    if actions != [] {
      var n := |actions| - 1;
      var m := Run(codec, s, actions[..n]).value;
      WithdrawnRun(codec, s, actions[..n], m, c);
      WithdrawnStep(codec, m, actions[n], c);
    }
  }

  /** A call whose context ends before it passes the second check never draws an identifier
      and never sends a request, and if it returns it reports the ended context. */
  lemma CancelledNeverSends(codec: Codec, before: seq<Action>, s: State, after: seq<Action>, t: State, c: nat)
    requires Run(codec, START, before) == Some(s) && Run(codec, s, after) == Some(t)
    requires c in s.calls && s.calls[c].cancelled && (s.calls[c].pc.Enter? || s.calls[c].pc.Waiting? || s.calls[c].pc.Granted?)
    ensures c in t.calls && t.calls[c].id.None?
    ensures forall i :: 0 <= i < |t.log| ==> t.log[i].call != c
    ensures t.calls[c].pc.Done? ==> t.calls[c].pc.outcome == Refused(ContextEnded)
  {
    hide Run, CallsFit, TokenInv, PoisonInv, DistinctIds, ReceiptInv, DeliveryInv, LockstepInv, RejectInv, ExpectedInv;
    InvStart(codec);
    RunInv(codec, START, before);
    LocalId(s, c);
    WithdrawnRun(codec, s, after, t, c);
    RunInv(codec, s, after);
    forall i | 0 <= i < |t.log|
      ensures t.log[i].call != c
    {
      assert Recorded(t.calls, t.log[i]);
    }
  }
}
