/** Which response frame answers which request, whatever the worker writes. */
module SessionDelivery {
  import opened Words
  import opened Framing
  import opened Protocol
  import opened Session
  import opened SessionSystem
  import opened SessionCalls
  import opened SessionHistory
  import Hex

  /** The response a call has taken from its transaction and still stands by. */
  function Holding(k: Call): Option<Response> {
    if k.task.Finished? then (if k.task.result.Ok? then Some(k.task.result.value) else None)
    else match k.pc
         case Answered(r) => Some(r)
         case Acked => Some(ShutdownAck)
         case ClosingInput => Some(ShutdownAck)
         case AwaitingExit => Some(ShutdownAck)
         case ExitSeen => Some(ShutdownAck)
         case Leaving(o) => FromOutcome(o)
         case Done(o) => FromOutcome(o)
         case _ => None
  }

  function FromOutcome(o: Outcome): Option<Response> {
    match o
    case Delivered(result) => Some(Completed(result))
    case RemoteReported(error) => Some(RemoteFailure(error))
    case Acknowledged => Some(ShutdownAck)
    case _ => None
  }

  /** A receipt names one complete line of the worker's output. */
  ghost predicate Framed(stdout: seq<Byte>, r: Receipt) {
    && r.from < r.to <= |stdout| && stdout[r.to - 1] == LF
    && OneLine(stdout[r.from..r.to - 1]) && r.payload == StripCr(stdout[r.from..r.to - 1])
    && |r.payload| <= MAX_FRAME_BYTES
  }

  /** Receipts cut the consumed output into consecutive lines, so no byte answers twice. */
  ghost predicate ReceiptInv(s: State) {
    && s.consumed <= |s.stdout|
    && (forall i :: 0 <= i < |s.received| ==> Framed(s.stdout, s.received[i]))
    && (forall i :: 0 < i < |s.received| ==> s.received[i].from == s.received[i - 1].to)
    && s.consumed == (if s.received == [] then 0 else s.received[|s.received| - 1].to)
    && (s.received != [] ==> s.received[0].from == 0)
  }

  /** The frame a call stands by was read for that very call and decoded to that response. */
  ghost predicate Justified(codec: Codec, received: seq<Receipt>, c: nat, k: Call) {
    Holding(k).Some? ==>
      && k.receipt.Some? && k.receipt.value < |received| && k.id.Some?
      && var r := received[k.receipt.value];
         && r.call == c && k.id == Some(r.id) && r.kind == k.kind
         && Decoded(codec, r.kind, r.id, r.payload) == Ok(Holding(k).value)
  }

  ghost predicate DeliveryInv(codec: Codec, s: State) {
    forall c :: c in s.calls ==> Justified(codec, s.received, c, s.calls[c])
  }

  /** A step never invents a response: it stands by the old one or by none. */
  ghost predicate HoldingMoves(k: Call, next: Call) {
    && next.kind == k.kind && next.receipt == k.receipt
    && (Holding(next).Some? ==> Holding(next) == Holding(k) && next.id == k.id)
  }

  lemma AdvanceHolding(codec: Codec, s: Shared, exitClean: bool, k: Call, alt: bool)
    requires TaskFits(k) && KindFits(k) && Advance(codec, s, exitClean, k, alt).Some?
    ensures HoldingMoves(k, Advance(codec, s, exitClean, k, alt).value.1)
  {
    if k.pc.Reaping? {
      ReapHolding(s, k);
    } else if k.pc.Awaiting? || k.pc.Interrupted? || k.pc.Failing? || k.pc.Draining? {
      TransactHolding(s, k, alt);
    } else if k.pc.Checking? || k.pc.Numbering? || k.pc.Encoding? {
      PrepareHolding(codec, s, k);
    } else if !k.pc.Enter? && !k.pc.Waiting? && !k.pc.Granted? {
      ConcludeHolding(s, exitClean, k, alt);
    } else {
      AcquireHolding(s, k, alt);
    }
    hide HoldingMoves, Acquire, Prepare, Transact, Reap, Conclude, TaskFits, KindFits;
  }

  lemma AcquireHolding(s: Shared, k: Call, alt: bool)
    requires TaskFits(k)
    ensures Acquire(s, k, alt).Some? ==> HoldingMoves(k, Acquire(s, k, alt).value.1)
  {
  }

  lemma PrepareHolding(codec: Codec, s: Shared, k: Call)
    requires TaskFits(k)
    ensures Prepare(codec, s, k).Some? ==> HoldingMoves(k, Prepare(codec, s, k).value.1)
  {
    hide EncodeFrame;
  }

  lemma TransactHolding(s: Shared, k: Call, alt: bool)
    requires TaskFits(k)
    ensures Transact(s, k, alt).Some? ==> HoldingMoves(k, Transact(s, k, alt).value.1)
  {
  }

  lemma ReapHolding(s: Shared, k: Call)
    requires TaskFits(k) && KindFits(k)
    ensures Reap(s, k).Some? ==> HoldingMoves(k, Reap(s, k).value.1)
  {
  }

  lemma ConcludeHolding(s: Shared, exitClean: bool, k: Call, alt: bool)
    requires TaskFits(k)
    requires !k.pc.Reaping? && !k.pc.Awaiting? && !k.pc.Interrupted? && !k.pc.Draining?
    ensures Conclude(s, exitClean, k, alt).Some? ==> HoldingMoves(k, Conclude(s, exitClean, k, alt).value.1)
  {
  }

  // ------------------------------------------------------------- reading a frame

  /** What one successful read adds. */
  lemma NewReceipt(s: State, data: seq<Byte>, payload: seq<Byte>, r: Receipt)
    requires s.consumed <= |s.stdout| && data == s.stdout[s.consumed..]
    requires GoFrame(MAX_FRAME_BYTES, data, Eof) == Payload(payload)
    requires r.from == s.consumed && r.to == s.consumed + LineEnd(data) + 1 && r.payload == payload
    ensures Framed(s.stdout, r)
  {
    var n := LineEnd(data);
    assert s.stdout[r.from..r.to - 1] == data[..n];
    assert s.stdout[r.to - 1] == data[n];
  }

  lemma FramedExtends(stdout: seq<Byte>, more: seq<Byte>, r: Receipt)
    requires Framed(stdout, r) && stdout <= more
    ensures Framed(more, r)
  {
    assert more[r.from..r.to - 1] == stdout[r.from..r.to - 1];
  }

  lemma ReceiptsExtend(s: State, t: State)
    requires ReceiptInv(s) && s.stdout <= t.stdout && t.received == s.received && t.consumed == s.consumed
    ensures ReceiptInv(t)
  {
    hide Framed;
    forall i | 0 <= i < |t.received|
      ensures Framed(t.stdout, t.received[i])
    {
      FramedExtends(s.stdout, t.stdout, s.received[i]);
    }
  }

  lemma ReceiptsAppend(s: State, t: State, r: Receipt)
    requires ReceiptInv(s) && t.stdout == s.stdout && t.received == s.received + [r] && Framed(s.stdout, r)
    requires r.from == s.consumed && t.consumed == r.to
    ensures ReceiptInv(t)
  {
    hide OneLine, StripCr;
  }

  /** The two ways a reading goroutine ends, as far as receipts are concerned. */
  lemma ReadStep(codec: Codec, s: State, c: nat)
    requires c in s.calls && ReceiptInv(s) && StepTask(codec, s, ReadFrame(c)).Some?
    ensures ReceiptInv(StepTask(codec, s, ReadFrame(c)).value)
    ensures var t, k := StepTask(codec, s, ReadFrame(c)).value, s.calls[c];
            || (t.received == s.received && t.calls == s.calls[c := k.(task := Finished(Err(TransportFailed)))])
            || (&& k.id.Some? && |t.received| == |s.received| + 1 && t.received[..|s.received|] == s.received
                && var r := t.received[|s.received|];
                   && r.call == c && r.id == k.id.value && r.kind == k.kind
                   && t.calls == s.calls[c := k.(task := Finished(Decoded(codec, r.kind, r.id, r.payload)), receipt := Some(|s.received|))])
  {
    hide GoFrame, LineEnd, Framed, Decoded;
    var t := StepTask(codec, s, ReadFrame(c)).value;
    var data := s.stdout[s.consumed..];
    if GoFrame(MAX_FRAME_BYTES, data, Eof).Payload? {
      var r := t.received[|s.received|];
      NewReceipt(s, data, r.payload, r);
      ReceiptsAppend(s, t, r);
    } else {
      ReceiptsExtend(s, t);
    }
  }

  lemma ReceiptsKept(codec: Codec, s: State, a: Action)
    requires ReceiptInv(s) && Next(codec, s, a).Some?
    ensures ReceiptInv(Next(codec, s, a).value)
  {
    hide ReceiptInv, Advance, StepWorld, GoFrame, Decoded;
    var t := Next(codec, s, a).value;
    match a
    case ReadFrame(c) => ReadStep(codec, s, c);
    case Emit(_) =>
      WorldStep(s, a);
      ReceiptsExtend(s, t);
    case Exit(_) =>
      WorldStep(s, a);
      ReceiptsExtend(s, t);
    case Wait =>
      WorldStep(s, a);
      ReceiptsExtend(s, t);
    case DrainStderr =>
      WorldStep(s, a);
      ReceiptsExtend(s, t);
    case _ => ReceiptsExtend(s, t);
  }

  // ---------------------------------------------------------------- delivery

  lemma JustifiedGrows(codec: Codec, received: seq<Receipt>, more: seq<Receipt>, c: nat, k: Call)
    requires Justified(codec, received, c, k) && received <= more
    ensures Justified(codec, more, c, k)
  {
    hide Decoded, Holding;
  }

  lemma DeliveryUpdate(codec: Codec, s: State, t: State, c: nat, k: Call)
    requires DeliveryInv(codec, s) && t.calls == s.calls[c := k] && s.received <= t.received
    requires Justified(codec, t.received, c, k)
    ensures DeliveryInv(codec, t)
  {
    hide Justified;
    forall d | d in t.calls
      ensures Justified(codec, t.received, d, t.calls[d])
    {
      if d != c {
        JustifiedGrows(codec, s.received, t.received, d, s.calls[d]);
      }
    }
  }

  lemma DeliveryTask(codec: Codec, s: State, a: Action)
    requires (a.WriteChunk? || a.WriteFail? || a.ReadFrame? || a.ReadFail?) && a.c in s.calls
    requires CallsFit(s) && ReceiptInv(s) && DeliveryInv(codec, s) && StepTask(codec, s, a).Some?
    ensures DeliveryInv(codec, StepTask(codec, s, a).value)
  {
    hide ReceiptInv, GoFrame, DeliveryInv, Decoded, Local;
    var t := StepTask(codec, s, a).value;
    CallFits(s, a.c);
    LocalTask(s.shared, s.calls[a.c]);
    if a.ReadFrame? {
      ReadStep(codec, s, a.c);
    }
    assert Justified(codec, t.received, a.c, t.calls[a.c]);
    DeliveryUpdate(codec, s, t, a.c, t.calls[a.c]);
  }

  lemma LocalTask(s: Shared, k: Call)
    requires Local(s, k)
    ensures TaskFits(k) && KindFits(k)
  {
  }

  lemma DeliveryKept(codec: Codec, s: State, a: Action)
    requires CallsFit(s) && ReceiptInv(s) && DeliveryInv(codec, s) && Next(codec, s, a).Some?
    ensures DeliveryInv(codec, Next(codec, s, a).value)
  {
    hide ReceiptInv, Advance, StepTask, StepWorld, DeliveryInv, CallsFit, Justified, Holding;
    var t := Next(codec, s, a).value;
    match a
    case Invoke(c, kind) =>
      BeginHolds(kind);
      JustifiedNothing(codec, t.received, c, Begin(kind));
      DeliveryUpdate(codec, s, t, c, Begin(kind));
    case Cancel(c) =>
      JustifiedAt(codec, s, c);
      JustifiedCancel(codec, s.received, c, s.calls[c]);
      DeliveryUpdate(codec, s, t, c, s.calls[c].(cancelled := true));
    case Step(c, alt) =>
      DeliveryStep(codec, s, c, alt);
    case WriteChunk(c, _) => DeliveryTask(codec, s, a);
    case WriteFail(c) => DeliveryTask(codec, s, a);
    case ReadFrame(c) => DeliveryTask(codec, s, a);
    case ReadFail(c) => DeliveryTask(codec, s, a);
    case _ =>
      WorldStep(s, a);
      DeliverySame(codec, s, t);
  }

  lemma DeliveryStep(codec: Codec, s: State, c: nat, alt: bool)
    requires CallsFit(s) && DeliveryInv(codec, s) && c in s.calls && StepCall(codec, s, c, alt).Some?
    ensures DeliveryInv(codec, StepCall(codec, s, c, alt).value)
  {
    hide Advance, DeliveryInv, CallsFit, Local, Justified;
    var k, t := s.calls[c], StepCall(codec, s, c, alt).value;
    CallFits(s, c);
    LocalTask(s.shared, k);
    JustifiedAt(codec, s, c);
    AdvanceHolding(codec, s.shared, s.exitClean, k, alt);
    JustifiedMoves(codec, s.received, c, k, t.calls[c]);
    DeliveryUpdate(codec, s, t, c, t.calls[c]);
  }

  lemma BeginHolds(kind: Kind)
    ensures Holding(Begin(kind)).None?
  {
  }

  lemma JustifiedNothing(codec: Codec, received: seq<Receipt>, c: nat, k: Call)
    requires Holding(k).None?
    ensures Justified(codec, received, c, k)
  {
  }

  lemma JustifiedCancel(codec: Codec, received: seq<Receipt>, c: nat, k: Call)
    requires Justified(codec, received, c, k)
    ensures Justified(codec, received, c, k.(cancelled := true))
  {
  }

  lemma JustifiedMoves(codec: Codec, received: seq<Receipt>, c: nat, k: Call, next: Call)
    requires Justified(codec, received, c, k) && HoldingMoves(k, next)
    ensures Justified(codec, received, c, next)
  {
    hide Holding;
  }

  lemma JustifiedAt(codec: Codec, s: State, c: nat)
    requires DeliveryInv(codec, s) && c in s.calls
    ensures Justified(codec, s.received, c, s.calls[c])
  {
  }

  lemma DeliverySame(codec: Codec, s: State, t: State)
    requires DeliveryInv(codec, s) && t.calls == s.calls && t.received == s.received
    ensures DeliveryInv(codec, t)
  {
  }

  // ---------------------------------------------------------- unexpected kinds

  /** A call with a transaction really encoded its request, and never meets a response of a
      kind its request cannot have. */
  predicate KindExpected(codec: Codec, k: Call) {
    && (!k.task.NoTask? && k.kind.ExecuteCall? ==> codec.project(k.kind.workload).Some?)
    && (k.pc.Failing? ==> !k.pc.why.UnexpectedKind?)
    && (k.pc.Reaping? && k.pc.next.ThenLeave? ==> k.pc.next.outcome != Refused(UnexpectedKind))
    && (k.pc.Leaving? || k.pc.Done? ==> k.pc.outcome != Refused(UnexpectedKind))
    && (k.task.Finished? ==> k.task.result != Err(UnexpectedKind))
  }

  ghost predicate ExpectedInv(codec: Codec, s: State) {
    forall c :: c in s.calls ==> KindExpected(codec, s.calls[c])
  }

  lemma AnswerKind(codec: Codec, received: seq<Receipt>, c: nat, k: Call)
    requires Justified(codec, received, c, k) && KindExpected(codec, k) && k.pc.Answered? && !k.kind.CloseCall? && !k.task.NoTask?
    requires !k.task.Finished?
    ensures k.pc.response.ShutdownAck? <==> k.kind.ShutdownCall?
  {
    hide DecodeResponse;
    var r := received[k.receipt.value];
    AcceptedFrame(codec, r.payload, Hex.FormatRequestId(r.id), Expect(codec, r.kind));
  }

  lemma AdvanceExpected(codec: Codec, s: Shared, exitClean: bool, k: Call, alt: bool)
    requires KindExpected(codec, k) && Advance(codec, s, exitClean, k, alt).Some?
    requires k.pc.Answered? ==> (k.pc.response.ShutdownAck? <==> k.kind.ShutdownCall?) && !k.kind.CloseCall?
    ensures KindExpected(codec, Advance(codec, s, exitClean, k, alt).value.1)
  {
    if k.pc.Reaping? {
      ReapExpected(codec, s, k);
    } else if k.pc.Awaiting? || k.pc.Interrupted? || k.pc.Failing? || k.pc.Draining? {
      TransactExpected(codec, s, k, alt);
    } else if k.pc.Checking? || k.pc.Numbering? || k.pc.Encoding? {
      PrepareExpected(codec, s, k);
    } else if !k.pc.Enter? && !k.pc.Waiting? && !k.pc.Granted? {
      ConcludeExpected(codec, s, exitClean, k, alt);
    } else {
      AcquireExpected(codec, s, k, alt);
    }
    hide KindExpected, Acquire, Prepare, Transact, Reap, Conclude;
  }

  lemma AcquireExpected(codec: Codec, s: Shared, k: Call, alt: bool)
    requires KindExpected(codec, k)
    ensures Acquire(s, k, alt).Some? ==> KindExpected(codec, Acquire(s, k, alt).value.1)
  {
  }

  lemma PrepareExpected(codec: Codec, s: Shared, k: Call)
    requires KindExpected(codec, k)
    ensures Prepare(codec, s, k).Some? ==> KindExpected(codec, Prepare(codec, s, k).value.1)
  {
    hide MarshalFrame, EncodeShutdownFrame;
  }

  lemma TransactExpected(codec: Codec, s: Shared, k: Call, alt: bool)
    requires KindExpected(codec, k)
    ensures Transact(s, k, alt).Some? ==> KindExpected(codec, Transact(s, k, alt).value.1)
  {
  }

  lemma ReapExpected(codec: Codec, s: Shared, k: Call)
    requires KindExpected(codec, k)
    ensures Reap(s, k).Some? ==> KindExpected(codec, Reap(s, k).value.1)
  {
  }

  lemma ConcludeExpected(codec: Codec, s: Shared, exitClean: bool, k: Call, alt: bool)
    requires KindExpected(codec, k) && !k.pc.Reaping? && !k.pc.Awaiting?
    requires k.pc.Answered? ==> (k.pc.response.ShutdownAck? <==> k.kind.ShutdownCall?) && !k.kind.CloseCall?
    ensures Conclude(s, exitClean, k, alt).Some? ==> KindExpected(codec, Conclude(s, exitClean, k, alt).value.1)
  {
  }

  lemma ExpectedUpdate(codec: Codec, s: State, t: State, c: nat, k: Call)
    requires ExpectedInv(codec, s) && t.calls == s.calls[c := k] && KindExpected(codec, k)
    ensures ExpectedInv(codec, t)
  {
    hide KindExpected;
  }

  lemma ExpectedAt(codec: Codec, s: State, c: nat)
    requires ExpectedInv(codec, s) && c in s.calls
    ensures KindExpected(codec, s.calls[c])
  {
  }

  lemma ExpectedTask(codec: Codec, s: State, a: Action)
    requires (a.WriteChunk? || a.WriteFail? || a.ReadFrame? || a.ReadFail?) && a.c in s.calls
    requires ExpectedInv(codec, s) && StepTask(codec, s, a).Some?
    ensures ExpectedInv(codec, StepTask(codec, s, a).value)
  {
    hide GoFrame, DecodeResponse, ExpectedInv;
    ExpectedAt(codec, s, a.c);
    var t := StepTask(codec, s, a).value;
    ExpectedUpdate(codec, s, t, a.c, t.calls[a.c]);
  }

  lemma ExpectedStep(codec: Codec, s: State, c: nat, alt: bool)
    requires CallsFit(s) && DeliveryInv(codec, s) && ExpectedInv(codec, s) && c in s.calls && StepCall(codec, s, c, alt).Some?
    ensures ExpectedInv(codec, StepCall(codec, s, c, alt).value)
  {
    hide Advance, CallsFit, DeliveryInv, ExpectedInv, Justified, KindExpected, IdFits, PcFits;
    var k, t := s.calls[c], StepCall(codec, s, c, alt).value;
    CallFits(s, c);
    ExpectedAt(codec, s, c);
    if k.pc.Answered? {
      JustifiedAt(codec, s, c);
      AnswerKind(codec, s.received, c, k);
    }
    AdvanceExpected(codec, s.shared, s.exitClean, k, alt);
    ExpectedUpdate(codec, s, t, c, t.calls[c]);
  }

  lemma ExpectedKept(codec: Codec, s: State, a: Action)
    requires CallsFit(s) && DeliveryInv(codec, s) && ExpectedInv(codec, s) && Next(codec, s, a).Some?
    ensures ExpectedInv(codec, Next(codec, s, a).value)
  {
    hide StepCall, StepTask, StepWorld, CallsFit, DeliveryInv, ExpectedInv;
    var t := Next(codec, s, a).value;
    match a
    case Invoke(c, kind) => ExpectedUpdate(codec, s, t, c, Begin(kind));
    case Cancel(c) =>
      ExpectedAt(codec, s, c);
      ExpectedUpdate(codec, s, t, c, s.calls[c].(cancelled := true));
    case Step(c, alt) => ExpectedStep(codec, s, c, alt);
    case WriteChunk(_, _) => ExpectedTask(codec, s, a);
    case WriteFail(_) => ExpectedTask(codec, s, a);
    case ReadFrame(_) => ExpectedTask(codec, s, a);
    case ReadFail(_) => ExpectedTask(codec, s, a);
    case _ =>
      WorldStep(s, a);
      ExpectedSame(codec, s, t);
  }

  lemma ExpectedSame(codec: Codec, s: State, t: State)
    requires ExpectedInv(codec, s) && t.calls == s.calls
    ensures ExpectedInv(codec, t)
  {
  }
}
