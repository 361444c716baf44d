/** Every interleaving of concurrent callers, their request goroutines, cancellations,
    force-closes and an arbitrary worker process over two byte pipes. */
module SessionSystem {
  import opened Words
  import opened Framing
  import opened Protocol
  import opened Session
  import Contracts
  import Hex

  // ------------------------------------------------------------------ calls

  datatype Kind = ExecuteCall(workload: RawJson) | ShutdownCall | CloseCall

  /** What a call returns. */
  datatype Outcome =
    | Delivered(result: Contracts.ResultV1) | RemoteReported(error: RemoteError)
    | Acknowledged | ForceClosed | Refused(why: Refusal)

  /** The request goroutine of one transaction. */
  datatype Task = NoTask | Writing(rest: seq<Byte>) | Reading | Finished(result: Result<Response, Refusal>) | Collected

  datatype ReapStep = CloseIn | Kill | AwaitWait | CloseOut | AwaitStderr
  datatype After = ThenLeave(outcome: Outcome) | ThenDrain | ThenDone

  /** Where a call stands between two atomic operations. */
  datatype Pc =
    | Enter | Waiting | Granted | Checking | Numbering | Encoding
    | Awaiting | Interrupted | Failing(why: Refusal) | Reaping(step: ReapStep, next: After) | Draining
    | Answered(response: Response) | Acked | ClosingInput | AwaitingExit | ExitSeen
    | CloseEnter | Leaving(outcome: Outcome) | Done(outcome: Outcome)

  datatype Call = Call(kind: Kind, pc: Pc, cancelled: bool, id: Option<U64>, task: Task, receipt: Option<nat>)

  /** The goroutine may still touch a pipe. */
  predicate Live(task: Task) {
    task.Writing? || task.Reading?
  }

  /** The call is between taking the token and giving it back. */
  predicate Holds(pc: Pc) {
    match pc
    case Enter => false
    case Waiting => false
    case CloseEnter => false
    case Done(_) => false
    case Reaping(_, next) => !next.ThenDone?
    case _ => true
  }

  /** The call is inside `transact`. */
  predicate Transacting(pc: Pc) {
    pc.Awaiting? || pc.Interrupted? || pc.Draining? || (pc.Reaping? && pc.next.ThenDrain?)
  }

  function Expect(codec: Codec, kind: Kind): Option<Projection> {
    if kind.ExecuteCall? then codec.project(kind.workload) else None
  }

  function EncodeFrame(codec: Codec, kind: Kind, id: U64): Result<seq<Byte>, Rejection> {
    match kind
    case ExecuteCall(workload) =>
      (match EncodeExecuteFrame(codec, Hex.FormatRequestId(id), workload)
       case Ok((frame, _)) => Ok(frame)
       case Err(e) => Err(e))
    case _ => EncodeShutdownFrame(codec, Hex.FormatRequestId(id))
  }

  // ------------------------------------------------- one caller's next step

  function Begin(kind: Kind): Call {
    Call(kind, if kind.CloseCall? then CloseEnter else Enter, false, None, NoTask, None)
  }

  /** `acquire`: check the context, wait for the token, check the context again. */
  function Acquire(s: Shared, k: Call, alt: bool): Option<(Shared, Call)> {
    match k.pc
    case Enter => Some((s, k.(pc := if k.cancelled then Done(Refused(ContextEnded)) else Waiting)))
    case Waiting =>
      if alt then (if k.cancelled then Some((s, k.(pc := Done(Refused(ContextEnded))))) else None)
      else if s.tokens > 0 then Some((s.(tokens := s.tokens - 1), k.(pc := Granted)))
      else None
    case Granted => Some((s, k.(pc := if k.cancelled then Leaving(Refused(ContextEnded)) else Checking)))
    case _ => None
  }

  /** `checkOpen`, `nextRequestID` and the encoder, up to launching the goroutine. */
  function Prepare(codec: Codec, s: Shared, k: Call): Option<(Shared, Call)> {
    match k.pc
    case Checking =>
      if s.state.Open? && s.waitDone && !s.stderrDone then None
      else
        var (t, refusal) := CheckOpen(s);
        Some((t, k.(pc := if refusal.Some? then Leaving(Refused(refusal.value)) else Numbering)))
    case Numbering =>
      (match NextRequestId(s)
       case (t, None) => Some((t, k.(pc := Leaving(Refused(IdsExhausted)))))
       case (t, Some(id)) => Some((t, k.(pc := Encoding, id := Some(id)))))
    case Encoding =>
      if k.id.None? then None
      else
        (match EncodeFrame(codec, k.kind, k.id.value)
         case Err(e) => Some((s, k.(pc := Leaving(Refused(EncodeRejected(e))))))
         case Ok(frame) => Some((s, k.(pc := Awaiting, task := Writing(frame)))))
    case _ => None
  }

  /** `transact` waiting for its goroutine, and `poison` afterwards. */
  function Transact(s: Shared, k: Call, alt: bool): Option<(Shared, Call)> {
    match k.pc
    case Awaiting =>
      if k.task.Finished? then
        Some((s, k.(task := Collected,
                    pc := match k.task.result case Ok(r) => Answered(r) case Err(e) => Failing(e))))
      else if alt && k.cancelled then Some((s, k.(pc := Interrupted)))
      else None
    case Interrupted => Some((MarkPoisoned(s, ContextEnded), k.(pc := Reaping(CloseIn, ThenDrain))))
    case Failing(why) => Some((MarkPoisoned(s, why), k.(pc := Reaping(CloseIn, ThenLeave(Refused(why))))))
    case Draining =>
      if k.task.Finished? then Some((s, k.(task := Collected, pc := Leaving(Refused(ContextEnded))))) else None
    case _ => None
  }

  /** `killAndReap`, one blocking or once-only operation at a time. */
  function Reap(s: Shared, k: Call): Option<(Shared, Call)> {
    match k.pc
    case Reaping(CloseIn, next) => Some((s.(inputClosed := true), k.(pc := Reaping(Kill, next))))
    case Reaping(Kill, next) => Some((s.(killed := true), k.(pc := Reaping(AwaitWait, next))))
    case Reaping(AwaitWait, next) => if s.waitDone then Some((s, k.(pc := Reaping(CloseOut, next)))) else None
    case Reaping(CloseOut, next) => Some((s.(outputClosed := true), k.(pc := Reaping(AwaitStderr, next))))
    case Reaping(AwaitStderr, next) =>
      if !s.stderrDone then None
      else Some((s, k.(pc := match next case ThenLeave(o) => Leaving(o) case ThenDrain => Draining case ThenDone => Done(ForceClosed))))
    case _ => None
  }

  /** What `Execute`, `Shutdown` and `Close` do around a transaction. */
  function Conclude(s: Shared, exitClean: bool, k: Call, alt: bool): Option<(Shared, Call)> {
    match k.pc
    case Answered(Completed(result)) =>
      Some((s, k.(pc := if k.kind.ExecuteCall? then Leaving(Delivered(result)) else Failing(UnexpectedKind))))
    case Answered(RemoteFailure(error)) =>
      Some((s, k.(pc := if k.kind.ExecuteCall? then Leaving(RemoteReported(error)) else Failing(UnexpectedKind))))
    case Answered(ShutdownAck) => Some((s, k.(pc := if k.kind.ShutdownCall? then Acked else Failing(UnexpectedKind))))
    case Acked => Some((s.(state := Closed), k.(pc := ClosingInput)))
    case ClosingInput => Some((s.(inputClosed := true), k.(pc := AwaitingExit)))
    case AwaitingExit =>
      if alt then
        if k.cancelled then Some((s, k.(pc := Reaping(CloseIn, ThenLeave(Refused(ContextEnded)))))) else None
      else if s.waitDone then Some((s.(outputClosed := true), k.(pc := ExitSeen)))
      else None
    case ExitSeen =>
      if s.stderrDone then Some((s, k.(pc := Leaving(if exitClean then Acknowledged else Refused(ExitFailed))))) else None
    case CloseEnter => Some((s.(state := Closed), k.(pc := Reaping(CloseIn, ThenDone))))
    case Leaving(o) => if s.tokens == 0 then Some((s.(tokens := 1), k.(pc := Done(o)))) else None
    case _ => None
  }

  /** One atomic step of a caller; `alt` picks the context branch of a `select`. */
  function Advance(codec: Codec, s: Shared, exitClean: bool, k: Call, alt: bool): Option<(Shared, Call)> {
    if k.pc.Enter? || k.pc.Waiting? || k.pc.Granted? then Acquire(s, k, alt)
    else if k.pc.Checking? || k.pc.Numbering? || k.pc.Encoding? then Prepare(codec, s, k)
    else if k.pc.Awaiting? || k.pc.Interrupted? || k.pc.Failing? || k.pc.Draining? then Transact(s, k, alt)
    else if k.pc.Reaping? then Reap(s, k)
    else Conclude(s, exitClean, k, alt)
  }

  // ----------------------------------------------------------- whole system

  /** A request handed to a transaction, and how much of the worker's output had then been
      read and written. */
  datatype Sent = Sent(call: nat, id: U64, kind: Kind, read: nat, written: nat)

  /** A response frame read for a request: bytes `from..to` of the worker's output. */
  datatype Receipt = Receipt(call: nat, id: U64, kind: Kind, payload: seq<Byte>, from: nat, to: nat)

  /** `holder`, `log` and `received` are history; nothing in the program depends on them. */
  datatype State = State(
    shared: Shared, childAlive: bool, exitClean: bool, stdin: seq<Byte>, stdout: seq<Byte>, consumed: nat,
    calls: map<nat, Call>, holder: Option<nat>, log: seq<Sent>, received: seq<Receipt>)

  datatype Action =
    | Invoke(c: nat, kind: Kind) | Cancel(c: nat) | Step(c: nat, alt: bool)
    | WriteChunk(c: nat, n: nat) | WriteFail(c: nat) | ReadFrame(c: nat) | ReadFail(c: nat)
    | Emit(bytes: seq<Byte>) | Exit(clean: bool) | Wait | DrainStderr

  const START := State(FRESH, true, false, [], [], 0, map[], None, [], [])

  /** The log entry of a call that hands its request to the goroutine. */
  function Launch(s: State, c: nat, k: Call): Sent
    requires k.id.Some?
  {
    Sent(c, k.id.value, k.kind, s.consumed, |s.stdout|)
  }

  function StepCall(codec: Codec, s: State, c: nat, alt: bool): Option<State>
    requires c in s.calls
  {
    var k := s.calls[c];
    match Advance(codec, s.shared, s.exitClean, k, alt)
    case None => None
    case Some((shared, next)) =>
      Some(s.(shared := shared, calls := s.calls[c := next],
              holder := if Holds(next.pc) then Some(c) else if Holds(k.pc) then None else s.holder,
              log := if k.pc.Encoding? && next.pc.Awaiting? then s.log + [Launch(s, c, k)] else s.log))
  }

  /** What decoding one response frame gives the transaction. */
  function Decoded(codec: Codec, kind: Kind, id: U64, payload: seq<Byte>): Result<Response, Refusal> {
    match DecodeResponse(codec, payload, Hex.FormatRequestId(id), Expect(codec, kind))
    case Ok(response) => Ok(response)
    case Err(e) => Err(ResponseRejected(e))
  }

  /** The goroutine's side of a transaction. A read completes once the worker's output holds
      a whole frame or too many bytes; it may break off at any time. */
  function StepTask(codec: Codec, s: State, a: Action): Option<State>
    requires (a.WriteChunk? || a.WriteFail? || a.ReadFrame? || a.ReadFail?) && a.c in s.calls
  {
    var k := s.calls[a.c];
    match a
    case WriteChunk(c, n) =>
      if k.task.Writing? && 0 < n <= |k.task.rest| && !s.shared.inputClosed then
        var rest := k.task.rest[n..];
        Some(s.(stdin := s.stdin + k.task.rest[..n],
                calls := s.calls[c := k.(task := if rest == [] then Reading else Writing(rest))]))
      else None
    case WriteFail(c) =>
      if k.task.Writing? then Some(s.(calls := s.calls[c := k.(task := Finished(Err(TransportFailed)))])) else None
    case ReadFail(c) =>
      if k.task.Reading? then Some(s.(calls := s.calls[c := k.(task := Finished(Err(TransportFailed)))])) else None
    case ReadFrame(c) =>
      if !k.task.Reading? || s.consumed > |s.stdout| || k.id.None? then None
      else
        var data := s.stdout[s.consumed..];
        match GoFrame(MAX_FRAME_BYTES, data, Eof)
        case Payload(payload) =>
          var to := s.consumed + LineEnd(data) + 1;
          Some(s.(consumed := to, received := s.received + [Receipt(c, k.id.value, k.kind, payload, s.consumed, to)],
                  calls := s.calls[c := k.(task := Finished(Decoded(codec, k.kind, k.id.value, payload)), receipt := Some(|s.received|))]))
        case TooLarge => Some(s.(calls := s.calls[c := k.(task := Finished(Err(TransportFailed)))]))
        case _ => None
  }

  /** The worker process and the operating system: any output, any exit. */
  function StepWorld(s: State, a: Action): Option<State>
    requires a.Emit? || a.Exit? || a.Wait? || a.DrainStderr?
  {
    match a
    case Emit(bytes) => if s.childAlive then Some(s.(stdout := s.stdout + bytes)) else None
    case Exit(clean) => if s.childAlive then Some(s.(childAlive := false, exitClean := clean)) else None
    case Wait => if s.childAlive then None else Some(s.(shared := s.shared.(waitDone := true)))
    case DrainStderr => Some(s.(shared := s.shared.(stderrDone := true)))
  }

  function Next(codec: Codec, s: State, a: Action): Option<State> {
    match a
    case Invoke(c, kind) => if c in s.calls then None else Some(s.(calls := s.calls[c := Begin(kind)]))
    case Cancel(c) => if c in s.calls then Some(s.(calls := s.calls[c := s.calls[c].(cancelled := true)])) else None
    case Step(c, alt) => if c in s.calls then StepCall(codec, s, c, alt) else None
    case WriteChunk(c, _) => if c in s.calls then StepTask(codec, s, a) else None
    case WriteFail(c) => if c in s.calls then StepTask(codec, s, a) else None
    case ReadFrame(c) => if c in s.calls then StepTask(codec, s, a) else None
    case ReadFail(c) => if c in s.calls then StepTask(codec, s, a) else None
    case _ => StepWorld(s, a)
  }

  /** A run from a given state, when every action is enabled in turn. */
  function Run(codec: Codec, s: State, actions: seq<Action>): Option<State> {
    if actions == [] then Some(s) else
      var n := |actions| - 1;
      match Run(codec, s, actions[..n])
      case None => None
      case Some(t) => Next(codec, t, actions[n])
  }
}
