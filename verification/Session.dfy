/** The mutex-protected state of one worker session and its atomic operations, on values. */
module Session {
  import opened Words
  import opened Protocol

  datatype SessionState = Open | Closed | Poisoned

  /** Why a call did not return a result. */
  datatype Refusal =
    | ContextEnded | SessionClosed | SessionPoisoned | IdsExhausted | EncodeRejected(rejection: Rejection)
    | TransportFailed | ExitedBeforeRequest | ResponseRejected(rejection: Rejection) | UnexpectedKind | ExitFailed

  /** Everything concurrent callers share, as one value. */
  datatype Shared = Shared(
    tokens: nat, state: SessionState, cause: Option<Refusal>, sequence: U64,
    inputClosed: bool, outputClosed: bool, killed: bool, waitDone: bool, stderrDone: bool)

  const FRESH := Shared(1, Open, None, 1, false, false, false, false, false)

  /** Only the first failure of an open session is recorded. */
  function MarkPoisoned(s: Shared, cause: Refusal): Shared {
    if s.state.Open? then s.(state := Poisoned, cause := Some(cause)) else s
  }

  /** A dead child found by the check poisons the session on the spot. */
  function CheckOpen(s: Shared): (Shared, Option<Refusal>) {
    match s.state
    case Closed => (s, Some(SessionClosed))
    case Poisoned => (s, Some(SessionPoisoned))
    case Open =>
      if s.waitDone then (s.(state := Poisoned, cause := Some(ExitedBeforeRequest), outputClosed := true), Some(SessionPoisoned))
      else (s, None)
  }

  /** The counter skips nothing, and zero after the wrap means exhausted for good. */
  function NextRequestId(s: Shared): (Shared, Option<U64>) {
    if s.sequence == 0 then (s, None) else (s.(sequence := WrappingAdd(s.sequence, 1)), Some(s.sequence))
  }

  /** No operation reopens a session, un-reaps its child or rewinds its counter. */
  ghost predicate Progress(s: Shared, t: Shared) {
    && (!s.state.Open? ==> !t.state.Open?)
    && (s.waitDone ==> t.waitDone) && (s.outputClosed ==> t.outputClosed) && (s.stderrDone ==> t.stderrDone)
    && (s.inputClosed ==> t.inputClosed) && (s.killed ==> t.killed)
    && (t.sequence == s.sequence || (s.sequence != 0 && t.sequence == WrappingAdd(s.sequence, 1)))
  }
}
