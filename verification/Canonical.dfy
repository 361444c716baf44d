/** The controller accepts exactly one envelope for each response: the one the engine builds.
    Decoding is thus undone by encoding as well as the other way round. */
module Canonical {
  import opened Words
  import opened Floats
  import opened Contracts
  import opened Framing
  import opened Protocol
  import opened Server
  import Aggregates
  import Agreement
  import Hex

  // ----------------------------------------------------------------- results

  /** A result the workload could have produced. */
  predicate Fits(r: ResultV1, p: Projection) {
    && r.acceptedCount <= p.recordCount && |r.histogram| == p.categoryCount
    && Aggregates.Total(r.histogram) == r.acceptedCount
    && !Val64(r.scoreSum).NaN? && !Val64(r.scoreSum).NegInf?
  }

  lemma {:induction false} HistogramCanonical(texts: seq<string>, values: seq<U64>)
    ensures ParseAll(texts) == Some(values) <==> texts == PrintAll(values)
  {
    hide Hex.ParseU64, Hex.PrintU64;
    if texts == [] {
      assert values == [] ==> PrintAll(values) == [];
    } else if values == [] {
      assert PrintAll(values) == [];
    } else {
      var m, n := |texts| - 1, |values| - 1;
      HistogramCanonical(texts[..m], values[..n]);
      Hex.ParsePrint(values[n], texts[m]);
      assert PrintAll(values) == PrintAll(values[..n]) + [Hex.PrintU64(values[n])];
      assert texts == texts[..m] + [texts[m]];
      assert values == values[..n] + [values[n]];
      if texts == PrintAll(values) {
        assert texts[..m] == PrintAll(values[..n]);
      }
    }
  }

  /** A result is read from its printed form and from nothing else. */
  lemma ResultCanonical(wire: WireResult, p: Projection, r: ResultV1)
    ensures DecodeResult(wire, p) == Ok(r) <==> PossibleWorkload(p) && Fits(r, p) && wire == WireOf(r)
  {
    hide Val64, PossibleWorkload, Hex.ParseU64, Hex.PrintU64, ParseAll, PrintAll, Aggregates.Total;
    if DecodeResult(wire, p) == Ok(r) {
      Hex.ParsePrint(r.acceptedCount, wire.acceptedCount.value);
      Hex.ParsePrint(r.scoreSum, wire.scoreSum.value.bits);
      Hex.ParsePrint(r.acceptedIdSum, wire.acceptedIdSum.value);
      Hex.ParsePrint(r.acceptedIdXor, wire.acceptedIdXor.value);
      HistogramCanonical(wire.histogram.value, r.histogram);
    }
    if PossibleWorkload(p) && Fits(r, p) && wire == WireOf(r) {
      Agreement.PrintedResultDecodes(r, p);
    }
  }

  // ------------------------------------------------------------------ errors

  predicate GoodError(e: RemoteError) {
    && e.code in ["invalid_workload", "unsupported_backend", "execution_failed"] && ValidMessage(e.message)
    && forall i :: 0 <= i < |e.issues| ==> ValidIssueCode(e.issues[i].code) && ValidMessage(e.issues[i].message)
  }

  function IssuesOnWire(issues: seq<RemoteIssue>): seq<WireIssue> {
    seq(|issues|, i requires 0 <= i < |issues| => WireIssue(issues[i].code, Some(issues[i].path), issues[i].message))
  }

  lemma IssuesCanonical(wire: seq<WireIssue>, issues: seq<RemoteIssue>)
    requires forall i :: 0 <= i < |wire| ==> ValidIssue(wire[i])
    ensures DecodeIssues(wire) == issues <==> wire == IssuesOnWire(issues)
  {
    hide ValidIssueCode, ValidMessage;
    if wire == IssuesOnWire(issues) {
      forall i | 0 <= i < |issues|
        ensures DecodeIssues(wire)[i] == issues[i]
      {
        assert wire[i] == IssuesOnWire(issues)[i];
      }
      assert DecodeIssues(wire) == issues;
    }
    if DecodeIssues(wire) == issues {
      forall i | 0 <= i < |wire|
        ensures wire[i] == IssuesOnWire(issues)[i]
      {
        assert DecodeIssues(wire)[i] == issues[i];
      }
      assert wire == IssuesOnWire(issues);
    }
  }

  // --------------------------------------------------------------- responses

  /** The optional list on the wire: absent exactly when there is nothing in it. */
  function Listed(issues: seq<WireIssue>): Member<seq<WireIssue>> {
    if issues == [] then Absent else Present(issues)
  }

  /** The one envelope for a response to the request `id` about a workload named `name`. */
  function EnvelopeOf(id: string, name: string, response: Response): Envelope {
    match response
    case Completed(r) =>
      Envelope("paraflow.job-result/v1", id, "completed", Some(name), Present("scalar"),
               Present(WireResult("paraflow.result/v1", Some(Hex.PrintU64(r.acceptedCount)),
                                  Some(WireFloat("ieee754-binary64", Hex.PrintU64(r.scoreSum))),
                                  Some(PrintAll(r.histogram)),
                                  Some(Hex.PrintU64(r.acceptedIdSum)), Some(Hex.PrintU64(r.acceptedIdXor)))), Absent)
    case RemoteFailure(e) =>
      Envelope("paraflow.job-result/v1", id, "error", None, Absent, Absent,
               Present(WireError(e.code, e.message, Listed(IssuesOnWire(e.issues)))))
    case ShutdownAck => Envelope("paraflow.job-result/v1", id, "shutdown_ack", None, Absent, Absent, Absent)
  }

  /** It is what the engine builds. */
  lemma BuiltByEngine(id: string, name: string, response: Response)
    ensures EnvelopeOf(id, name, response)
         == match response
            case Completed(result) => CompletedEnvelope(id, name, result)
            case RemoteFailure(error) => ErrorEnvelope(id, error.code, error.message, IssuesOnWire(error.issues))
            case ShutdownAck => AckEnvelope(id)
  {
    hide Hex.PrintU64, PrintAll, IssuesOnWire;
  }

  /** Responses that can answer the request. */
  predicate Answers(expected: Option<Projection>, response: Response) {
    match response
    case Completed(result) => expected.Some? && PossibleWorkload(expected.value) && Fits(result, expected.value)
    case RemoteFailure(error) => expected.Some? && GoodError(error)
    case ShutdownAck => expected.None?
  }

  lemma CompletedCanonical(e: Envelope, id: string, expected: Option<Projection>, result: ResultV1)
    ensures DecodeEnvelope(e, id, expected) == Ok(Completed(result)) <==>
              Answers(expected, Completed(result)) && e == CompletedEnvelope(id, expected.value.name, result)
  {
    hide DecodeResult, PossibleWorkload, Fits, WireOf;
    if e.result.Present? && expected.Some? {
      ResultCanonical(e.result.value, expected.value, result);
    }
  }

  lemma AckCanonical(e: Envelope, id: string, expected: Option<Projection>)
    ensures DecodeEnvelope(e, id, expected) == Ok(ShutdownAck) <==> expected.None? && e == AckEnvelope(id)
  {
    hide DecodeResult;
  }

  lemma RemoteErrorCanonical(e: Envelope, error: RemoteError)
    ensures DecodeRemoteError(e) == Ok(RemoteFailure(error)) <==>
              && GoodError(error) && e.workloadName.None? && e.execution.Absent? && e.result.Absent?
              && e.error == Present(WireError(error.code, error.message, Listed(IssuesOnWire(error.issues))))
  {
    hide ValidIssueCode, ValidMessage;
    assert error.issues == [] <==> IssuesOnWire(error.issues) == [];
    if e.error.Present? && e.error.value.issues.Present? {
      var wire := e.error.value.issues.value;
      if forall i :: 0 <= i < |wire| ==> ValidIssue(wire[i]) {
        IssuesCanonical(wire, error.issues);
        IssuesGood(wire, error);
      } else {
        IssuesBad(wire, error);
      }
    }
  }

  lemma IssuesGood(wire: seq<WireIssue>, error: RemoteError)
    requires forall i :: 0 <= i < |wire| ==> ValidIssue(wire[i])
    ensures wire == IssuesOnWire(error.issues) ==>
              forall i :: 0 <= i < |error.issues| ==> ValidIssueCode(error.issues[i].code) && ValidMessage(error.issues[i].message)
  {
    hide ValidIssueCode, ValidMessage;
    if wire == IssuesOnWire(error.issues) {
      forall i | 0 <= i < |error.issues|
        ensures ValidIssueCode(error.issues[i].code) && ValidMessage(error.issues[i].message)
      {
        assert ValidIssue(wire[i]);
      }
    }
  }

  lemma IssuesBad(wire: seq<WireIssue>, error: RemoteError)
    requires !forall i :: 0 <= i < |wire| ==> ValidIssue(wire[i])
    ensures GoodError(error) ==> wire != IssuesOnWire(error.issues)
  {
    hide ValidIssueCode, ValidMessage;
  }

  lemma ErrorCanonical(e: Envelope, id: string, expected: Option<Projection>, error: RemoteError)
    ensures DecodeEnvelope(e, id, expected) == Ok(RemoteFailure(error)) <==>
              expected.Some? && GoodError(error) && e == ErrorEnvelope(id, error.code, error.message, IssuesOnWire(error.issues))
  {
    hide DecodeResult, DecodeRemoteError, GoodError, IssuesOnWire;
    RemoteErrorCanonical(e, error);
  }

  /** The strict decoder accepts exactly the one envelope of a response that can answer the
      request, and reads that response from it. */
  lemma AcceptsExactly(e: Envelope, id: string, expected: Option<Projection>, response: Response)
    ensures DecodeEnvelope(e, id, expected) == Ok(response) <==>
              && Answers(expected, response)
              && e == EnvelopeOf(id, if expected.Some? then expected.value.name else "", response)
  {
    hide DecodeEnvelope, EnvelopeOf, CompletedEnvelope, ErrorEnvelope, AckEnvelope, PossibleWorkload, Fits, GoodError, IssuesOnWire;
    BuiltByEngine(id, if expected.Some? then expected.value.name else "", response);
    match response
    case Completed(result) => CompletedCanonical(e, id, expected, result);
    case RemoteFailure(error) => ErrorCanonical(e, id, expected, error);
    case ShutdownAck => AckCanonical(e, id, expected);
  }

  /** What a request for another backend is told. */
  function UnsupportedError(engine: Engine, backend: string): RemoteError {
    RemoteError("unsupported_backend", Bounded("backend " + engine.debugString(backend) + " is not supported by this worker"),
      [RemoteIssue("unsupported_backend", "job.execution.backend", Bounded("expected \"scalar\", got " + engine.debugString(backend)))])
  }

  lemma UnsupportedGood(engine: Engine, backend: string)
    ensures GoodError(UnsupportedError(engine, backend))
  {
    hide Bounded, ValidMessage;
    Agreement.BoundedValid("backend " + engine.debugString(backend) + " is not supported by this worker");
    Agreement.BoundedValid("expected \"scalar\", got " + engine.debugString(backend));
  }

  /** A request for another backend is answered with an error that the controller accepts and
      that names the backend field, whatever the workload. */
  lemma UnsupportedBackend(engine: Engine, id: string, job: Job, p: Projection)
    requires job.backend != "scalar"
    ensures DecodeEnvelope(Respond(engine, id, job), id, Some(p)) == Ok(RemoteFailure(UnsupportedError(engine, job.backend)))
  {
    hide DecodeEnvelope, EnvelopeOf, GoodError, Bounded;
    var error := UnsupportedError(engine, job.backend);
    UnsupportedGood(engine, job.backend);
    assert IssuesOnWire(error.issues) == [WireIssue(error.issues[0].code, Some(error.issues[0].path), error.issues[0].message)];
    BuiltByEngine(id, p.name, RemoteFailure(error));
    AcceptsExactly(Respond(engine, id, job), id, Some(p), RemoteFailure(error));
  }
}
