/** Both decoders against tables of rules: a message is refused for the first rule it breaks,
    in the order of the table, and accepted exactly when it breaks none. The grammars of
    identifiers, backends and issue codes are written out character by character. */
module Verdicts {
  import opened Words
  import opened Floats
  import opened Contracts
  import opened Framing
  import opened Protocol
  import opened Server
  import Aggregates
  import Hex

  /** A rule that may be broken, and what the decoder then reports. */
  datatype Rule<E> = Rule(broken: bool, error: E)

  /** The error of the first broken rule. */
  function First<E>(rules: seq<Rule<E>>): Option<E> {
    if rules == [] then None else if rules[0].broken then Some(rules[0].error) else First(rules[1..])
  }

  lemma {:induction false} FirstJoin<E>(a: seq<Rule<E>>, b: seq<Rule<E>>)
    ensures First(a + b) == if First(a).Some? then First(a) else First(b)
  {
    if a == [] {
      assert a + b == b;
    } else {
      FirstJoin(a[1..], b);
      assert (a + b)[1..] == a[1..] + b;
    }
  }

  /** Nothing is reported exactly when no rule is broken, and what is reported is the error of
      a broken rule with no broken rule before it. */
  lemma {:induction false} FirstExact<E>(rules: seq<Rule<E>>)
    ensures First(rules).None? <==> forall i :: 0 <= i < |rules| ==> !rules[i].broken
    ensures First(rules).Some? ==>
              exists i :: 0 <= i < |rules| && rules[i] == Rule(true, First(rules).value) && forall j :: 0 <= j < i ==> !rules[j].broken
  {
    if rules != [] {
      FirstExact(rules[1..]);
      if First(rules).Some? {
        if rules[0].broken {
          assert rules[0] == Rule(true, First(rules).value);
        } else {
          var i :| 0 <= i < |rules[1..]| && rules[1..][i] == Rule(true, First(rules).value)
                   && forall j :: 0 <= j < i ==> !rules[1..][j].broken;
          assert rules[i + 1] == Rule(true, First(rules).value);
          assert forall j :: 0 < j < i + 1 ==> rules[j] == rules[1..][j - 1];
        }
      }
      assert forall i :: 0 < i < |rules| ==> rules[i] == rules[1..][i - 1];
    }
  }

  lemma FirstTwo<E>(a: Rule<E>, b: Rule<E>)
    ensures First([a, b]) == if a.broken then Some(a.error) else if b.broken then Some(b.error) else None
  {
    assert First([a]) == if a.broken then Some(a.error) else First([]);
    assert First([b]) == if b.broken then Some(b.error) else First([]);
    FirstJoin([a], [b]);
    assert [a] + [b] == [a, b];
  }

  lemma FirstThree<E>(a: Rule<E>, b: Rule<E>, c: Rule<E>)
    ensures First([a, b, c]) == if a.broken then Some(a.error) else if b.broken then Some(b.error) else if c.broken then Some(c.error) else None
  {
    FirstTwo(b, c);
    assert [a, b, c][1..] == [b, c];
  }

  // ---------------------------------------------------------------- grammars

  /** A first character, the characters after it, and the longest text allowed. */
  datatype Grammar = Grammar(first: string, rest: string, most: nat)

  const LOWER := "abcdefghijklmnopqrstuvwxyz"
  const UPPER := "ABCDEFGHIJKLMNOPQRSTUVWXYZ"
  const DIGITS := "0123456789"

  predicate Matches(g: Grammar, text: string) {
    0 < |text| <= g.most && text[0] in g.first && forall i :: 1 <= i < |text| ==> text[i] in g.rest
  }

  lemma LowerAt(i: nat)
    requires i < 26
    ensures |LOWER| == 26 && LOWER[i] as int == 'a' as int + i
  {
  }

  lemma UpperAt(i: nat)
    requires i < 26
    ensures |UPPER| == 26 && UPPER[i] as int == 'A' as int + i
  {
  }

  lemma DigitAt(i: nat)
    requires i < 10
    ensures |DIGITS| == 10 && DIGITS[i] as int == '0' as int + i
  {
  }

  /** A text that runs through consecutive characters holds exactly those. */
  lemma Consecutive(text: string, first: char, c: char)
    requires text != [] && forall i :: 0 <= i < |text| ==> text[i] as int == first as int + i
    ensures c in text <==> first as int <= c as int < first as int + |text|
  {
    if first as int <= c as int < first as int + |text| {
      assert text[c as int - first as int] == c;
    }
  }

  lemma Letters(c: char)
    ensures c in LOWER <==> 'a' <= c <= 'z'
    ensures c in UPPER <==> 'A' <= c <= 'Z'
    ensures c in DIGITS <==> '0' <= c <= '9'
  {
    hide LOWER, UPPER, DIGITS;
    LowerAt(0);
    UpperAt(0);
    DigitAt(0);
    forall i | 0 <= i < 26
      ensures LOWER[i] as int == 'a' as int + i && UPPER[i] as int == 'A' as int + i
    {
      LowerAt(i);
      UpperAt(i);
    }
    forall i | 0 <= i < 10
      ensures DIGITS[i] as int == '0' as int + i
    {
      DigitAt(i);
    }
    Consecutive(LOWER, 'a', c);
    Consecutive(UPPER, 'A', c);
    Consecutive(DIGITS, '0', c);
  }

  const REQUEST_ID := Grammar(UPPER + LOWER + DIGITS, UPPER + LOWER + DIGITS + "._:-", 64)
  const BACKEND := Grammar(UPPER + LOWER, UPPER + LOWER + DIGITS + "._-", 64)
  const ISSUE_CODE := Grammar(LOWER, LOWER + DIGITS + "_", 64)

  lemma RequestIdGrammar(id: string)
    ensures Hex.RustValidRequestId(id) <==> Matches(REQUEST_ID, id)
  {
    forall i | 0 <= i < |id|
      ensures Hex.AsciiAlnum(id[i]) <==> id[i] in REQUEST_ID.first
      ensures Hex.AsciiAlnum(id[i]) || id[i] in ['.', '_', ':', '-'] <==> id[i] in REQUEST_ID.rest
    {
      Letters(id[i]);
    }
  }

  lemma BackendGrammar(backend: string)
    ensures ValidBackend(backend) <==> Matches(BACKEND, backend)
  {
    forall i | 0 <= i < |backend|
      ensures AsciiAlpha(backend[i]) <==> backend[i] in BACKEND.first
      ensures Hex.AsciiAlnum(backend[i]) || backend[i] in ['.', '_', '-'] <==> backend[i] in BACKEND.rest
    {
      Letters(backend[i]);
    }
  }

  lemma IssueCodeGrammar(code: string)
    ensures ValidIssueCode(code) <==> Matches(ISSUE_CODE, code)
  {
    forall i | 0 <= i < |code|
      ensures 'a' <= code[i] <= 'z' <==> code[i] in ISSUE_CODE.first
      ensures 'a' <= code[i] <= 'z' || '0' <= code[i] <= '9' || code[i] == '_' <==> code[i] in ISSUE_CODE.rest
    {
      Letters(code[i]);
    }
  }

  /** The controller sends under exactly the identifiers of sequence numbers. */
  lemma ControllerIds(id: string)
    ensures Hex.GoValidRequestId(id) <==> exists n: U64 :: id == Hex.FormatRequestId(n)
  {
    if Hex.GoValidRequestId(id) {
      Hex.ParseBound(id);
      Pow2Of64();
      Hex.FormatParse(id);
      var n: U64 := Hex.ParseDigits(id);
      assert id == Hex.FormatRequestId(n);
    }
  }

  // ----------------------------------------------------------------- requests

  function RequestRules(r: Request): seq<Rule<RequestError>> {
    [Rule(r.schemaVersion != "paraflow.job/v1", UnsupportedJobSchema),
     Rule(!Matches(REQUEST_ID, r.requestId), InvalidRequestId),
     Rule(r.kind !in ["execute", "shutdown"], UnsupportedKind)]
    + [Rule((r.kind == "execute") != r.job.Some?, InvalidPayload),
       Rule(r.job.Some? && !Matches(BACKEND, r.job.value.backend), InvalidBackend)]
  }

  /** Exactly which requests the engine refuses, and with what. */
  lemma RequestDecided(codec: Codec, frame: seq<Byte>)
    ensures codec.decodeRequest(frame).None? <==> DecodeRequest(codec, frame) == Err(MalformedRequest)
    ensures codec.decodeRequest(frame).Some? ==>
              var r := codec.decodeRequest(frame).value;
              match First(RequestRules(r))
              case Some(e) => DecodeRequest(codec, frame) == Err(e)
              case None =>
                DecodeRequest(codec, frame) == Ok(if r.job.Some? then Execute(r.requestId, r.job.value) else Shutdown(r.requestId))
  {
    hide Matches, Hex.RustValidRequestId, ValidBackend, First;
    if codec.decodeRequest(frame).Some? {
      var r := codec.decodeRequest(frame).value;
      RequestIdGrammar(r.requestId);
      if r.job.Some? {
        BackendGrammar(r.job.value.backend);
      }
      var rules := RequestRules(r);
      FirstThree(rules[0], rules[1], rules[2]);
      FirstTwo(rules[3], rules[4]);
      FirstJoin([rules[0], rules[1], rules[2]], [rules[3], rules[4]]);
    }
  }

  /** A line the server cannot serve ends it on the spot: it is not answered, and neither is
      anything after it. */
  lemma ServeRefuses(engine: Engine, line: seq<Byte>, rest: seq<Byte>, end: End, e: RequestError)
    requires Framable(line, MAX_FRAME_BYTES) && line != [] && DecodeRequest(engine.codec, line) == Err(e)
    ensures Serve(engine, line + [LF] + rest, end) == Served([], Err(InvalidRequest(e)))
  {
    hide DecodeRequest, RustFrame, Serve, LineEnd;
    FramedPayload(MAX_FRAME_BYTES, line, rest, end);
    ServeUnfold(engine, line + [LF] + rest, end);
  }

  /** A line of more than 4 MiB ends the server as well, whatever it says; one byte less is
      read. */
  lemma ServeOversized(engine: Engine, line: seq<Byte>, rest: seq<Byte>, end: End)
    requires OneLine(line) && !EndsWithCr(line)
    ensures RustFrame(MAX_FRAME_BYTES, line + [LF] + rest, end).TooLarge? <==> |line| > 4_194_304
    ensures |line| > 4_194_304 ==> Serve(engine, line + [LF] + rest, end) == Served([], Err(RequestTooLarge))
  {
    hide DecodeRequest, RustFrame, Serve, LineEnd;
    TerminatedLine(MAX_FRAME_BYTES, line, rest, end);
    ServeUnfold(engine, line + [LF] + rest, end);
  }

  /** An answer that does not fit a frame ends the server before any byte of it is written. */
  lemma ServeTooLargeAnswer(engine: Engine, line: seq<Byte>, rest: seq<Byte>, end: End)
    requires Framable(line, MAX_FRAME_BYTES) && line != [] && DecodeRequest(engine.codec, line).Ok?
    requires var request := DecodeRequest(engine.codec, line).value;
             var answer := match request case Execute(id, job) => Respond(engine, id, job) case Shutdown(id) => AckEnvelope(id);
             |engine.codec.encodeResponse(answer)| > 4_194_304
    ensures Serve(engine, line + [LF] + rest, end) == Served([], Err(ResponseTooLarge))
  {
    hide DecodeRequest, RustFrame, Serve, LineEnd, Respond;
    FramedPayload(MAX_FRAME_BYTES, line, rest, end);
    ServeUnfold(engine, line + [LF] + rest, end);
  }

  /** Exactly which workloads the controller sends, in which bytes. */
  lemma RequestEncoded(codec: Codec, id: string, workload: RawJson)
    ensures var payload := codec.encodeRequest(Request("paraflow.job/v1", id, "execute", Some(Job("scalar", workload))));
            && (EncodeExecuteFrame(codec, id, workload).Ok? <==>
                  Hex.GoValidRequestId(id) && codec.project(workload).Some? && |payload| <= 4_194_304)
            && (EncodeExecuteFrame(codec, id, workload).Ok? ==>
                  EncodeExecuteFrame(codec, id, workload).value == (payload + [LF], codec.project(workload).value))
  {
  }

  // ---------------------------------------------------------------- messages

  /** A message is cut to its longest prefix of at most 1,024 characters. */
  lemma BoundedExact(message: string, prefix: string)
    requires prefix <= message && |prefix| <= 1_024
    ensures Bounded(message) <= message && |Bounded(message)| <= 1_024 && prefix <= Bounded(message)
  {
  }

  /** The number a decimal text stands for. */
  function ReadDecimal(text: string): int {
    if text == "" then 0 else 10 * ReadDecimal(text[..|text| - 1]) + (text[|text| - 1] as int - '0' as int)
  }

  /** A count is printed in decimal, without a leading zero. */
  lemma {:induction false} DecimalExact(n: nat)
    ensures ReadDecimal(Decimal(n)) == n
    ensures forall i :: 0 <= i < |Decimal(n)| ==> '0' <= Decimal(n)[i] <= '9'
    ensures Decimal(n)[0] == '0' ==> n == 0
  {
    if n < 10 {
      assert Decimal(n)[..0] == "";
    } else {
      DecimalExact(n / 10);
      var last := |Decimal(n)| - 1;
      assert Decimal(n)[..last] == Decimal(n / 10);
      assert Decimal(n)[0] == Decimal(n / 10)[0];
    }
  }

  // ---------------------------------------------------------------- responses

  /** Results are checked in this order, once their hexadecimal members are read. */
  function ResultRules(r: ParsedResult, p: Projection): seq<Rule<Rejection>> {
    var score := if r.scoreSum.Some? then Hex.ParseU64(r.scoreSum.value.bits) else None;
    var bits := if score.Some? then Val64(score.value) else NaN;
    var accepted := if r.acceptedCount.Some? then r.acceptedCount.value else 0;
    var counts := if r.histogram.Some? then r.histogram.value else [];
    [Rule(IsBlank(p.name) || |p.name| > 120 || p.recordCount > 9_007_199_254_740_991 || !(1 <= p.categoryCount <= 65_536), ImpossibleWorkload),
     Rule(r.schemaVersion != "paraflow.result/v1", WrongSchema),
     Rule(None in [r.acceptedCount, r.acceptedIdSum, r.acceptedIdXor] || r.scoreSum.None? || r.histogram.None?, MissingField)]
    + [Rule(r.scoreSum.Some? && r.scoreSum.value.encoding != "ieee754-binary64", BadEncoding),
       Rule(score.None?, BadHex)]
    + [Rule(bits.NaN?, NotANumber),
       Rule(bits.NegInf?, NegativeInfinity),
       Rule(accepted > p.recordCount, CountExceedsRecords)]
    + [Rule(|counts| != p.categoryCount, HistogramLength),
       Rule(Aggregates.Total(counts) > p.recordCount, HistogramExceedsRecords),
       Rule(Aggregates.Total(counts) != accepted, HistogramMismatch)]
  }

  lemma FirstRest<E>(a: seq<Rule<E>>, b: seq<Rule<E>>, c: seq<Rule<E>>, d: seq<Rule<E>>)
    ensures First(a + b + c + d)
         == if First(a).Some? then First(a) else if First(b).Some? then First(b) else if First(c).Some? then First(c) else First(d)
  {
    hide First;
    FirstJoin(a + b + c, d);
    FirstJoin(a + b, c);
    FirstJoin(a, b);
  }

  lemma Possible(p: Projection)
    ensures PossibleWorkload(p) <==>
              !IsBlank(p.name) && |p.name| <= 120 && p.recordCount <= 9_007_199_254_740_991 && 1 <= p.categoryCount <= 65_536
  {
    assert p.name == "" ==> IsBlank(p.name);
  }

  /** Exactly which results the controller refuses, and why. */
  lemma ResultDecided(r: ParsedResult, p: Projection)
    ensures match First(ResultRules(r, p))
            case Some(e) => CheckedResult(r, p) == Err(e)
            case None =>
              && r.acceptedCount.Some? && r.scoreSum.Some? && r.histogram.Some? && r.acceptedIdSum.Some? && r.acceptedIdXor.Some?
              && Hex.ParseU64(r.scoreSum.value.bits).Some?
              && CheckedResult(r, p) == Ok(ResultV1(r.acceptedCount.value, Hex.ParseU64(r.scoreSum.value.bits).value, r.histogram.value,
                                                    r.acceptedIdSum.value, r.acceptedIdXor.value))
  {
    hide First, IsBlank, PossibleWorkload, Val64, Hex.ParseU64, Aggregates.Total;
    Possible(p);
    var rules := ResultRules(r, p);
    FirstThree(rules[0], rules[1], rules[2]);
    FirstTwo(rules[3], rules[4]);
    FirstThree(rules[5], rules[6], rules[7]);
    FirstThree(rules[8], rules[9], rules[10]);
    FirstRest([rules[0], rules[1], rules[2]], [rules[3], rules[4]], [rules[5], rules[6], rules[7]], [rules[8], rules[9], rules[10]]);
  }
}
