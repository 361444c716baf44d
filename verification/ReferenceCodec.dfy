/** A concrete message layer that satisfies `Agreement.ValidCodec`, for any reading of
    workloads, and an engine over it that satisfies `Agreement.ValidEngine`. The bytes are
    not JSON: every character takes three bytes above 127, and small tags close texts and
    announce optional parts. */
module ReferenceCodec {
  import opened Words
  import opened Floats
  import opened Contracts
  import opened Framing
  import opened Protocol
  import opened Server
  import opened Agreement
  import Hex
  import Rounding
  import Scalar

  const CLOSE: Byte := 1
  const NONE: Byte := 2
  const SOME: Byte := 3
  const ODD: Byte := 4

  /** An encoding can be read off the front of any longer text. */
  ghost predicate PrefixFree<T(!new)>(enc: T -> seq<Byte>) {
    forall a: T, b: T, x: seq<Byte>, y: seq<Byte> :: enc(a) + x == enc(b) + y ==> a == b && x == y
  }

  predicate Plain(bytes: seq<Byte>) {
    forall i :: 0 <= i < |bytes| ==> bytes[i] != LF && bytes[i] != CR
  }

  ghost predicate AlwaysPlain<T(!new)>(enc: T -> seq<Byte>) {
    forall v: T :: Plain(enc(v))
  }

  lemma PlainJoin(a: seq<Byte>, b: seq<Byte>)
    requires Plain(a) && Plain(b)
    ensures Plain(a + b)
  {
  }

  lemma PlainIsFrameText(bytes: seq<Byte>)
    requires Plain(bytes)
    ensures FrameText(bytes)
  {
  }

  lemma Regroup(a: seq<Byte>, b: seq<Byte>, c: seq<Byte>)
    ensures (a + b) + c == a + (b + c)
  {
  }

  // -------------------------------------------------------------------- texts

  function EncodeChar(c: char): (bytes: seq<Byte>)
    ensures |bytes| == 3 && forall i :: 0 <= i < 3 ==> bytes[i] >= 128
  {
    var n := c as int;
    [128 + n / 16_384, 128 + (n / 128) % 128, 128 + n % 128]
  }

  lemma CharInjective(a: char, b: char)
    requires EncodeChar(a) == EncodeChar(b)
    ensures a == b
  {
    assert EncodeChar(a)[0] == EncodeChar(b)[0] && EncodeChar(a)[1] == EncodeChar(b)[1] && EncodeChar(a)[2] == EncodeChar(b)[2];
    Digits(a as int);
    Digits(b as int);
  }

  lemma Digits(n: nat)
    ensures n == n / 16_384 * 16_384 + (n / 128) % 128 * 128 + n % 128
  {
    assert n / 16_384 == n / 128 / 128;
  }

  function EncodeText(s: string): (bytes: seq<Byte>)
    ensures |bytes| == 3 * |s| + 1
  {
    if s == "" then [CLOSE] else EncodeChar(s[0]) + EncodeText(s[1..])
  }

  lemma TextStart(s: string)
    ensures EncodeText(s)[0] == CLOSE <==> s == ""
    ensures s != "" ==> EncodeText(s)[..3] == EncodeChar(s[0]) && EncodeText(s)[3..] == EncodeText(s[1..])
  {
  }

  lemma {:induction false} TextPrefix(a: string, b: string, x: seq<Byte>, y: seq<Byte>)
    requires EncodeText(a) + x == EncodeText(b) + y
    ensures a == b && x == y
  {
    hide EncodeText;
    TextStart(a);
    TextStart(b);
    assert (EncodeText(a) + x)[0] == EncodeText(a)[0] && (EncodeText(b) + y)[0] == EncodeText(b)[0];
    if a == "" {
      EmptyText();
      assert (EncodeText(a) + x)[1..] == x && (EncodeText(b) + y)[1..] == y;
    } else {
      assert (EncodeText(a) + x)[..3] == EncodeText(a)[..3] && (EncodeText(b) + y)[..3] == EncodeText(b)[..3];
      assert (EncodeText(a) + x)[3..] == EncodeText(a)[3..] + x && (EncodeText(b) + y)[3..] == EncodeText(b)[3..] + y;
      CharInjective(a[0], b[0]);
      TextPrefix(a[1..], b[1..], x, y);
      assert a == [a[0]] + a[1..] && b == [b[0]] + b[1..];
    }
  }

  lemma EmptyText()
    ensures EncodeText("") == [CLOSE]
  {
  }

  lemma {:induction false} TextPlain(s: string)
    ensures Plain(EncodeText(s))
  {
    if s != "" {
      TextPlain(s[1..]);
      PlainJoin(EncodeChar(s[0]), EncodeText(s[1..]));
    }
  }

  lemma TextGood()
    ensures PrefixFree(EncodeText) && AlwaysPlain(EncodeText)
  {
    forall a: string, b: string, x: seq<Byte>, y: seq<Byte> | EncodeText(a) + x == EncodeText(b) + y
      ensures a == b && x == y
    {
      TextPrefix(a, b, x, y);
    }
    forall v: string
      ensures Plain(EncodeText(v))
    {
      TextPlain(v);
    }
  }

  // -------------------------------------------------------- optional and repeated

  function EncodeOption<T>(enc: T -> seq<Byte>, o: Option<T>): seq<Byte> {
    match o case None => [NONE] case Some(v) => [SOME] + enc(v)
  }

  function EncodeMember<T>(enc: T -> seq<Byte>, m: Member<T>): seq<Byte> {
    match m case Absent => [NONE] case Malformed => [ODD] case Present(v) => [SOME] + enc(v)
  }

  function EncodeSeq<T>(enc: T -> seq<Byte>, s: seq<T>): seq<Byte> {
    if s == [] then [NONE] else [SOME] + enc(s[0]) + EncodeSeq(enc, s[1..])
  }

  lemma Untag(tag: Byte, other: Byte, a: seq<Byte>, b: seq<Byte>, x: seq<Byte>, y: seq<Byte>)
    requires ([tag] + a) + x == ([other] + b) + y
    ensures tag == other && a + x == b + y
  {
    assert (([tag] + a) + x)[0] == tag && (([other] + b) + y)[0] == other;
    assert (([tag] + a) + x)[1..] == a + x && (([other] + b) + y)[1..] == b + y;
  }

  function OptionBody<T>(enc: T -> seq<Byte>, o: Option<T>): (Byte, seq<Byte>) {
    match o case None => (NONE, []) case Some(v) => (SOME, enc(v))
  }

  lemma OptionPrefix<T(!new)>(enc: T -> seq<Byte>, a: Option<T>, b: Option<T>, x: seq<Byte>, y: seq<Byte>)
    requires PrefixFree(enc) && EncodeOption(enc, a) + x == EncodeOption(enc, b) + y
    ensures a == b && x == y
  {
    var (s, p) := OptionBody(enc, a);
    var (t, q) := OptionBody(enc, b);
    assert [s] + p == EncodeOption(enc, a) && [t] + q == EncodeOption(enc, b);
    Untag(s, t, p, q, x, y);
    if a.None? {
      assert p + x == x && q + y == y;
    }
  }

  function MemberBody<T>(enc: T -> seq<Byte>, m: Member<T>): (Byte, seq<Byte>) {
    match m case Absent => (NONE, []) case Malformed => (ODD, []) case Present(v) => (SOME, enc(v))
  }

  lemma MemberPrefix<T(!new)>(enc: T -> seq<Byte>, a: Member<T>, b: Member<T>, x: seq<Byte>, y: seq<Byte>)
    requires PrefixFree(enc) && EncodeMember(enc, a) + x == EncodeMember(enc, b) + y
    ensures a == b && x == y
  {
    var (s, p) := MemberBody(enc, a);
    var (t, q) := MemberBody(enc, b);
    assert [s] + p == EncodeMember(enc, a) && [t] + q == EncodeMember(enc, b);
    Untag(s, t, p, q, x, y);
    if !a.Present? {
      assert p + x == x && q + y == y;
    }
  }

  function SeqBody<T>(enc: T -> seq<Byte>, s: seq<T>): (Byte, seq<Byte>) {
    if s == [] then (NONE, []) else (SOME, enc(s[0]) + EncodeSeq(enc, s[1..]))
  }

  lemma {:induction false} SeqPrefix<T(!new)>(enc: T -> seq<Byte>, a: seq<T>, b: seq<T>, x: seq<Byte>, y: seq<Byte>)
    requires PrefixFree(enc) && EncodeSeq(enc, a) + x == EncodeSeq(enc, b) + y
    ensures a == b && x == y
    decreases |a|
  {
    var (s, p) := SeqBody(enc, a);
    var (t, q) := SeqBody(enc, b);
    SeqTagged(enc, a);
    SeqTagged(enc, b);
    Untag(s, t, p, q, x, y);
    if a == [] {
      assert p + x == x && q + y == y;
    } else {
      var restA, restB := EncodeSeq(enc, a[1..]), EncodeSeq(enc, b[1..]);
      Regroup(enc(a[0]), restA, x);
      Regroup(enc(b[0]), restB, y);
      assert a[0] == b[0] && restA + x == restB + y;
      SeqPrefix(enc, a[1..], b[1..], x, y);
      assert a == [a[0]] + a[1..] && b == [b[0]] + b[1..];
    }
  }

  lemma SeqTagged<T>(enc: T -> seq<Byte>, s: seq<T>)
    ensures EncodeSeq(enc, s) == [SeqBody(enc, s).0] + SeqBody(enc, s).1
  {
    if s != [] {
      Regroup([SOME], enc(s[0]), EncodeSeq(enc, s[1..]));
    }
  }

  lemma {:induction false} SeqPlain<T(!new)>(enc: T -> seq<Byte>, s: seq<T>)
    requires AlwaysPlain(enc)
    ensures Plain(EncodeSeq(enc, s))
  {
    if s != [] {
      SeqPlain(enc, s[1..]);
      PlainJoin([SOME], enc(s[0]));
      PlainJoin([SOME] + enc(s[0]), EncodeSeq(enc, s[1..]));
    }
  }

  lemma {:induction false} SeqSize<T>(enc: T -> seq<Byte>, s: seq<T>, size: nat)
    requires forall i :: 0 <= i < |s| ==> |enc(s[i])| <= size
    ensures |EncodeSeq(enc, s)| <= |s| * (size + 1) + 1
  {
    if s != [] {
      SeqSize(enc, s[1..], size);
      assert |s| * (size + 1) == (|s| - 1) * (size + 1) + (size + 1);
    }
  }

  /** The first part of a joined encoding comes off. */
  lemma Peel<T(!new)>(enc: T -> seq<Byte>, a: T, b: T, p: seq<Byte>, q: seq<Byte>, x: seq<Byte>, y: seq<Byte>)
    requires PrefixFree(enc) && (enc(a) + p) + x == (enc(b) + q) + y
    ensures a == b && p + x == q + y
  {
    Regroup(enc(a), p, x);
    Regroup(enc(b), q, y);
  }

  lemma OptionPlain<T(!new)>(enc: T -> seq<Byte>, o: Option<T>)
    requires AlwaysPlain(enc)
    ensures Plain(EncodeOption(enc, o))
  {
    if o.Some? {
      PlainJoin([SOME], enc(o.value));
    }
  }

  lemma MemberPlain<T(!new)>(enc: T -> seq<Byte>, m: Member<T>)
    requires AlwaysPlain(enc)
    ensures Plain(EncodeMember(enc, m))
  {
    if m.Present? {
      PlainJoin([SOME], enc(m.value));
    }
  }

  // ----------------------------------------------------------------- messages

  function EncodeOptText(o: Option<string>): seq<Byte> {
    EncodeOption(EncodeText, o)
  }

  function EncodeTexts(s: seq<string>): seq<Byte> {
    EncodeSeq(EncodeText, s)
  }

  function EncodeOptTexts(o: Option<seq<string>>): seq<Byte> {
    EncodeOption(EncodeTexts, o)
  }

  function EncodeMemberText(m: Member<string>): seq<Byte> {
    EncodeMember(EncodeText, m)
  }

  lemma OptTextGood()
    ensures PrefixFree(EncodeOptText) && AlwaysPlain(EncodeOptText)
  {
    TextGood();
    forall a: Option<string>, b: Option<string>, x: seq<Byte>, y: seq<Byte> | EncodeOptText(a) + x == EncodeOptText(b) + y
      ensures a == b && x == y
    {
      OptionPrefix(EncodeText, a, b, x, y);
    }
    forall o: Option<string>
      ensures Plain(EncodeOptText(o))
    {
      OptionPlain(EncodeText, o);
    }
  }

  lemma TextsGood()
    ensures PrefixFree(EncodeTexts) && AlwaysPlain(EncodeTexts)
  {
    TextGood();
    forall a: seq<string>, b: seq<string>, x: seq<Byte>, y: seq<Byte> | EncodeTexts(a) + x == EncodeTexts(b) + y
      ensures a == b && x == y
    {
      SeqPrefix(EncodeText, a, b, x, y);
    }
    forall s: seq<string>
      ensures Plain(EncodeTexts(s))
    {
      SeqPlain(EncodeText, s);
    }
  }

  lemma OptTextsGood()
    ensures PrefixFree(EncodeOptTexts) && AlwaysPlain(EncodeOptTexts)
  {
    TextsGood();
    forall a: Option<seq<string>>, b: Option<seq<string>>, x: seq<Byte>, y: seq<Byte> | EncodeOptTexts(a) + x == EncodeOptTexts(b) + y
      ensures a == b && x == y
    {
      OptionPrefix(EncodeTexts, a, b, x, y);
    }
    forall o: Option<seq<string>>
      ensures Plain(EncodeOptTexts(o))
    {
      OptionPlain(EncodeTexts, o);
    }
  }

  lemma MemberTextGood()
    ensures PrefixFree(EncodeMemberText) && AlwaysPlain(EncodeMemberText)
  {
    TextGood();
    forall a: Member<string>, b: Member<string>, x: seq<Byte>, y: seq<Byte> | EncodeMemberText(a) + x == EncodeMemberText(b) + y
      ensures a == b && x == y
    {
      MemberPrefix(EncodeText, a, b, x, y);
    }
    forall m: Member<string>
      ensures Plain(EncodeMemberText(m))
    {
      MemberPlain(EncodeText, m);
    }
  }

  function EncodeFloat(f: WireFloat): seq<Byte> {
    EncodeText(f.encoding) + EncodeText(f.bits)
  }

  function EncodeOptFloat(o: Option<WireFloat>): seq<Byte> {
    EncodeOption(EncodeFloat, o)
  }

  lemma FloatGood()
    ensures PrefixFree(EncodeFloat) && AlwaysPlain(EncodeFloat)
  {
    TextGood();
    hide EncodeText, Plain;
    forall a: WireFloat, b: WireFloat, x: seq<Byte>, y: seq<Byte> | EncodeFloat(a) + x == EncodeFloat(b) + y
      ensures a == b && x == y
    {
      Peel(EncodeText, a.encoding, b.encoding, EncodeText(a.bits), EncodeText(b.bits), x, y);
    }
    forall f: WireFloat
      ensures Plain(EncodeFloat(f))
    {
      PlainJoin(EncodeText(f.encoding), EncodeText(f.bits));
    }
  }

  lemma OptFloatGood()
    ensures PrefixFree(EncodeOptFloat) && AlwaysPlain(EncodeOptFloat)
  {
    FloatGood();
    forall a: Option<WireFloat>, b: Option<WireFloat>, x: seq<Byte>, y: seq<Byte> | EncodeOptFloat(a) + x == EncodeOptFloat(b) + y
      ensures a == b && x == y
    {
      OptionPrefix(EncodeFloat, a, b, x, y);
    }
    forall o: Option<WireFloat>
      ensures Plain(EncodeOptFloat(o))
    {
      OptionPlain(EncodeFloat, o);
    }
  }

  function IssueTail(i: WireIssue): seq<Byte> {
    EncodeOptText(i.path) + EncodeText(i.message)
  }

  function EncodeIssue(i: WireIssue): seq<Byte> {
    EncodeText(i.code) + IssueTail(i)
  }

  function EncodeIssues(s: seq<WireIssue>): seq<Byte> {
    EncodeSeq(EncodeIssue, s)
  }

  function EncodeMemberIssues(m: Member<seq<WireIssue>>): seq<Byte> {
    EncodeMember(EncodeIssues, m)
  }

  lemma IssueGood()
    ensures PrefixFree(EncodeIssue) && AlwaysPlain(EncodeIssue)
  {
    TextGood();
    OptTextGood();
    hide EncodeText, EncodeOptText, Plain;
    forall a: WireIssue, b: WireIssue, x: seq<Byte>, y: seq<Byte> | EncodeIssue(a) + x == EncodeIssue(b) + y
      ensures a == b && x == y
    {
      Peel(EncodeText, a.code, b.code, IssueTail(a), IssueTail(b), x, y);
      Peel(EncodeOptText, a.path, b.path, EncodeText(a.message), EncodeText(b.message), x, y);
    }
    forall i: WireIssue
      ensures Plain(EncodeIssue(i))
    {
      PlainJoin(EncodeOptText(i.path), EncodeText(i.message));
      PlainJoin(EncodeText(i.code), IssueTail(i));
    }
  }

  lemma IssuesGood()
    ensures PrefixFree(EncodeIssues) && AlwaysPlain(EncodeIssues)
  {
    IssueGood();
    forall a: seq<WireIssue>, b: seq<WireIssue>, x: seq<Byte>, y: seq<Byte> | EncodeIssues(a) + x == EncodeIssues(b) + y
      ensures a == b && x == y
    {
      SeqPrefix(EncodeIssue, a, b, x, y);
    }
    forall s: seq<WireIssue>
      ensures Plain(EncodeIssues(s))
    {
      SeqPlain(EncodeIssue, s);
    }
  }

  lemma MemberIssuesGood()
    ensures PrefixFree(EncodeMemberIssues) && AlwaysPlain(EncodeMemberIssues)
  {
    IssuesGood();
    forall a: Member<seq<WireIssue>>, b: Member<seq<WireIssue>>, x: seq<Byte>, y: seq<Byte> | EncodeMemberIssues(a) + x == EncodeMemberIssues(b) + y
      ensures a == b && x == y
    {
      MemberPrefix(EncodeIssues, a, b, x, y);
    }
    forall m: Member<seq<WireIssue>>
      ensures Plain(EncodeMemberIssues(m))
    {
      MemberPlain(EncodeIssues, m);
    }
  }

  function ErrorTail(e: WireError): seq<Byte> {
    EncodeText(e.message) + EncodeMemberIssues(e.issues)
  }

  function EncodeError(e: WireError): seq<Byte> {
    EncodeText(e.code) + ErrorTail(e)
  }

  function EncodeMemberError(m: Member<WireError>): seq<Byte> {
    EncodeMember(EncodeError, m)
  }

  lemma ErrorGood()
    ensures PrefixFree(EncodeError) && AlwaysPlain(EncodeError)
  {
    TextGood();
    MemberIssuesGood();
    hide EncodeText, EncodeMemberIssues, Plain;
    forall a: WireError, b: WireError, x: seq<Byte>, y: seq<Byte> | EncodeError(a) + x == EncodeError(b) + y
      ensures a == b && x == y
    {
      Peel(EncodeText, a.code, b.code, ErrorTail(a), ErrorTail(b), x, y);
      Peel(EncodeText, a.message, b.message, EncodeMemberIssues(a.issues), EncodeMemberIssues(b.issues), x, y);
    }
    forall e: WireError
      ensures Plain(EncodeError(e))
    {
      PlainJoin(EncodeText(e.message), EncodeMemberIssues(e.issues));
      PlainJoin(EncodeText(e.code), ErrorTail(e));
    }
  }

  lemma MemberErrorGood()
    ensures PrefixFree(EncodeMemberError) && AlwaysPlain(EncodeMemberError)
  {
    ErrorGood();
    forall a: Member<WireError>, b: Member<WireError>, x: seq<Byte>, y: seq<Byte> | EncodeMemberError(a) + x == EncodeMemberError(b) + y
      ensures a == b && x == y
    {
      MemberPrefix(EncodeError, a, b, x, y);
    }
    forall m: Member<WireError>
      ensures Plain(EncodeMemberError(m))
    {
      MemberPlain(EncodeError, m);
    }
  }

  function ResultTail3(r: WireResult): seq<Byte> {
    EncodeOptText(r.acceptedIdSum) + EncodeOptText(r.acceptedIdXor)
  }

  function ResultTail2(r: WireResult): seq<Byte> {
    EncodeOptTexts(r.histogram) + ResultTail3(r)
  }

  function ResultTail1(r: WireResult): seq<Byte> {
    EncodeOptFloat(r.scoreSum) + ResultTail2(r)
  }

  function ResultTail(r: WireResult): seq<Byte> {
    EncodeOptText(r.acceptedCount) + ResultTail1(r)
  }

  function EncodeResult(r: WireResult): seq<Byte> {
    EncodeText(r.schemaVersion) + ResultTail(r)
  }

  function EncodeMemberResult(m: Member<WireResult>): seq<Byte> {
    EncodeMember(EncodeResult, m)
  }

  lemma ResultPrefix(a: WireResult, b: WireResult, x: seq<Byte>, y: seq<Byte>)
    requires EncodeResult(a) + x == EncodeResult(b) + y
    ensures a == b && x == y
  {
    TextGood();
    OptTextGood();
    OptTextsGood();
    OptFloatGood();
    hide EncodeText, EncodeOptText, EncodeOptTexts, EncodeOptFloat;
    Peel(EncodeText, a.schemaVersion, b.schemaVersion, ResultTail(a), ResultTail(b), x, y);
    Peel(EncodeOptText, a.acceptedCount, b.acceptedCount, ResultTail1(a), ResultTail1(b), x, y);
    Peel(EncodeOptFloat, a.scoreSum, b.scoreSum, ResultTail2(a), ResultTail2(b), x, y);
    Peel(EncodeOptTexts, a.histogram, b.histogram, ResultTail3(a), ResultTail3(b), x, y);
    Peel(EncodeOptText, a.acceptedIdSum, b.acceptedIdSum, EncodeOptText(a.acceptedIdXor), EncodeOptText(b.acceptedIdXor), x, y);
  }

  lemma ResultPlain(r: WireResult)
    ensures Plain(EncodeResult(r))
  {
    TextGood();
    OptTextGood();
    OptTextsGood();
    OptFloatGood();
    hide EncodeText, EncodeOptText, EncodeOptTexts, EncodeOptFloat, Plain;
    PlainJoin(EncodeOptText(r.acceptedIdSum), EncodeOptText(r.acceptedIdXor));
    PlainJoin(EncodeOptTexts(r.histogram), ResultTail3(r));
    PlainJoin(EncodeOptFloat(r.scoreSum), ResultTail2(r));
    PlainJoin(EncodeOptText(r.acceptedCount), ResultTail1(r));
    PlainJoin(EncodeText(r.schemaVersion), ResultTail(r));
  }

  lemma MemberResultGood()
    ensures PrefixFree(EncodeMemberResult) && AlwaysPlain(EncodeMemberResult)
  {
    hide EncodeResult, Plain;
    forall a: WireResult, b: WireResult, x: seq<Byte>, y: seq<Byte> | EncodeResult(a) + x == EncodeResult(b) + y
      ensures a == b && x == y
    {
      ResultPrefix(a, b, x, y);
    }
    forall r: WireResult
      ensures Plain(EncodeResult(r))
    {
      ResultPlain(r);
    }
    forall a: Member<WireResult>, b: Member<WireResult>, x: seq<Byte>, y: seq<Byte> | EncodeMemberResult(a) + x == EncodeMemberResult(b) + y
      ensures a == b && x == y
    {
      MemberPrefix(EncodeResult, a, b, x, y);
    }
    forall m: Member<WireResult>
      ensures Plain(EncodeMemberResult(m))
    {
      MemberPlain(EncodeResult, m);
    }
  }

  // ---------------------------------------------------------------- envelopes

  function EnvelopeTail4(e: Envelope): seq<Byte> {
    EncodeMemberResult(e.result) + EncodeMemberError(e.error)
  }

  function EnvelopeTail3(e: Envelope): seq<Byte> {
    EncodeMemberText(e.execution) + EnvelopeTail4(e)
  }

  function EnvelopeTail2(e: Envelope): seq<Byte> {
    EncodeOptText(e.workloadName) + EnvelopeTail3(e)
  }

  function EnvelopeTail1(e: Envelope): seq<Byte> {
    EncodeText(e.kind) + EnvelopeTail2(e)
  }

  function EnvelopeTail(e: Envelope): seq<Byte> {
    EncodeText(e.requestId) + EnvelopeTail1(e)
  }

  function EncodeEnvelope(e: Envelope): seq<Byte> {
    EncodeText(e.schemaVersion) + EnvelopeTail(e)
  }

  lemma EnvelopeInjective(a: Envelope, b: Envelope)
    requires EncodeEnvelope(a) == EncodeEnvelope(b)
    ensures a == b
  {
    TextGood();
    OptTextGood();
    MemberTextGood();
    MemberResultGood();
    MemberErrorGood();
    hide EncodeText, EncodeOptText, EncodeMemberText, EncodeMemberResult, EncodeMemberError;
    assert EncodeEnvelope(a) + [] == EncodeEnvelope(b) + [];
    Peel(EncodeText, a.schemaVersion, b.schemaVersion, EnvelopeTail(a), EnvelopeTail(b), [], []);
    Peel(EncodeText, a.requestId, b.requestId, EnvelopeTail1(a), EnvelopeTail1(b), [], []);
    Peel(EncodeText, a.kind, b.kind, EnvelopeTail2(a), EnvelopeTail2(b), [], []);
    Peel(EncodeOptText, a.workloadName, b.workloadName, EnvelopeTail3(a), EnvelopeTail3(b), [], []);
    Peel(EncodeMemberText, a.execution, b.execution, EnvelopeTail4(a), EnvelopeTail4(b), [], []);
    Peel(EncodeMemberResult, a.result, b.result, EncodeMemberError(a.error), EncodeMemberError(b.error), [], []);
  }

  lemma EnvelopePlain(e: Envelope)
    ensures Plain(EncodeEnvelope(e))
  {
    TextGood();
    OptTextGood();
    MemberTextGood();
    MemberResultGood();
    MemberErrorGood();
    hide EncodeText, EncodeOptText, EncodeMemberText, EncodeMemberResult, EncodeMemberError, Plain;
    PlainJoin(EncodeMemberResult(e.result), EncodeMemberError(e.error));
    PlainJoin(EncodeMemberText(e.execution), EnvelopeTail4(e));
    PlainJoin(EncodeOptText(e.workloadName), EnvelopeTail3(e));
    PlainJoin(EncodeText(e.kind), EnvelopeTail2(e));
    PlainJoin(EncodeText(e.requestId), EnvelopeTail1(e));
    PlainJoin(EncodeText(e.schemaVersion), EnvelopeTail(e));
  }

  // -------------------------------------------------------------------- sizes

  lemma OptTextSize(o: Option<string>, size: nat)
    requires o.Some? ==> |o.value| <= size
    ensures |EncodeOptText(o)| <= 3 * size + 2
  {
  }

  lemma HexSize(s: string)
    requires HexText(s)
    ensures |s| == 18
  {
  }

  lemma BinsSize(bins: seq<string>)
    requires |bins| <= MAX_CATEGORIES && forall i :: 0 <= i < |bins| ==> HexText(bins[i])
    ensures |EncodeOptTexts(Some(bins))| <= 3_700_000
  {
    hide HexText, EncodeText;
    forall i | 0 <= i < |bins|
      ensures |EncodeText(bins[i])| <= 55
    {
      HexSize(bins[i]);
    }
    SeqSize(EncodeText, bins, 55);
    assert |bins| * 56 <= MAX_CATEGORIES * 56;
  }

  lemma ResultSize(r: WireResult)
    requires SmallResult(r)
    ensures |EncodeResult(r)| <= 3_710_000
  {
    hide HexText, EncodeText, EncodeOptText, EncodeOptTexts;
    HexSize(r.acceptedCount.value);
    HexSize(r.scoreSum.value.bits);
    HexSize(r.acceptedIdSum.value);
    HexSize(r.acceptedIdXor.value);
    OptTextSize(r.acceptedCount, 18);
    OptTextSize(r.acceptedIdSum, 18);
    OptTextSize(r.acceptedIdXor, 18);
    BinsSize(r.histogram.value);
    ConstantSizes();
  }

  lemma ConstantSizes()
    ensures |RESULT_SCHEMA| <= 100 && |FLOAT_ENCODING| <= 100 && |JOB_RESULT_SCHEMA| <= 100 && |BACKEND_SCALAR| <= 100
    ensures |ERROR_CODES| == 3 && |ERROR_CODES[0]| <= 100 && |ERROR_CODES[1]| <= 100 && |ERROR_CODES[2]| <= 100
  {
  }

  lemma IssueSize(i: WireIssue)
    requires SmallIssue(i)
    ensures |EncodeIssue(i)| <= 3_500
  {
    OptTextSize(i.path, 64);
  }

  lemma ErrorSize(e: WireError)
    requires SmallError(e)
    ensures |EncodeError(e)| <= 75_000
  {
    hide SmallIssue, EncodeIssue, EncodeText;
    ConstantSizes();
    if e.issues.Present? {
      forall i | 0 <= i < |e.issues.value|
        ensures |EncodeIssue(e.issues.value[i])| <= 3_500
      {
        IssueSize(e.issues.value[i]);
      }
      SeqSize(EncodeIssue, e.issues.value, 3_500);
      assert |e.issues.value| * 3_501 <= MAX_ISSUES * 3_501;
    }
  }

  lemma HeaderSize(e: Envelope)
    requires SmallHeader(e)
    ensures |e.schemaVersion| <= 100 && |e.requestId| <= 100 && |e.kind| <= 100
    ensures |EncodeOptText(e.workloadName)| <= 1_000 && |EncodeMemberText(e.execution)| <= 1_000
  {
    ConstantSizes();
    OptTextSize(e.workloadName, MAX_NAME_CHARS);
  }

  lemma EnvelopeSize(e: Envelope)
    requires SmallEnvelope(e)
    ensures |EncodeEnvelope(e)| <= MAX_FRAME_BYTES
  {
    hide SmallHeader, SmallResult, SmallError, EncodeText, EncodeOptText, EncodeMemberText, EncodeResult, EncodeError;
    HeaderSize(e);
    if e.result.Present? {
      ResultSize(e.result.value);
    }
    if e.error.Present? {
      ErrorSize(e.error.value);
    }
  }

  // ----------------------------------------------------------------- requests

  function EncodeJob(j: Job): seq<Byte> {
    EncodeText(j.backend) + EncodeText(j.workload)
  }

  function EncodeOptJob(o: Option<Job>): seq<Byte> {
    EncodeOption(EncodeJob, o)
  }

  function RequestTail1(r: Request): seq<Byte> {
    EncodeText(r.kind) + EncodeOptJob(r.job)
  }

  function RequestTail(r: Request): seq<Byte> {
    EncodeText(r.requestId) + RequestTail1(r)
  }

  function EncodeRequest(r: Request): seq<Byte> {
    EncodeText(r.schemaVersion) + RequestTail(r)
  }

  lemma OptJobGood()
    ensures PrefixFree(EncodeOptJob) && AlwaysPlain(EncodeOptJob)
  {
    TextGood();
    hide EncodeText, Plain;
    forall a: Job, b: Job, x: seq<Byte>, y: seq<Byte> | EncodeJob(a) + x == EncodeJob(b) + y
      ensures a == b && x == y
    {
      Peel(EncodeText, a.backend, b.backend, EncodeText(a.workload), EncodeText(b.workload), x, y);
    }
    forall j: Job
      ensures Plain(EncodeJob(j))
    {
      PlainJoin(EncodeText(j.backend), EncodeText(j.workload));
    }
    forall a: Option<Job>, b: Option<Job>, x: seq<Byte>, y: seq<Byte> | EncodeOptJob(a) + x == EncodeOptJob(b) + y
      ensures a == b && x == y
    {
      OptionPrefix(EncodeJob, a, b, x, y);
    }
    forall o: Option<Job>
      ensures Plain(EncodeOptJob(o))
    {
      OptionPlain(EncodeJob, o);
    }
  }

  lemma RequestInjective(a: Request, b: Request)
    requires EncodeRequest(a) == EncodeRequest(b)
    ensures a == b
  {
    TextGood();
    OptJobGood();
    hide EncodeText, EncodeOptJob;
    assert EncodeRequest(a) + [] == EncodeRequest(b) + [];
    Peel(EncodeText, a.schemaVersion, b.schemaVersion, RequestTail(a), RequestTail(b), [], []);
    Peel(EncodeText, a.requestId, b.requestId, RequestTail1(a), RequestTail1(b), [], []);
    Peel(EncodeText, a.kind, b.kind, EncodeOptJob(a.job), EncodeOptJob(b.job), [], []);
  }

  lemma RequestPlain(r: Request)
    ensures Plain(EncodeRequest(r))
  {
    TextGood();
    OptJobGood();
    hide EncodeText, EncodeOptJob, Plain;
    PlainJoin(EncodeText(r.kind), EncodeOptJob(r.job));
    PlainJoin(EncodeText(r.requestId), RequestTail1(r));
    PlainJoin(EncodeText(r.schemaVersion), RequestTail(r));
  }

  // ----------------------------------------------------------------- the layer

  /** The value an encoding came from, if any. */
  ghost function DecodeWith<T(!new)>(enc: T -> seq<Byte>, bytes: seq<Byte>): Option<T> {
    if exists v: T :: enc(v) == bytes then
      var v: T :| enc(v) == bytes;
      Some(v)
    else None
  }

  lemma DecodesBack<T(!new)>(enc: T -> seq<Byte>, v: T)
    requires forall w: T :: enc(w) == enc(v) ==> w == v
    ensures DecodeWith(enc, enc(v)) == Some(v)
  {
  }

  /** What the controller reads off a workload, taken from the engine's reading of it. */
  function ProjectionOf(w: WorkloadSpec): Projection {
    Projection(w.schemaVersion, w.name, w.dataset.recordCount, w.dataset.categoryCount,
               if w.dataset.distribution.Uniform? then "uniform" else "hotspot")
  }

  function Project(decodeWorkload: RawJson -> Option<WorkloadSpec>, raw: RawJson): Option<Projection> {
    match decodeWorkload(raw) case None => None case Some(w) => Some(ProjectionOf(w))
  }

  ghost function Reference(decodeWorkload: RawJson -> Option<WorkloadSpec>): Codec {
    Codec(EncodeRequest, bytes => DecodeWith(EncodeRequest, bytes),
          EncodeEnvelope, bytes => DecodeWith(EncodeEnvelope, bytes),
          raw => raw, raw => Project(decodeWorkload, raw), decodeWorkload)
  }

  /** The hypothesis about the message layer is satisfied, whatever workloads it reads. */
  lemma ReferenceIsValid(decodeWorkload: RawJson -> Option<WorkloadSpec>)
    ensures ValidCodec(Reference(decodeWorkload))
  {
    hide EncodeRequest, EncodeEnvelope, SmallEnvelope, FrameText, ControllerRequest, DecodeWith;
    var codec := Reference(decodeWorkload);
    forall r: Request
      ensures codec.decodeRequest(codec.encodeRequest(r)) == Some(r) && FrameText(codec.encodeRequest(r))
    {
      forall w: Request | EncodeRequest(w) == EncodeRequest(r)
        ensures w == r
      {
        RequestInjective(w, r);
      }
      DecodesBack(EncodeRequest, r);
      RequestPlain(r);
      PlainIsFrameText(EncodeRequest(r));
    }
    forall e: Envelope
      ensures codec.decodeResponse(codec.encodeResponse(e)) == Some(e) && FrameText(codec.encodeResponse(e))
      ensures SmallEnvelope(e) ==> |codec.encodeResponse(e)| <= MAX_FRAME_BYTES
    {
      forall w: Envelope | EncodeEnvelope(w) == EncodeEnvelope(e)
        ensures w == e
      {
        EnvelopeInjective(w, e);
      }
      DecodesBack(EncodeEnvelope, e);
      EnvelopePlain(e);
      PlainIsFrameText(EncodeEnvelope(e));
      if SmallEnvelope(e) {
        EnvelopeSize(e);
      }
    }
  }

  /** An engine over that layer, with rounding toward negative infinity. */
  ghost function ReferenceEngine(decodeWorkload: RawJson -> Option<WorkloadSpec>,
                                 fromI32: int -> F32, add32: (F32, F32) -> F32, mul32: (F32, F32) -> F32): Engine {
    Engine(Reference(decodeWorkload), Rounding.Downward(fromI32, add32, mul32),
           text => text, raw => raw, _ => "invalid", _ => "failed")
  }

  /** Everything the composed results assume of an engine holds of an actual one. */
  lemma EnginesExist(decodeWorkload: RawJson -> Option<WorkloadSpec>,
                     fromI32: int -> F32, add32: (F32, F32) -> F32, mul32: (F32, F32) -> F32)
    ensures ValidEngine(ReferenceEngine(decodeWorkload, fromI32, add32, mul32))
    ensures ReferenceEngine(decodeWorkload, fromI32, add32, mul32).codec.decodeWorkload == decodeWorkload
  {
    hide ValidCodec, Ieee, Reference, Rounding.Downward;
    ReferenceIsValid(decodeWorkload);
    Rounding.DownwardIsIeee(fromI32, add32, mul32);
    ReadsWorkloads(decodeWorkload);
  }

  lemma ReadsWorkloads(decodeWorkload: RawJson -> Option<WorkloadSpec>)
    ensures Reference(decodeWorkload).decodeWorkload == decodeWorkload
  {
  }
}
