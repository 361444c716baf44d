/** The duplicate-key scan that precedes every strict JSON decoding, over a token stream. */
module JsonCheck {
  import opened Words

  datatype Token = OpenObject | CloseObject | OpenArray | CloseArray | Text(s: string) | Scalar(literal: string) | Malformed

  datatype ScanError = TokenFailed | DuplicateKey(key: string) | KeyNotText | MissingClose | UnexpectedDelimiter | TrailingValue

  // ------------------------------------------------------------- JSON values

  datatype Tree = TextValue(s: string) | ScalarValue(literal: string) | Object(members: Members) | Array(elements: Elements)
  datatype Members = NoMember | Member(key: string, value: Tree, rest: Members)
  datatype Elements = NoElement | Element(value: Tree, rest: Elements)

  function Print(tree: Tree): (tokens: seq<Token>)
    ensures tokens != [] && !tokens[0].CloseObject? && !tokens[0].CloseArray?
  {
    match tree
    case TextValue(s) => [Text(s)]
    case ScalarValue(literal) => [Scalar(literal)]
    case Object(members) => [OpenObject] + PrintMembers(members) + [CloseObject]
    case Array(elements) => [OpenArray] + PrintElements(elements) + [CloseArray]
  }

  function PrintMembers(members: Members): seq<Token> {
    match members
    case NoMember => []
    case Member(key, value, rest) => [Text(key)] + Print(value) + PrintMembers(rest)
  }

  function PrintElements(elements: Elements): seq<Token> {
    match elements
    case NoElement => []
    case Element(value, rest) => Print(value) + PrintElements(rest)
  }

  function Keys(members: Members): seq<string> {
    match members
    case NoMember => []
    case Member(key, _, rest) => [key] + Keys(rest)
  }

  predicate Unique(keys: seq<string>) {
    forall i, j :: 0 <= i < j < |keys| ==> keys[i] != keys[j]
  }

  /** Names are unique within every object, at every depth (section 4 of RFC 8259). */
  predicate Distinct(tree: Tree) {
    match tree
    case Object(members) => Unique(Keys(members)) && DistinctMembers(members)
    case Array(elements) => DistinctElements(elements)
    case _ => true
  }

  predicate DistinctMembers(members: Members) {
    match members
    case NoMember => true
    case Member(_, value, rest) => Distinct(value) && DistinctMembers(rest)
  }

  predicate DistinctElements(elements: Elements) {
    match elements
    case NoElement => true
    case Element(value, rest) => Distinct(value) && DistinctElements(rest)
  }

  // ---------------------------------------------------------------- the scan

  datatype Scanned = Scanned(outcome: Result<(), ScanError>, rest: seq<Token>)

  predicate More(tokens: seq<Token>) {
    tokens != [] && !tokens[0].CloseObject? && !tokens[0].CloseArray?
  }

  function ScanValue(tokens: seq<Token>): (r: Scanned)
    ensures |r.rest| <= |tokens| && (r.outcome.Ok? ==> |r.rest| < |tokens|)
    decreases |tokens|, 0
  {
    if tokens == [] then Scanned(Err(TokenFailed), [])
    else match tokens[0]
         case Malformed => Scanned(Err(TokenFailed), tokens)
         case OpenObject => ScanMembers(tokens[1..], {})
         case OpenArray => ScanElements(tokens[1..])
         case CloseObject => Scanned(Err(UnexpectedDelimiter), tokens[1..])
         case CloseArray => Scanned(Err(UnexpectedDelimiter), tokens[1..])
         case _ => Scanned(Ok(()), tokens[1..])
  }

  /** The rest of an object whose keys so far are `seen`. */
  function ScanMembers(tokens: seq<Token>, seen: set<string>): (r: Scanned)
    ensures |r.rest| <= |tokens| && (r.outcome.Ok? ==> |r.rest| < |tokens|)
    decreases |tokens|, 1
  {
    if !More(tokens) then
      if tokens == [] then Scanned(Err(TokenFailed), [])
      else Scanned(if tokens[0].CloseObject? then Ok(()) else Err(MissingClose), tokens[1..])
    else if tokens[0].Malformed? then Scanned(Err(TokenFailed), tokens)
    else if !tokens[0].Text? then Scanned(Err(KeyNotText), tokens[1..])
    else if tokens[0].s in seen then Scanned(Err(DuplicateKey(tokens[0].s)), tokens[1..])
    else
      var value := ScanValue(tokens[1..]);
      if value.outcome.Err? then value else ScanMembers(value.rest, seen + {tokens[0].s})
  }

  function ScanElements(tokens: seq<Token>): (r: Scanned)
    ensures |r.rest| <= |tokens| && (r.outcome.Ok? ==> |r.rest| < |tokens|)
    decreases |tokens|, 1
  {
    if !More(tokens) then
      if tokens == [] then Scanned(Err(TokenFailed), [])
      else Scanned(if tokens[0].CloseArray? then Ok(()) else Err(MissingClose), tokens[1..])
    else
      var value := ScanValue(tokens);
      if value.outcome.Err? then value else ScanElements(value.rest)
  }

  function RejectDuplicates(tokens: seq<Token>): Result<(), ScanError> {
    var scanned := ScanValue(tokens);
    if scanned.outcome.Err? then scanned.outcome
    else if scanned.rest == [] then Ok(())
    else if scanned.rest[0].Malformed? then Err(TokenFailed)
    else Err(TrailingValue)
  }

  // --------------------------------------------------- the shared decoder

  class Decoder {
    var tokens: seq<Token>

    constructor (tokens: seq<Token>)
      ensures this.tokens == tokens
    {
      this.tokens := tokens;
    }

    /** The next token, or none at the end of the input and at malformed text. */
    method Next() returns (token: Option<Token>)
      modifies this
      ensures match token
              case Some(t) => old(tokens) == [t] + tokens && !t.Malformed?
              case None => tokens == old(tokens) && (tokens == [] || tokens[0].Malformed?)
    {
      if tokens == [] || tokens[0].Malformed? {
        return None;
      }
      token := Some(tokens[0]);
      tokens := tokens[1..];
    }

    /** `scanJSONValue`, consuming the shared decoder; every recursion takes a token first. */
    method ScanJsonValue() returns (outcome: Result<(), ScanError>)
      modifies this
      ensures Scanned(outcome, tokens) == ScanValue(old(tokens))
      decreases |tokens|
    {
      var all := tokens;
      var token := Next();
      if token.None? {
        return Err(TokenFailed);
      }
      assert tokens == all[1..];
      match token.value {
        case OpenObject =>
          var keys: set<string> := {};
          while More(tokens)
            invariant |tokens| < |all| && ScanMembers(tokens, keys) == ScanMembers(all[1..], {})
            decreases |tokens|
          {
            var before := tokens;
            var keyToken := Next();
            if keyToken.None? {
              return Err(TokenFailed);
            }
            assert tokens == before[1..];
            if !keyToken.value.Text? {
              return Err(KeyNotText);
            }
            var key := keyToken.value.s;
            if key in keys {
              return Err(DuplicateKey(key));
            }
            keys := keys + {key};
            outcome := ScanJsonValue();
            if outcome.Err? {
              return;
            }
          }
          outcome := Close(CloseObject);
        case OpenArray =>
          while More(tokens)
            invariant |tokens| < |all| && ScanElements(tokens) == ScanElements(all[1..])
            decreases |tokens|
          {
            outcome := ScanJsonValue();
            if outcome.Err? {
              return;
            }
          }
          outcome := Close(CloseArray);
        case CloseObject => return Err(UnexpectedDelimiter);
        case CloseArray => return Err(UnexpectedDelimiter);
        case _ => return Ok(());
      }
    }

    method Close(delimiter: Token) returns (outcome: Result<(), ScanError>)
      requires !More(tokens)
      modifies this
      ensures old(tokens) == [] ==> tokens == [] && outcome == Err(TokenFailed)
      ensures old(tokens) != [] ==> tokens == old(tokens)[1..] && outcome == if old(tokens)[0] == delimiter then Ok(()) else Err(MissingClose)
    {
      var end := Next();
      if end.None? {
        return Err(TokenFailed);
      }
      return if end.value == delimiter then Ok(()) else Err(MissingClose);
    }

    method RejectDuplicateObjectKeys() returns (outcome: Result<(), ScanError>)
      modifies this
      ensures outcome == RejectDuplicates(old(tokens))
    {
      outcome := ScanJsonValue();
      if outcome.Err? {
        return;
      }
      var all := tokens;
      var trailing := Next();
      if trailing.Some? {
        return Err(TrailingValue);
      }
      return if all == [] then Ok(()) else Err(TokenFailed);
    }
  }

  // ---------------------------------------------------------------- soundness

  predicate Refused(r: Scanned) {
    r.outcome.Err? && r.outcome.error.DuplicateKey?
  }

  /** Over a printed value and anything after it, the scan takes exactly that value's tokens
      when names are unique at every depth, and reports a duplicate otherwise. */
  lemma {:induction false} ScanPrinted(tree: Tree, suffix: seq<Token>)
    ensures Distinct(tree) ==> ScanValue(Print(tree) + suffix) == Scanned(Ok(()), suffix)
    ensures !Distinct(tree) ==> Refused(ScanValue(Print(tree) + suffix))
    decreases tree
  {
    var tokens := Print(tree) + suffix;
    match tree
    case Object(members) =>
      ScanPrintedMembers(members, suffix, {});
      assert tokens[1..] == PrintMembers(members) + [CloseObject] + suffix;
    case Array(elements) =>
      ScanPrintedElements(elements, suffix);
      assert tokens[1..] == PrintElements(elements) + [CloseArray] + suffix;
    case _ =>
      assert tokens[1..] == suffix;
  }

  predicate Fresh(members: Members, seen: set<string>) {
    Unique(Keys(members)) && forall i :: 0 <= i < |Keys(members)| ==> Keys(members)[i] !in seen
  }

  lemma FreshStep(key: string, value: Tree, rest: Members, seen: set<string>)
    ensures Fresh(Member(key, value, rest), seen) <==> key !in seen && Fresh(rest, seen + {key})
  {
    var keys := Keys(Member(key, value, rest));
    assert keys[0] == key && forall i :: 0 < i < |keys| ==> keys[i] == Keys(rest)[i - 1];
    if key !in seen && Fresh(rest, seen + {key}) {
      forall i, j | 0 <= i < j < |keys|
        ensures keys[i] != keys[j]
      {
        assert keys[j] == Keys(rest)[j - 1];
      }
    }
    if Fresh(Member(key, value, rest), seen) {
      forall i | 0 <= i < |Keys(rest)|
        ensures Keys(rest)[i] !in seen + {key}
      {
        assert keys[i + 1] == Keys(rest)[i];
      }
      forall i, j | 0 <= i < j < |Keys(rest)|
        ensures Keys(rest)[i] != Keys(rest)[j]
      {
        assert keys[i + 1] == Keys(rest)[i] && keys[j + 1] == Keys(rest)[j];
      }
    }
  }

  lemma {:induction false} ScanPrintedMembers(members: Members, suffix: seq<Token>, seen: set<string>)
    ensures var r := ScanMembers(PrintMembers(members) + [CloseObject] + suffix, seen);
            if Fresh(members, seen) && DistinctMembers(members) then r == Scanned(Ok(()), suffix) else Refused(r)
    decreases members
  {
    var tokens := PrintMembers(members) + [CloseObject] + suffix;
    match members
    case NoMember =>
      assert tokens[1..] == suffix;
    case Member(key, value, rest) =>
      var after := PrintMembers(rest) + [CloseObject] + suffix;
      assert tokens[1..] == Print(value) + after;
      FreshStep(key, value, rest, seen);
      ScanPrinted(value, after);
      ScanPrintedMembers(rest, suffix, seen + {key});
  }

  lemma {:induction false} ScanPrintedElements(elements: Elements, suffix: seq<Token>)
    ensures var r := ScanElements(PrintElements(elements) + [CloseArray] + suffix);
            if DistinctElements(elements) then r == Scanned(Ok(()), suffix) else Refused(r)
    decreases elements
  {
    var tokens := PrintElements(elements) + [CloseArray] + suffix;
    match elements
    case NoElement =>
      assert tokens[1..] == suffix;
    case Element(value, rest) =>
      var after := PrintElements(rest) + [CloseArray] + suffix;
      assert tokens == Print(value) + after;
      ScanPrinted(value, after);
      ScanPrintedElements(rest, suffix);
  }

  /** Conversely, whatever the scan takes is the printed form of one value with unique names. */
  lemma {:induction false} ScanTakesTree(tokens: seq<Token>) returns (tree: Tree)
    requires ScanValue(tokens).outcome.Ok?
    ensures tokens == Print(tree) + ScanValue(tokens).rest && Distinct(tree)
    decreases |tokens|, 0
  {
    match tokens[0]
    case OpenObject =>
      var members := ScanTakesMembers(tokens[1..], {});
      tree := Object(members);
    case OpenArray =>
      var elements := ScanTakesElements(tokens[1..]);
      tree := Array(elements);
    case Text(s) => tree := TextValue(s);
    case Scalar(literal) => tree := ScalarValue(literal);
  }

  lemma {:induction false} ScanTakesMembers(tokens: seq<Token>, seen: set<string>) returns (members: Members)
    requires ScanMembers(tokens, seen).outcome.Ok?
    ensures tokens == PrintMembers(members) + [CloseObject] + ScanMembers(tokens, seen).rest
    ensures Fresh(members, seen) && DistinctMembers(members)
    decreases |tokens|, 1
  {
    if !More(tokens) {
      members := NoMember;
    } else {
      var key := tokens[0].s;
      var value := ScanTakesTree(tokens[1..]);
      var rest := ScanTakesMembers(ScanValue(tokens[1..]).rest, seen + {key});
      members := Member(key, value, rest);
      FreshStep(key, value, rest, seen);
      MembersJoin(tokens, key, value, rest, ScanMembers(tokens, seen).rest);
    }
  }

  lemma MembersJoin(tokens: seq<Token>, key: string, value: Tree, rest: Members, suffix: seq<Token>)
    requires tokens != [] && tokens[0] == Text(key)
    requires tokens[1..] == Print(value) + (PrintMembers(rest) + [CloseObject] + suffix)
    ensures tokens == PrintMembers(Member(key, value, rest)) + [CloseObject] + suffix
  {
    assert tokens == [tokens[0]] + tokens[1..];
  }

  lemma {:induction false} ScanTakesElements(tokens: seq<Token>) returns (elements: Elements)
    requires ScanElements(tokens).outcome.Ok?
    ensures tokens == PrintElements(elements) + [CloseArray] + ScanElements(tokens).rest && DistinctElements(elements)
    decreases |tokens|, 1
  {
    if !More(tokens) {
      elements := NoElement;
    } else {
      var value := ScanTakesTree(tokens);
      var rest := ScanTakesElements(ScanValue(tokens).rest);
      elements := Element(value, rest);
    }
  }

  /** The check passes exactly the printed forms of single values with unique names. */
  lemma AcceptsExactlyDistinct(tokens: seq<Token>)
    ensures RejectDuplicates(tokens) == Ok(()) <==> exists tree :: tokens == Print(tree) && Distinct(tree)
  {
    if RejectDuplicates(tokens) == Ok(()) {
      var tree := ScanTakesTree(tokens);
      assert tokens == Print(tree);
    }
    forall tree | tokens == Print(tree) && Distinct(tree)
      ensures RejectDuplicates(tokens) == Ok(())
    {
      ScanPrinted(tree, []);
      assert Print(tree) + [] == tokens;
    }
  }
}
