/** Newline-delimited frames: one specification over bytes, and the two chunked readers
    that implement it. The payload limit excludes the LF or CRLF terminator. */
module Framing {
  import opened Words

  type Byte = b: nat | b < 256

  const LF: Byte := 10
  const CR: Byte := 13

  /** How a byte stream ends once its bytes are used up. */
  datatype End = Eof | Failed

  datatype Frame = Payload(bytes: seq<Byte>) | TooLarge | Truncated | CleanEof | ReadFailed

  /** Index of the first newline, or the length when there is none. */
  function LineEnd(data: seq<Byte>): (n: nat)
    ensures n <= |data| && LF !in data[..n]
    ensures n < |data| ==> data[n] == LF
  {
    if data == [] || data[0] == LF then 0 else
      var m := LineEnd(data[1..]);
      assert data[..m + 1] == [data[0]] + data[1..][..m];
      m + 1
  }

  /** A stretch of bytes without a newline. */
  predicate OneLine(bytes: seq<Byte>) {
    LF !in bytes
  }

  predicate HasNewline(data: seq<Byte>) {
    LineEnd(data) < |data|
  }

  function EndsWithCr(line: seq<Byte>): bool {
    line != [] && line[|line| - 1] == CR
  }

  function StripCr(line: seq<Byte>): seq<Byte> {
    if EndsWithCr(line) then line[..|line| - 1] else line
  }

  /** What the controller's reader returns for a stream holding `data`. */
  function GoFrame(limit: nat, data: seq<Byte>, end: End): Frame {
    var line := data[..LineEnd(data)];
    if |StripCr(line)| > limit then TooLarge
    else if HasNewline(data) then Payload(StripCr(line))
    else if end.Failed? then ReadFailed
    else if line == [] then CleanEof
    else Truncated
  }

  /** What the engine's reader returns: a final unterminated line is a frame, kept as is. */
  function RustFrame(limit: nat, data: seq<Byte>, end: End): Frame {
    var line := data[..LineEnd(data)];
    if |StripCr(line)| > limit then TooLarge
    else if HasNewline(data) then Payload(StripCr(line))
    else if end.Failed? then ReadFailed
    else if |line| > limit then TooLarge
    else if line == [] then CleanEof
    else Payload(line)
  }

  // ------------------------------------------------------------ facts on lines

  lemma {:induction false} LineEndUnique(data: seq<Byte>, n: nat)
    requires n <= |data| && LF !in data[..n] && (n < |data| ==> data[n] == LF)
    ensures LineEnd(data) == n
  {
  }

  lemma LineEndAfter(a: seq<Byte>, b: seq<Byte>)
    requires OneLine(a)
    ensures LineEnd(a + b) == |a| + LineEnd(b)
  {
    var n := |a| + LineEnd(b);
    assert (a + b)[..n] == a + b[..LineEnd(b)];
    LineEndUnique(a + b, n);
  }

  /** A payload survives its own terminator, whatever follows and however it ends. */
  predicate Framable(payload: seq<Byte>, limit: nat) {
    OneLine(payload) && !EndsWithCr(payload) && |payload| <= limit
  }

  lemma FramedPayload(limit: nat, payload: seq<Byte>, rest: seq<Byte>, end: End)
    requires Framable(payload, limit)
    ensures LineEnd(payload + [LF] + rest) == |payload|
    ensures GoFrame(limit, payload + [LF] + rest, end) == Payload(payload)
    ensures RustFrame(limit, payload + [LF] + rest, end) == Payload(payload)
  {
    assert payload + [LF] + rest == payload + ([LF] + rest);
    LineEndAfter(payload, [LF] + rest);
    assert (payload + [LF] + rest)[..|payload|] == payload;
  }

  /** The two readers agree on every terminated line; at the end of the input they differ
      exactly on a non-empty unterminated line that the size rule does not reject. */
  lemma ReadersDiffer(limit: nat, data: seq<Byte>, end: End)
    ensures GoFrame(limit, data, end) != RustFrame(limit, data, end)
            <==> !HasNewline(data) && end.Eof? && data != [] && |StripCr(data)| <= limit
    ensures GoFrame(limit, data, end) != RustFrame(limit, data, end) ==>
              && GoFrame(limit, data, end) == Truncated
              && RustFrame(limit, data, end) == if |data| <= limit then Payload(data) else TooLarge
  {
    if !HasNewline(data) {
      assert data[..LineEnd(data)] == data;
    }
  }

  // ------------------------------------------------------------ chunked input

  datatype SliceError = NoError | BufferFull | AtEof | Broken

  /** A buffered stream that hands out its bytes in chunks of its own choosing. */
  class ByteSource {
    var rest: seq<Byte>
    const end: End

    constructor (data: seq<Byte>, end: End)
      ensures rest == data && this.end == end
    {
      rest := data;
      this.end := end;
    }

    /** `bufio.Reader.ReadSlice('\n')`. */
    method ReadSlice() returns (fragment: seq<Byte>, err: SliceError)
      modifies this
      ensures old(rest) == fragment + rest
      ensures match err
              case NoError => |fragment| == LineEnd(old(rest)) + 1
              case BufferFull => 0 < |fragment| <= LineEnd(old(rest))
              case AtEof => end.Eof? && rest == [] && !HasNewline(old(rest))
              case Broken => end.Failed? && rest == [] && !HasNewline(old(rest))
    {
      var n := LineEnd(rest);
      var full: bool := *;
      if full && n > 0 {
        var size: nat :| 0 < size <= n;
        fragment, err := rest[..size], BufferFull;
      } else if n < |rest| {
        fragment, err := rest[..n + 1], NoError;
      } else {
        fragment, err := rest, if end.Eof? then AtEof else Broken;
      }
      rest := rest[|fragment|..];
    }

    /** `BufRead::fill_buf`: some non-empty prefix, nothing at the end, or an error there. */
    method FillBuf() returns (available: seq<Byte>, failed: bool)
      ensures available <= rest
      ensures available == [] <==> rest == []
      ensures failed <==> rest == [] && end.Failed?
    {
      failed := rest == [] && end.Failed?;
      if rest == [] {
        available := [];
      } else {
        var size: nat :| 0 < size <= |rest|;
        available := rest[..size];
      }
    }

    method Consume(n: nat)
      requires n <= |rest|
      modifies this
      ensures rest == old(rest)[n..]
    {
      rest := rest[n..];
    }
  }

  /** Bytes buffered so far are newline-free, and only a pending CR may exceed the limit. */
  ghost predicate Buffered(payload: seq<Byte>, limit: nat) {
    OneLine(payload) && |StripCr(payload)| <= limit
  }

  lemma OversizedLine(limit: nat, seen: seq<Byte>, rest: seq<Byte>, end: End)
    requires OneLine(seen) && |StripCr(seen)| > limit
    ensures GoFrame(limit, seen + rest, end) == TooLarge
    ensures RustFrame(limit, seen + rest, end) == TooLarge
  {
    LineEndAfter(seen, rest);
    var line := (seen + rest)[..LineEnd(seen + rest)];
    assert line == seen + rest[..LineEnd(rest)];
    assert rest[..LineEnd(rest)] == [] ==> line == seen;
  }

  /** Both readers on a line that is followed by its newline. */
  lemma TerminatedLine(limit: nat, line: seq<Byte>, rest: seq<Byte>, end: End)
    requires OneLine(line)
    ensures var data := line + [LF] + rest;
            && LineEnd(data) == |line| && data[|line| + 1..] == rest
            && GoFrame(limit, data, end) == RustFrame(limit, data, end)
            && GoFrame(limit, data, end) == if |StripCr(line)| > limit then TooLarge else Payload(StripCr(line))
  {
    var data := line + [LF] + rest;
    assert data == line + ([LF] + rest);
    LineEndAfter(line, [LF] + rest);
    assert data[..|line|] == line;
  }

  /** Both readers on a last line without a newline. */
  lemma UnterminatedLine(limit: nat, line: seq<Byte>, end: End)
    requires OneLine(line)
    ensures LineEnd(line) == |line|
    ensures GoFrame(limit, line, end)
         == if |StripCr(line)| > limit then TooLarge
            else if end.Failed? then ReadFailed else if line == [] then CleanEof else Truncated
    ensures RustFrame(limit, line, end)
         == if |StripCr(line)| > limit then TooLarge
            else if end.Failed? then ReadFailed else if |line| > limit then TooLarge else if line == [] then CleanEof else Payload(line)
  {
    assert line[..|line|] == line;
    LineEndUnique(line, |line|);
  }

  /** What is left of a fragment once its newline is cut off. */
  lemma FragmentBody(seen: seq<Byte>, before: seq<Byte>, whole: seq<Byte>, after: seq<Byte>, err: SliceError, body: seq<Byte>)
    requires before == whole + after
    requires body == if whole != [] && whole[|whole| - 1] == LF then whole[..|whole| - 1] else whole
    requires match err
             case NoError => |whole| == LineEnd(before) + 1
             case BufferFull => 0 < |whole| <= LineEnd(before)
             case AtEof => after == [] && !HasNewline(before)
             case Broken => after == [] && !HasNewline(before)
    ensures OneLine(body)
    ensures whole != [] && whole[|whole| - 1] == LF <==> err == NoError
    ensures seen + before == if err == NoError then (seen + body) + [LF] + after else (seen + body) + after
    ensures body <= before && seen + before == (seen + body) + before[|body|..]
    ensures after == [] ==> (seen + body) + after == seen + body
  {
    var n := LineEnd(before);
    if err == NoError {
      assert whole == before[..n + 1];
      assert whole[n] == LF;
      assert body == before[..n];
    } else {
      assert whole == before[..|whole|];
      assert forall k :: 0 <= k < |whole| ==> before[..n][k] == whole[k];
    }
  }

  /** The inline test for a terminator that may still turn out to be CRLF. */
  function PossibleCrlf(limit: nat, payload: seq<Byte>, fragment: seq<Byte>): bool {
    |payload| + |fragment| == limit + 1
    && ((fragment != [] && fragment[|fragment| - 1] == CR) || (fragment == [] && EndsWithCr(payload)))
  }

  lemma StartsEmpty(limit: nat)
    ensures Buffered([], limit)
  {
  }

  /** Growing the buffer keeps it bounded unless the line is oversized. */
  lemma Grow(limit: nat, payload: seq<Byte>, fragment: seq<Byte>)
    requires Buffered(payload, limit) && OneLine(fragment)
    ensures OneLine(payload + fragment)
    ensures |payload| + |fragment| > limit && !PossibleCrlf(limit, payload, fragment)
            <==> |StripCr(payload + fragment)| > limit
    ensures Buffered(payload + fragment, limit) ==> |payload + fragment| <= limit + 1
  {
    if fragment == [] {
      assert payload + fragment == payload;
    } else {
      assert (payload + fragment)[|payload + fragment| - 1] == fragment[|fragment| - 1];
    }
  }

  /** Both readers drop one CR and apply the limit once the newline is reached. */
  method FinishLine(line: seq<Byte>, limit: nat) returns (frame: Frame)
    ensures frame == if |StripCr(line)| > limit then TooLarge else Payload(StripCr(line))
  {
    var payload := line;
    if payload != [] && payload[|payload| - 1] == CR {
      payload := payload[..|payload| - 1];
    }
    if |payload| > limit {
      return TooLarge;
    }
    return Payload(payload);
  }

  /** `readFrame`: the outcome depends on the bytes alone, never on the chunks. */
  method GoReadFrame(reader: ByteSource, limit: nat) returns (frame: Frame, ghost peak: nat)
    modifies reader
    ensures frame == GoFrame(limit, old(reader.rest), reader.end)
    ensures frame.Payload? ==> reader.rest == old(reader.rest)[LineEnd(old(reader.rest)) + 1..]
    ensures peak <= limit + 1
  {
    hide GoFrame, RustFrame, PossibleCrlf, OneLine, StripCr, EndsWithCr, LineEnd;
    StartsEmpty(limit);
    var payload: seq<Byte> := [];
    ghost var data := reader.rest;
    peak := 0;
    while true
      invariant data == payload + reader.rest && Buffered(payload, limit) && peak <= limit + 1
      decreases |reader.rest|
    {
      ghost var before := reader.rest;
      var fragment, err := reader.ReadSlice();
      ghost var whole := fragment;
      var hasNewline := fragment != [] && fragment[|fragment| - 1] == LF;
      if hasNewline {
        fragment := fragment[..|fragment| - 1];
      }
      FragmentBody(payload, before, whole, reader.rest, err, fragment);
      Grow(limit, payload, fragment);
      if |payload| + |fragment| > limit && !PossibleCrlf(limit, payload, fragment) {
        OversizedLine(limit, payload + fragment, before[|fragment|..], reader.end);
        return TooLarge, peak;
      }
      payload := payload + fragment;
      peak := if |payload| > peak then |payload| else peak;
      if hasNewline {
        TerminatedLine(limit, payload, reader.rest, reader.end);
        frame := FinishLine(payload, limit);
        return;
      }
      if err == BufferFull {
        continue;
      }
      UnterminatedLine(limit, payload, reader.end);
      if err == AtEof && payload != [] {
        return Truncated, peak;
      }
      return if err == AtEof then CleanEof else ReadFailed, peak;
    }
  }

  lemma Cut(seen: seq<Byte>, s: seq<Byte>, n: nat)
    requires n <= |s|
    ensures seen + s == (seen + s[..n]) + s[n..]
    ensures n < |s| && s[n] == LF ==> seen + s == (seen + s[..n]) + [LF] + s[n + 1..]
  {
  }

  lemma AvailableLine(seen: seq<Byte>, available: seq<Byte>, rest: seq<Byte>)
    requires available <= rest
    ensures var n := LineEnd(available);
            && OneLine(available[..n])
            && seen + rest == (seen + available[..n]) + rest[n..]
            && (n < |available| ==> seen + rest == (seen + available[..n]) + [LF] + rest[n + 1..])
  {
    hide LineEnd, OneLine;
    var n := LineEnd(available);
    assert available[..n] == rest[..n];
    LineBefore(available);
    Cut(seen, rest, n);
  }

  lemma LineBefore(data: seq<Byte>)
    ensures OneLine(data[..LineEnd(data)]) && (LineEnd(data) < |data| ==> data[LineEnd(data)] == LF)
  {
  }

  /** The end of the engine's input. */
  method FinishInput(buffer: seq<Byte>, limit: nat, end: End, failed: bool) returns (frame: Frame)
    requires Buffered(buffer, limit) && (failed <==> end.Failed?)
    ensures frame == RustFrame(limit, buffer, end) && !HasNewline(buffer)
  {
    hide RustFrame, GoFrame, LineEnd, StripCr, OneLine;
    UnterminatedLine(limit, buffer, end);
    if failed {
      return ReadFailed;
    }
    if |buffer| > limit {
      return TooLarge;
    }
    return if buffer == [] then CleanEof else Payload(buffer);
  }

  /** `read_frame`: the same rule with a different end of input. */
  method RustReadFrame(input: ByteSource, limit: nat) returns (frame: Frame, ghost peak: nat)
    modifies input
    ensures frame == RustFrame(limit, old(input.rest), input.end)
    ensures frame.Payload? ==>
              input.rest == if HasNewline(old(input.rest)) then old(input.rest)[LineEnd(old(input.rest)) + 1..] else []
    ensures peak <= limit + 1
  {
    hide GoFrame, RustFrame, PossibleCrlf, OneLine, StripCr, EndsWithCr, LineEnd;
    StartsEmpty(limit);
    var buffer: seq<Byte> := [];
    ghost var data := input.rest;
    peak := 0;
    while true
      invariant data == buffer + input.rest && Buffered(buffer, limit) && peak <= limit + 1
      decreases |input.rest|
    {
      var available, failed := input.FillBuf();
      if available == [] {
        assert data == buffer;
        frame := FinishInput(buffer, limit, input.end, failed);
        return;
      }
      var payloadLength := LineEnd(available);
      var newline := payloadLength < |available|;
      ghost var before := input.rest;
      AvailableLine(buffer, available, before);
      var line := available[..payloadLength];
      Grow(limit, buffer, line);
      if |buffer| + payloadLength > limit && !PossibleCrlf(limit, buffer, line) {
        OversizedLine(limit, buffer + line, before[payloadLength..], input.end);
        return TooLarge, peak;
      }
      buffer := buffer + line;
      peak := if |buffer| > peak then |buffer| else peak;
      input.Consume(payloadLength + if newline then 1 else 0);
      if newline {
        TerminatedLine(limit, buffer, input.rest, input.end);
        frame := FinishLine(buffer, limit);
        return;
      }
    }
  }
}
