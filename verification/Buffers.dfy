/** Bounded capture of process output, and the single optional line ending of one-shot
    requests and responses. */
module Buffers {
  import opened Words
  import opened Framing

  function Min(a: nat, b: nat): nat {
    if a <= b then a else b
  }

  function LastBytes(s: seq<Byte>, n: nat): seq<Byte> {
    s[|s| - Min(n, |s|)..]
  }

  function FirstBytes(s: seq<Byte>, n: nat): seq<Byte> {
    s[..Min(n, |s|)]
  }

  function Concat(writes: seq<seq<Byte>>): seq<Byte> {
    if writes == [] then [] else Concat(writes[..|writes| - 1]) + writes[|writes| - 1]
  }

  lemma LastOfLast(a: seq<Byte>, b: seq<Byte>, n: nat)
    ensures LastBytes(LastBytes(a, n) + b, n) == LastBytes(a + b, n)
  {
    var tail := LastBytes(a, n);
    var whole, cut := a + b, tail + b;
    assert cut == whole[|a| - |tail|..];
  }

  lemma FirstOfFirst(a: seq<Byte>, b: seq<Byte>, n: nat)
    ensures FirstBytes(FirstBytes(a, n) + b, n) == FirstBytes(a + b, n)
  {
    var head := FirstBytes(a, n);
    if |a| <= n {
      assert head == a;
    } else {
      assert FirstBytes(head + b, n) == head;
    }
  }

  /** The diagnostic tail: a fixed array, shifted in place. */
  class TailBuffer {
    const capacity: nat
    const data: array<Byte>
    var length: nat

    ghost predicate Valid()
      reads this
    {
      length <= data.Length == capacity
    }

    ghost function Contents(): seq<Byte>
      reads this, data
      requires Valid()
    {
      data[..length]
    }

    constructor (capacity: nat)
      ensures Valid() && Contents() == [] && this.capacity == capacity && fresh(data)
    {
      this.capacity := capacity;
      data := new Byte[capacity];
      length := 0;
    }

    /** `copy(bytes, bytes[overflow:])` and shortening. */
    method DropFront(overflow: nat)
      requires Valid() && overflow <= length
      modifies this`length, data
      ensures Valid() && Contents() == old(Contents())[overflow..]
    {
      for k := 0 to length - overflow
        invariant length == old(length)
        invariant forall i :: 0 <= i < k ==> data[i] == old(data[i + overflow])
        invariant forall i :: k <= i < data.Length ==> data[i] == old(data[i])
      {
        data[k] := data[k + overflow];
      }
      length := length - overflow;
    }

    method Append(bytes: seq<Byte>)
      requires Valid() && length + |bytes| <= capacity
      modifies this`length, data
      ensures Valid() && Contents() == old(Contents()) + bytes
    {
      for k := 0 to |bytes|
        invariant length == old(length)
        invariant forall i :: 0 <= i < length ==> data[i] == old(data[i])
        invariant forall i :: 0 <= i < k ==> data[length + i] == bytes[i]
      {
        data[length + k] := bytes[k];
      }
      length := length + |bytes|;
    }

    /** Every write is reported complete; what stays is the end of everything written. */
    method Write(bytes: seq<Byte>) returns (written: nat)
      requires Valid()
      modifies this`length, data
      ensures Valid() && written == |bytes|
      ensures Contents() == LastBytes(old(Contents()) + bytes, capacity)
    {
      ghost var before := Contents();
      if |bytes| >= capacity {
        length := 0;
        Append(bytes[|bytes| - capacity..]);
        assert (before + bytes)[|before + bytes| - capacity..] == bytes[|bytes| - capacity..];
        return |bytes|;
      }
      var overflow: int := length + |bytes| - capacity;
      if overflow > 0 {
        DropFront(overflow);
      }
      Append(bytes);
      assert overflow > 0 ==> before[overflow..] + bytes == (before + bytes)[overflow..];
      return |bytes|;
    }
  }

  /** The captured response: a fixed array that keeps only what fits. */
  class CappedBuffer {
    const limit: nat
    const data: array<Byte>
    var length: nat
    var overflowed: bool

    ghost predicate Valid()
      reads this
    {
      length <= data.Length == limit
    }

    ghost function Contents(): seq<Byte>
      reads this, data
      requires Valid()
    {
      data[..length]
    }

    constructor (limit: nat)
      ensures Valid() && Contents() == [] && !overflowed && this.limit == limit && fresh(data)
    {
      this.limit := limit;
      data := new Byte[limit];
      length, overflowed := 0, false;
    }

    method Write(bytes: seq<Byte>) returns (written: nat)
      requires Valid()
      modifies this`length, this`overflowed, data
      ensures Valid() && written == |bytes|
      ensures Contents() == FirstBytes(old(Contents()) + bytes, limit)
      ensures overflowed <==> old(overflowed) || |old(Contents())| + |bytes| > limit
    {
      ghost var before := Contents();
      var remaining := limit - length;
      var kept := 0;
      if remaining > 0 {
        kept := Min(remaining, |bytes|);
        for k := 0 to kept
          invariant length == old(length) && overflowed == old(overflowed)
          invariant forall i :: 0 <= i < length ==> data[i] == old(data[i])
          invariant forall i :: 0 <= i < k ==> data[length + i] == bytes[i]
        {
          data[length + k] := bytes[k];
        }
        length := length + kept;
      }
      if |bytes| - kept != 0 {
        overflowed := true;
      }
      assert Contents() == before + bytes[..kept];
      assert FirstBytes(before + bytes, limit) == before + bytes[..kept];
      return |bytes|;
    }
  }

  /** What a run of writes leaves in each buffer. */
  function Tailed(writes: seq<seq<Byte>>, capacity: nat): seq<Byte> {
    if writes == [] then [] else LastBytes(Tailed(writes[..|writes| - 1], capacity) + writes[|writes| - 1], capacity)
  }

  datatype Capture = Capture(kept: seq<Byte>, overflowed: bool)

  function Captured(writes: seq<seq<Byte>>, limit: nat): Capture {
    if writes == [] then Capture([], false) else
      var before, bytes := Captured(writes[..|writes| - 1], limit), writes[|writes| - 1];
      Capture(FirstBytes(before.kept + bytes, limit), before.overflowed || |before.kept| + |bytes| > limit)
  }

  /** However the output is cut into writes, the tail is the last bytes of all of it. */
  lemma {:induction false} TailOfEverything(writes: seq<seq<Byte>>, capacity: nat)
    ensures Tailed(writes, capacity) == LastBytes(Concat(writes), capacity)
  {
    if writes != [] {
      TailOfEverything(writes[..|writes| - 1], capacity);
      LastOfLast(Concat(writes[..|writes| - 1]), writes[|writes| - 1], capacity);
    }
  }

  /** However the output is cut into writes, the capture is its first bytes, and overflow is
      set exactly when something was dropped. */
  lemma {:induction false} CaptureOfEverything(writes: seq<seq<Byte>>, limit: nat)
    ensures Captured(writes, limit).kept == FirstBytes(Concat(writes), limit)
    ensures Captured(writes, limit).overflowed <==> |Concat(writes)| > limit
  {
    if writes != [] {
      CaptureOfEverything(writes[..|writes| - 1], limit);
      FirstOfFirst(Concat(writes[..|writes| - 1]), writes[|writes| - 1], limit);
    }
  }

  method FeedTail(writes: seq<seq<Byte>>, capacity: nat) returns (tail: TailBuffer)
    ensures tail.Valid() && tail.Contents() == LastBytes(Concat(writes), capacity)
  {
    tail := new TailBuffer(capacity);
    for i := 0 to |writes|
      invariant fresh(tail) && fresh(tail.data) && tail.Valid() && tail.capacity == capacity
      invariant tail.Contents() == Tailed(writes[..i], capacity)
    {
      var _ := tail.Write(writes[i]);
      assert writes[..i + 1][..i] == writes[..i];
    }
    assert writes[..|writes|] == writes;
    TailOfEverything(writes, capacity);
  }

  method FeedCapture(writes: seq<seq<Byte>>, limit: nat) returns (buffer: CappedBuffer)
    ensures buffer.Valid() && buffer.Contents() == FirstBytes(Concat(writes), limit)
    ensures buffer.overflowed <==> |Concat(writes)| > limit
  {
    buffer := new CappedBuffer(limit);
    for i := 0 to |writes|
      invariant fresh(buffer) && fresh(buffer.data) && buffer.Valid() && buffer.limit == limit
      invariant Capture(buffer.Contents(), buffer.overflowed) == Captured(writes[..i], limit)
    {
      var _ := buffer.Write(writes[i]);
      assert writes[..i + 1][..i] == writes[..i];
    }
    assert writes[..|writes|] == writes;
    CaptureOfEverything(writes, limit);
  }

  // ------------------------------------------------------------ one-shot payloads

  datatype PayloadError = PayloadTooLarge | ExtraTerminator

  predicate EndsBare(p: seq<Byte>) {
    p == [] || (p[|p| - 1] != CR && p[|p| - 1] != LF)
  }

  /** A payload with at most one line ending after it. */
  predicate Terminated(raw: seq<Byte>, p: seq<Byte>) {
    raw == p || raw == p + [LF] || raw == p + [CR, LF]
  }

  /** The response payload as the controller takes it from the captured output. */
  function ResponsePayload(raw: seq<Byte>, limit: nat): Result<seq<Byte>, PayloadError> {
    if |raw| > limit + 2 then Err(PayloadTooLarge)
    else
      var cut := if raw != [] && raw[|raw| - 1] == LF then StripCr(raw[..|raw| - 1]) else raw;
      if !EndsBare(cut) then Err(ExtraTerminator)
      else if |cut| > limit then Err(PayloadTooLarge)
      else Ok(cut)
  }

  /** Exactly the bare payloads within the limit are accepted, with none or one LF or CRLF
      after them, and the payload is then unique. */
  lemma PayloadExact(raw: seq<Byte>, p: seq<Byte>, limit: nat)
    ensures ResponsePayload(raw, limit) == Ok(p) <==> Terminated(raw, p) && EndsBare(p) && |p| <= limit
  {
    if Terminated(raw, p) && EndsBare(p) && |p| <= limit {
      if raw == p + [LF] {
        assert raw[..|raw| - 1] == p;
      } else if raw == p + [CR, LF] {
        assert raw[..|raw| - 1] == p + [CR];
        assert StripCr(p + [CR]) == p;
      }
    }
    if ResponsePayload(raw, limit).Ok? && raw != [] && raw[|raw| - 1] == LF {
      var line := raw[..|raw| - 1];
      assert raw == line + [LF];
      if EndsWithCr(line) {
        assert raw == line[..|line| - 1] + [CR, LF];
      }
    }
  }

  method OneShotResponsePayload(raw: seq<Byte>, limit: nat) returns (payload: Result<seq<Byte>, PayloadError>)
    ensures payload == ResponsePayload(raw, limit)
  {
    if |raw| > limit + 2 {
      return Err(PayloadTooLarge);
    }
    var bytes := raw;
    if |bytes| != 0 && bytes[|bytes| - 1] == LF {
      bytes := bytes[..|bytes| - 1];
      if |bytes| != 0 && bytes[|bytes| - 1] == CR {
        bytes := bytes[..|bytes| - 1];
      }
    }
    if |bytes| != 0 && (bytes[|bytes| - 1] == CR || bytes[|bytes| - 1] == LF) {
      return Err(ExtraTerminator);
    }
    if |bytes| > limit {
      return Err(PayloadTooLarge);
    }
    return Ok(bytes);
  }

  /** A growable byte vector. */
  class ByteVector {
    var bytes: seq<Byte>

    constructor (bytes: seq<Byte>)
      ensures this.bytes == bytes
    {
      this.bytes := bytes;
    }

    method Pop()
      requires bytes != []
      modifies this
      ensures bytes == old(bytes)[..|old(bytes)| - 1]
    {
      bytes := bytes[..|bytes| - 1];
    }

    /** `strip_optional_line_ending`. */
    method StripOptionalLineEnding() returns (outcome: Result<(), PayloadError>)
      modifies this
      ensures bytes == if old(bytes) != [] && old(bytes)[|old(bytes)| - 1] == LF then StripCr(old(bytes)[..|old(bytes)| - 1]) else old(bytes)
      ensures outcome == if EndsBare(bytes) then Ok(()) else Err(ExtraTerminator)
    {
      if bytes != [] && bytes[|bytes| - 1] == LF {
        Pop();
        if bytes != [] && bytes[|bytes| - 1] == CR {
          Pop();
        }
      }
      if bytes != [] && (bytes[|bytes| - 1] == CR || bytes[|bytes| - 1] == LF) {
        return Err(ExtraTerminator);
      }
      return Ok(());
    }
  }

  /** The engine reads at most three bytes more than a payload may have, then applies the
      same rule, so both sides accept the same bytes with the same payload. */
  method ReadRequest(input: seq<Byte>, limit: nat) returns (payload: Result<seq<Byte>, PayloadError>)
    ensures payload == ResponsePayload(input, limit)
  {
    var vector := new ByteVector(FirstBytes(input, limit + 3));
    assert |input| <= limit + 2 ==> vector.bytes == input;
    if |vector.bytes| > limit + 2 {
      return Err(PayloadTooLarge);
    }
    var outcome := vector.StripOptionalLineEnding();
    if outcome.Err? {
      return Err(outcome.error);
    }
    if |vector.bytes| > limit {
      return Err(PayloadTooLarge);
    }
    return Ok(vector.bytes);
  }

  /** The controller's capture of any output refuses overflow and otherwise reads the whole. */
  method ReadResponse(writes: seq<seq<Byte>>, limit: nat) returns (payload: Result<seq<Byte>, PayloadError>)
    ensures payload == ResponsePayload(Concat(writes), limit)
  {
    var buffer := FeedCapture(writes, limit + 3);
    assert |Concat(writes)| <= limit + 3 ==> buffer.Contents() == Concat(writes);
    if buffer.overflowed {
      return Err(PayloadTooLarge);
    }
    payload := OneShotResponsePayload(buffer.data[..buffer.length], limit);
  }
}
