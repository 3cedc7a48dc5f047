/** Framing of the errors that a child reports before exec (src/err_pipe.rs). */
module ErrorPipe {
  type Byte = n: int | 0 <= n < 256

  const MAX_LEN := 65535

  type Message = m: seq<Byte> | |m| <= MAX_LEN

  /** What the parent accumulates: a message, or its own failure to read one. */
  datatype Entry = Error(text: seq<Byte>) | ReadFailed

  /** A message on the wire: its length as two bytes, the low one first, then its bytes. */
  function Encode(m: Message): (s: seq<Byte>)
    ensures |s| == 2 + |m|
  {
    [|m| % 256, |m| / 256] + m
  }

  function EncodeAll(ms: seq<Message>): seq<Byte> {
    if ms == [] then [] else EncodeAll(ms[..|ms| - 1]) + Encode(ms[|ms| - 1])
  }

  function Length(low: Byte, high: Byte): nat {
    low as int + 256 * (high as int)
  }

  /** What a stream holds, read from its start: a length cut short is the end. */
  function Decode(s: seq<Byte>): seq<Entry> {
    if |s| < 2 then []
    else
      var len := Length(s[0], s[1]);
      if |s| - 2 < len then [ReadFailed] else [Error(s[2..2 + len])] + Decode(s[2 + len..])
  }

  /** The child's end. */
  class ErrorWriter {
    var written: seq<Byte>

    constructor ()
      ensures written == []
    {
      written := [];
    }

    /** `write`; a message that is too long fails the assertion, and nothing is written. */
    method Write(error: seq<Byte>) returns (ok: bool)
      modifies this
      ensures ok == (|error| <= MAX_LEN)
      ensures written == if ok then old(written) + Encode(error) else old(written)
      ensures ok <==> |error| <= 65535
      ensures ok ==> written == old(written) + [|error| % 256, |error| / 256] + error
    {
      if |error| > MAX_LEN {
        return false;
      }
      var len := new Byte[2];
      len[0], len[1] := |error| % 256, |error| / 256;
      written := written + len[..];
      written := written + error;
      ok := true;
    }
  }

  /** `get_errors`, on all that the child has written. */
  method GetErrors(stream: seq<Byte>) returns (errors: seq<Entry>)
    ensures errors == Decode(stream)
  {
    errors := [];
    var pos := 0;
    while |stream| - pos >= 2
      invariant ReadSoFar(stream, pos, errors)
    {
      var len := Length(stream[pos], stream[pos + 1]);
      var body := pos + 2;
      if |stream| - body < len {
        ReadFails(stream, pos, errors);
        return errors + [ReadFailed];
      }
      ReadNext(stream, pos, errors);
      errors := errors + [Error(stream[body..body + len])];
      pos := body + len;
    }
  }

  /** The entries read so far, and those in the rest of the stream, are those in the stream. */
  ghost predicate ReadSoFar(stream: seq<Byte>, pos: int, errors: seq<Entry>) {
    0 <= pos <= |stream| && errors + Decode(stream[pos..]) == Decode(stream)
  }

  lemma ReadNext(stream: seq<Byte>, pos: nat, errors: seq<Entry>)
    requires pos + 2 <= |stream| && ReadSoFar(stream, pos, errors)
    requires pos + 2 + Length(stream[pos], stream[pos + 1]) <= |stream|
    ensures var body := pos + 2;
            var next := body + Length(stream[pos], stream[pos + 1]);
            ReadSoFar(stream, next, errors + [Error(stream[body..next])])
  {
    var body := pos + 2;
    var next := body + Length(stream[pos], stream[pos + 1]);
    DecodeAt(stream, pos);
    Regroup(errors, Error(stream[body..next]), Decode(stream[next..]));
  }

  lemma ReadFails(stream: seq<Byte>, pos: nat, errors: seq<Entry>)
    requires pos + 2 <= |stream| && ReadSoFar(stream, pos, errors)
    requires pos + 2 + Length(stream[pos], stream[pos + 1]) > |stream|
    ensures errors + [ReadFailed] == Decode(stream)
  {
    DecodeAt(stream, pos);
  }

  lemma Regroup(a: seq<Entry>, e: Entry, b: seq<Entry>)
    ensures a + [e] + b == a + ([e] + b)
  {
  }

  lemma DecodeAt(stream: seq<Byte>, pos: nat)
    requires pos + 2 <= |stream|
    ensures var len := Length(stream[pos], stream[pos + 1]);
            var body := pos + 2;
            Decode(stream[pos..])
            == if |stream| - body < len then [ReadFailed]
               else [Error(stream[body..body + len])] + Decode(stream[body + len..])
  {
    var s := stream[pos..];
    var len := Length(stream[pos], stream[pos + 1]);
    if |stream| - (pos + 2) >= len {
      assert s[2..2 + len] == stream[pos + 2..pos + 2 + len] && s[2 + len..] == stream[pos + 2 + len..];
    }
  }

  //----------------------------------------------------------------------------
  // What the parent gets of what the child wrote

  function Errors(ms: seq<Message>): seq<Entry> {
    if ms == [] then [] else Errors(ms[..|ms| - 1]) + [Error(ms[|ms| - 1])]
  }

  /** A message followed by anything is read first, and then the rest. */
  lemma DecodeNext(m: Message, rest: seq<Byte>)
    ensures Decode(Encode(m) + rest) == [Error(m)] + Decode(rest)
  {
    var s := Encode(m) + rest;
    assert Length(s[0], s[1]) == |m|;
    assert s[2..2 + |m|] == m && s[2 + |m|..] == rest;
  }

  /** Messages followed by anything are read, and then the rest. */
  lemma {:induction false} DecodeMessages(ms: seq<Message>, rest: seq<Byte>)
    ensures Decode(EncodeAll(ms) + rest) == Errors(ms) + Decode(rest)
  {
    if ms == [] {
      assert EncodeAll(ms) + rest == rest;
    } else {
      var last := |ms| - 1;
      var tail := Encode(ms[last]) + rest;
      assert EncodeAll(ms) + rest == EncodeAll(ms[..last]) + tail;
      DecodeMessages(ms[..last], tail);
      DecodeNext(ms[last], rest);
      Regroup(Errors(ms[..last]), Error(ms[last]), Decode(rest));
    }
  }

  /** The parent gets exactly the messages that the child has written. */
  lemma RoundTrip(ms: seq<Message>)
    ensures Decode(EncodeAll(ms)) == Errors(ms)
  {
    DecodeMessages(ms, []);
    assert EncodeAll(ms) + [] == EncodeAll(ms);
  }

  /** How many messages are complete in the first `n` bytes. */
  ghost function Complete(ms: seq<Message>, n: nat): (k: nat)
    ensures k <= |ms|
  {
    if |EncodeAll(ms)| <= n then |ms| else Complete(ms[..|ms| - 1], n)
  }

  /** The message in which a stream is cut after `n` bytes. */
  ghost function Encoded(ms: seq<Message>, n: nat): seq<Byte> {
    if Complete(ms, n) < |ms| then Encode(ms[Complete(ms, n)]) else []
  }

  /** The bytes of the complete messages are there, and not all of the next message. */
  lemma {:induction false} CompleteBytes(ms: seq<Message>, n: nat)
    ensures var k := Complete(ms, n);
            |EncodeAll(ms[..k])| <= n && (k < |ms| ==> n < |EncodeAll(ms[..k])| + 2 + |ms[k]|)
    ensures n <= |EncodeAll(ms)| ==>
              var done := EncodeAll(ms[..Complete(ms, n)]);
              n - |done| <= |Encoded(ms, n)| && EncodeAll(ms)[..n] == done + Encoded(ms, n)[..n - |done|]
  {
    if |EncodeAll(ms)| <= n {
      assert ms[..|ms|] == ms;
    } else {
      var last := |ms| - 1;
      CompleteBytes(ms[..last], n);
      var k := Complete(ms, n);
      assert ms[..last][..k] == ms[..k];
      if k == last {
        assert |EncodeAll(ms)| == |EncodeAll(ms[..last])| + 2 + |ms[last]|;
      } else {
        assert n < |EncodeAll(ms[..last])| by { CompleteLess(ms[..last], n); }
        assert EncodeAll(ms)[..n] == EncodeAll(ms[..last])[..n];
      }
    }
  }

  lemma CompleteLess(ms: seq<Message>, n: nat)
    requires Complete(ms, n) < |ms|
    ensures n < |EncodeAll(ms)|
  {
  }

  /** If the stream is cut after any number of bytes, the parent gets exactly the messages that
      are complete, and one failure more if and only if the cut is after a length and before the
      end of its message. */
  lemma CutStream(ms: seq<Message>, n: nat)
    requires n <= |EncodeAll(ms)|
    ensures var k := Complete(ms, n);
            Decode(EncodeAll(ms)[..n])
            == Errors(ms[..k]) + if n - |EncodeAll(ms[..k])| >= 2 then [ReadFailed] else []
  {
    var k := Complete(ms, n);
    CompleteBytes(ms, n);
    var done := EncodeAll(ms[..k]);
    var rest := Encoded(ms, n)[..n - |done|];
    assert EncodeAll(ms)[..n] == done + rest;
    DecodeMessages(ms[..k], rest);
    if |rest| >= 2 {
      assert Length(rest[0], rest[1]) == |ms[k]|;
    }
  }
}
