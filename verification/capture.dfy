/** Output captured in memory, and a client that polls it (src/fd.rs, src/proto.rs). */
module Capture {
  import opened Proto

  type Byte = n: int | 0 <= n < 256

  const MAX_I64 := 0x7fff_ffff_ffff_ffff

  predicate IsI64(n: int) {
    -MAX_I64 - 1 <= n <= MAX_I64
  }

  /** A signed 64-bit number `as usize`, on a 64-bit machine. */
  function AsUsize(n: int): int {
    if n < 0 then n + 0x1_0000_0000_0000_0000 else n
  }

  /** The bytes that a range asks for; `None` is an index out of range, which panics. */
  function Slice(buf: seq<Byte>, start: int, stop: Option<int>): Option<seq<Byte>> {
    var from := AsUsize(start);
    var to := if stop.Some? then AsUsize(stop.value) else |buf|;
    if 0 <= from <= to <= |buf| then Some(buf[from..to]) else None
  }

  /** A range that is within the output carries exactly that part of it, and no other range is
      answered. */
  lemma RangeExactly(buf: seq<Byte>, start: int, stop: int)
    requires |buf| <= MAX_I64 && IsI64(start) && IsI64(stop)
    ensures Slice(buf, start, Some(stop)).Some? <==> 0 <= start <= stop <= |buf|
    ensures 0 <= start <= stop <= |buf| ==>
              var data := Slice(buf, start, Some(stop)).value;
              |data| == stop - start && forall i :: 0 <= i < |data| ==> data[i] == buf[start + i]
  {
  }

  class CaptureMemory {
    var buf: seq<Byte>

    constructor ()
      ensures buf == []
    {
      buf := [];
    }

    /** The task that drains the pipe: appends what each read returns, up to the end. */
    method Drain(chunks: seq<seq<Byte>>)
      modifies this
      ensures buf == old(buf) + Output(chunks)
    {
      var i := 0;
      DrainFirst(buf, chunks);
      while i < |chunks| && chunks[i] != []
        invariant DrainedTo(old(buf), chunks, i, buf)
      {
        DrainNext(old(buf), chunks, i, buf);
        buf := buf + chunks[i];
        i := i + 1;
      }
    }

    /** `get_data`: a range is answered, with exactly that part of the output, if it is within the
        output; any other range is an index out of range. */
    method GetData(start: int, stop: Option<int>) returns (data: Option<seq<Byte>>)
      requires |buf| <= MAX_I64 && IsI64(start) && (stop.Some? ==> IsI64(stop.value))
      ensures var end := if stop.Some? then stop.value else |buf|;
              && (data.Some? <==> 0 <= start <= end <= |buf|)
              && (data.Some? ==> |data.value| == end - start
                                 && forall i :: 0 <= i < end - start ==> data.value[i] == buf[start + i])
      ensures data == Slice(buf, start, stop)
    {
      var from := AsUsize(start);
      var to := if stop.Some? then AsUsize(stop.value) else |buf|;
      if from > to || to > |buf| {
        return None;
      }
      data := Some(buf[from..to]);
    }
  }

  /** The first `i` chunks have been appended to `before`; none of them is empty. */
  ghost predicate DrainedTo(before: seq<Byte>, chunks: seq<seq<Byte>>, i: int, buf: seq<Byte>) {
    0 <= i <= |chunks| && buf + Output(chunks[i..]) == before + Output(chunks)
  }

  lemma DrainFirst(buf: seq<Byte>, chunks: seq<seq<Byte>>)
    ensures DrainedTo(buf, chunks, 0, buf)
  {
    assert chunks[0..] == chunks;
  }

  lemma DrainNext(before: seq<Byte>, chunks: seq<seq<Byte>>, i: nat, buf: seq<Byte>)
    requires i < |chunks| && chunks[i] != [] && DrainedTo(before, chunks, i, buf)
    ensures DrainedTo(before, chunks, i + 1, buf + chunks[i])
  {
    assert chunks[i..][1..] == chunks[i + 1..];
    assert buf + chunks[i] + Output(chunks[i + 1..]) == buf + (chunks[i] + Output(chunks[i + 1..]));
  }

  /** What reads return up to the first empty one, which is the end. */
  function Output(chunks: seq<seq<Byte>>): seq<Byte> {
    if chunks == [] || chunks[0] == [] then [] else chunks[0] + Output(chunks[1..])
  }

  /** What reads return: everything before the first empty one, and nothing of what comes after it. */
  lemma {:induction false} OutputExactly(before: seq<seq<Byte>>, chunk: seq<Byte>, after: seq<seq<Byte>>)
    requires forall i :: 0 <= i < |before| ==> before[i] != []
    ensures chunk == [] ==> Output(before + [chunk] + after) == Output(before)
    ensures chunk != [] ==> Output(before + [chunk]) == Output(before) + chunk
  {
    var all := before + [chunk] + after;
    if before == [] {
      assert all[0] == chunk && (before + [chunk])[1..] == [];
    } else {
      OutputExactly(before[1..], chunk, after);
      assert all[0] == before[0] && all[1..] == before[1..] + [chunk] + after;
      assert (before + [chunk])[0] == before[0] && (before + [chunk])[1..] == before[1..] + [chunk];
    }
  }

  //----------------------------------------------------------------------------
  // Polling

  /** `stop`: where the client's next range starts.  At most one request or reply is under way.
      `panicked`: the agent has indexed out of range. */
  datatype State = State(
    buf: seq<Byte>, stop: int, received: seq<Byte>, request: Option<int>, reply: Option<Reply>, panicked: bool)

  datatype Reply = Reply(start: int, stop: int, data: seq<Byte>)

  datatype Event =
    | Append(chunk: seq<Byte>)
    | Poll
    | Answer
    | Receive
    | Disconnect

  const INIT := State([], 0, [], None, None, false)

  /** One event; a disabled one does nothing.  The buffer cannot outgrow the index type. */
  function Step(s: State, e: Event): State {
    match e
    case Append(chunk) => if |s.buf + chunk| <= MAX_I64 then s.(buf := s.buf + chunk) else s
    case Poll => if s.request.None? && s.reply.None? then s.(request := Some(s.stop)) else s
    case Answer =>
      if s.request.None? then s
      else (
        var start := s.request.value;
        match Slice(s.buf, start, None)
        case None => s.(request := None, panicked := true)
        case Some(data) => s.(request := None, reply := Some(Reply(start, start + |data|, data)))
      )
    case Receive =>
      if s.reply.None? then s
      else s.(reply := None, received := s.received + s.reply.value.data, stop := s.reply.value.stop)
    case Disconnect => s.(request := None, reply := None)
  }

  function Run(events: seq<Event>): State {
    if events == [] then INIT else Step(Run(events[..|events| - 1]), events[|events| - 1])
  }

  predicate Inv(s: State) {
    && !s.panicked && |s.buf| <= MAX_I64
    && 0 <= s.stop <= |s.buf| && s.received == s.buf[..s.stop]
    && (s.request.Some? ==> s.request.value == s.stop && s.reply.None?)
    && (s.reply.Some? ==>
          var r := s.reply.value; r.start == s.stop <= r.stop <= |s.buf| && r.data == s.buf[r.start..r.stop])
  }

  lemma StepInv(s: State, e: Event)
    requires Inv(s)
    ensures Inv(Step(s, e))
  {
    match e
    case Append(chunk) => AppendInv(s, chunk);
    case Receive =>
      if s.reply.Some? {
        var r := s.reply.value;
        assert s.buf[..r.stop] == s.buf[..r.start] + s.buf[r.start..r.stop];
      }
    case _ =>
  }

  lemma AppendInv(s: State, chunk: seq<Byte>)
    requires Inv(s)
    ensures Inv(Step(s, Append(chunk)))
  {
    var buf := s.buf + chunk;
    assert buf[..s.stop] == s.buf[..s.stop];
    if s.reply.Some? {
      var r := s.reply.value;
      assert buf[r.start..r.stop] == s.buf[r.start..r.stop];
    }
  }

  /** In every run, with output of any size at any time and with disconnects, a client that asks
      for everything from its last stop on never makes the agent panic, and has received exactly
      the captured output up to its last stop. */
  lemma {:induction false} PollingIsPrefix(events: seq<Event>)
    ensures var s := Run(events); Inv(s) && !s.panicked && s.received == s.buf[..s.stop]
  {
    if events != [] {
      PollingIsPrefix(events[..|events| - 1]);
      StepInv(Run(events[..|events| - 1]), events[|events| - 1]);
    }
  }

  /** All that the proc has written, as long as it fits. */
  function Written(events: seq<Event>): seq<Byte> {
    if events == [] then []
    else
      var e := events[|events| - 1];
      Written(events[..|events| - 1]) + if e.Append? then e.chunk else []
  }

  /** Nothing of it is lost. */
  lemma {:induction false} CapturedExactly(events: seq<Event>)
    requires |Written(events)| <= MAX_I64
    ensures Run(events).buf == Written(events)
  {
    if events != [] {
      CapturedExactly(events[..|events| - 1]);
    }
  }

  /** After a disconnect, whatever was under way, one poll gets everything that has been written. */
  lemma PollRecovers(events: seq<Event>)
    requires |Written(events)| <= MAX_I64
    ensures Run(events + [Disconnect] + [Poll, Answer, Receive]).received == Written(events)
  {
    CapturedExactly(events);
    RunNext(events, Disconnect);
    PollCatchesUp(events + [Disconnect]);
  }

  /** When no more is captured and nothing is under way, one more poll gets everything. */
  lemma PollCatchesUp(events: seq<Event>)
    requires Run(events).request.None? && Run(events).reply.None?
    ensures var s := Run(events + [Poll, Answer, Receive]); s.received == s.buf == Run(events).buf
  {
    PollingIsPrefix(events);
    var s := Run(events);
    RunNext(events, Poll);
    RunNext(events + [Poll], Answer);
    RunNext(events + [Poll] + [Answer], Receive);
    assert events + [Poll] + [Answer] + [Receive] == events + [Poll, Answer, Receive];
    assert s.buf[s.stop..|s.buf|] == s.buf[s.stop..];
    assert s.buf[..s.stop] + s.buf[s.stop..] == s.buf;
  }

  lemma RunNext(events: seq<Event>, e: Event)
    ensures Run(events + [e]) == Step(Run(events), e)
  {
    assert (events + [e])[..|events|] == events;
  }
}
