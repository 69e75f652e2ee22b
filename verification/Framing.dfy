/** Length-prefixed control messages on a byte stream (pkg/protocol/protocol.go, and the receiving loop
    of pkg/client/control.go). The text encoding of a message is a parameter. */
module Framing {
  import opened Prelude
  import VP = VoicePacket

  const MAX_CONTROL_MESSAGE := 65536
  const LENGTH_SIZE := 4

  /** `encode` fails on messages that have no text form, `decode` on bytes that are no message. */
  datatype Codec<!M(!new)> = Codec(encode: M -> Option<Bytes>, decode: Bytes -> Option<M>) {
    ghost predicate Inverts() {
      forall m :: encode(m).Some? ==> decode(encode(m).value) == Some(m)
    }

    /** The bytes a message is sent as, if it can be sent. */
    function Payload(m: M): (p: Option<Bytes>)
      ensures p.Some? ==> |p.value| <= MAX_CONTROL_MESSAGE
    {
      if encode(m).Some? && |encode(m).value| <= MAX_CONTROL_MESSAGE then encode(m) else None
    }
  }

  function Frame(data: Bytes): Bytes
    requires |data| <= MAX_CONTROL_MESSAGE
  {
    VP.Put32(|data|) + data
  }

  datatype WriteError = Unencodable | MessageTooLarge | LengthNotWritten | PayloadNotWritten
  datatype ReadError = ShortLength | LengthTooLarge | ShortPayload | Undecodable
  datatype ReadResult<M> = Received(msg: M) | ReadFailed(error: ReadError)

  /** One read: its result and what is left on the stream. A failing read has taken what there was. */
  function ReadOne<M(!new)>(c: Codec<M>, s: Bytes): (ReadResult<M>, Bytes) {
    if |s| < LENGTH_SIZE then (ReadFailed(ShortLength), [])
    else
      var n := VP.Get32(s[..LENGTH_SIZE]);
      var rest := s[LENGTH_SIZE..];
      if n > MAX_CONTROL_MESSAGE then (ReadFailed(LengthTooLarge), rest)
      else if |rest| < n then (ReadFailed(ShortPayload), [])
      else if c.decode(rest[..n]).None? then (ReadFailed(Undecodable), rest[n..])
      else (Received(c.decode(rest[..n]).value), rest[n..])
  }

  /** Reads until one fails: the messages, and why it stopped. */
  function ReadAll<M(!new)>(c: Codec<M>, s: Bytes): (seq<M>, ReadError)
    decreases |s|
  {
    var (r, rest) := ReadOne(c, s);
    if r.ReadFailed? then ([], r.error)
    else
      var (ms, e) := ReadAll(c, rest);
      ([r.msg] + ms, e)
  }

  /** At most `n` reads, and what they leave. */
  function ReadUpTo<M(!new)>(c: Codec<M>, s: Bytes, n: nat): (seq<M>, Bytes) {
    if n == 0 then ([], s)
    else
      var (r, rest) := ReadOne(c, s);
      if r.ReadFailed? then ([], rest)
      else
        var (ms, left) := ReadUpTo(c, rest, n - 1);
        ([r.msg] + ms, left)
  }

  /** One write on a connection that takes `room` more bytes: its error, the bytes that get through and
      the room left. What cannot be sent is refused before anything is written; a connection that
      breaks has got the part of the frame that still fitted. */
  function WriteOne<M(!new)>(c: Codec<M>, m: M, room: nat): (Option<WriteError>, Bytes, nat) {
    if c.encode(m).None? then (Some(Unencodable), [], room)
    else if c.Payload(m).None? then (Some(MessageTooLarge), [], room)
    else
      var f := Frame(c.Payload(m).value);
      if |f| <= room then (None, f, room - |f|)
      else (Some(if room < LENGTH_SIZE then LengthNotWritten else PayloadNotWritten), f[..room], 0)
  }

  // ----- The two ends -----

  /** A connection that accepts `room` more bytes before it breaks; a broken write is a partial one. */
  class Writer {
    var sent: Bytes
    var room: nat

    constructor (room: nat)
      ensures sent == [] && this.room == room
    {
      sent, this.room := [], room;
    }

    method Write(p: Bytes) returns (ok: bool)
      modifies this
      ensures ok <==> |p| <= old(room)
      ensures ok ==> sent == old(sent) + p && room == old(room) - |p|
      ensures !ok ==> sent == old(sent) + p[..old(room)] && room == 0
    {
      var n := if |p| <= room then |p| else room;
      sent, room, ok := sent + p[..n], room - n, n == |p|;
    }
  }

  /** Length prefix, then payload, in two writes. */
  method WriteControlMessage<M(!new)>(w: Writer, c: Codec<M>, msg: M) returns (err: Option<WriteError>)
    modifies w
    ensures err == WriteOne(c, msg, old(w.room)).0
    ensures w.sent == old(w.sent) + WriteOne(c, msg, old(w.room)).1
    ensures w.room == WriteOne(c, msg, old(w.room)).2
  {
    var data := c.encode(msg);
    if data.None? {
      return Some(Unencodable);
    }
    if |data.value| > MAX_CONTROL_MESSAGE {
      return Some(MessageTooLarge);
    }
    hide VP.Put32;
    var lenBuf := VP.Put32(|data.value|);
    var ok := w.Write(lenBuf);
    if !ok {
      assert Frame(data.value)[..old(w.room)] == lenBuf[..old(w.room)];
      return Some(LengthNotWritten);
    }
    label Half:
    ok := w.Write(data.value);
    if !ok {
      assert Frame(data.value)[..old(w.room)] == lenBuf + data.value[..old@Half(w.room)];
      return Some(PayloadNotWritten);
    }
    err := None;
  }

  class Reader {
    var pending: Bytes

    constructor (pending: Bytes)
      ensures this.pending == pending
    {
      this.pending := pending;
    }

    /** All `n` bytes, or nothing after using up the stream. */
    method ReadFull(n: nat) returns (r: Option<Bytes>)
      modifies this
      ensures r.Some? <==> n <= |old(pending)|
      ensures r.Some? ==> r.value == old(pending)[..n] && pending == old(pending)[n..]
      ensures r.None? ==> pending == []
    {
      if n <= |pending| {
        r := Some(pending[..n]);
        pending := pending[n..];
      } else {
        r, pending := None, [];
      }
    }
  }

  method ReadControlMessage<M(!new)>(r: Reader, c: Codec<M>) returns (result: ReadResult<M>)
    modifies r
    ensures (result, r.pending) == ReadOne(c, old(r.pending))
  {
    hide VP.Get32;
    var lenBuf := r.ReadFull(LENGTH_SIZE);
    if lenBuf.None? {
      return ReadFailed(ShortLength);
    }
    var length := VP.Get32(lenBuf.value);
    if length > MAX_CONTROL_MESSAGE {
      return ReadFailed(LengthTooLarge);
    }
    var data := r.ReadFull(length);
    if data.None? {
      return ReadFailed(ShortPayload);
    }
    var msg := c.decode(data.value);
    result := if msg.None? then ReadFailed(Undecodable) else Received(msg.value);
  }

  /** The client's receiving loop; `handled` are the messages passed to the event handler. */
  method Receive<M(!new)>(r: Reader, c: Codec<M>) returns (handled: seq<M>, error: ReadError)
    modifies r
    ensures handled == ReadAll(c, old(r.pending)).0 && error == ReadAll(c, old(r.pending)).1
  {
    hide ReadOne;
    handled := [];
    ghost var before := r.pending;
    while true
      invariant ReadAll(c, before).0 == handled + ReadAll(c, r.pending).0
      invariant ReadAll(c, before).1 == ReadAll(c, r.pending).1
      decreases |r.pending|
    {
      ReadTakes(c, r.pending);
      var result := ReadControlMessage(r, c);
      if result.ReadFailed? {
        error := result.error;
        return;
      }
      handled := handled + [result.msg];
    }
  }

  lemma ReadTakes<M(!new)>(c: Codec<M>, s: Bytes)
    ensures ReadOne(c, s).0.Received? ==> |ReadOne(c, s).1| < |s|
  {
  }

  /** The number the first four bytes of a stream stand for. */
  function LengthAt(s: Bytes): nat
    requires |s| >= 4
  {
    s[0] as int * 0x100_0000 + s[1] as int * 0x1_0000 + s[2] as int * 0x100 + s[3] as int
  }

  /** A read in numbers: it needs four bytes of length, at most 65536, then as many bytes, and a payload that is
      a message. */
  lemma ReadIs<M(!new)>(c: Codec<M>, s: Bytes)
    ensures |s| < 4 ==> ReadOne(c, s) == (ReadFailed(ShortLength), [])
    ensures |s| >= 4 && LengthAt(s) > 65536 ==> ReadOne(c, s) == (ReadFailed(LengthTooLarge), s[4..])
    ensures |s| >= 4 && |s| - 4 < LengthAt(s) <= 65536 ==> ReadOne(c, s) == (ReadFailed(ShortPayload), [])
    ensures |s| >= 4 && LengthAt(s) <= 65536 && LengthAt(s) <= |s| - 4 ==>
              var m := c.decode(s[4..4 + LengthAt(s)]);
              ReadOne(c, s) == (if m.None? then ReadFailed(Undecodable) else Received(m.value), s[4 + LengthAt(s)..])
  {
    if |s| >= 4 {
      VP.Get32Bytes(s[..4]);
      hide VP.Get32;
      var n, rest := LengthAt(s), s[4..];
      if n <= |rest| {
        assert rest[..n] == s[4..4 + n] && rest[n..] == s[4 + n..];
      }
    }
  }

  /** A write in numbers: it succeeds exactly for a message whose text has at most 65536 bytes, on a connection
      that takes four bytes more than that; those are the length and the text. */
  lemma WriteIs<M(!new)>(c: Codec<M>, m: M, room: nat)
    ensures WriteOne(c, m, room).0.None? <==> c.encode(m).Some? && |c.encode(m).value| <= 65536 && 4 + |c.encode(m).value| <= room
    ensures WriteOne(c, m, room).0.None? ==>
              var text, bytes := c.encode(m).value, WriteOne(c, m, room).1;
              |bytes| == 4 + |text| && LengthAt(bytes) == |text| && bytes[4..] == text
    ensures WriteOne(c, m, room).0 == Some(MessageTooLarge) <==> c.encode(m).Some? && |c.encode(m).value| > 65536
    ensures WriteOne(c, m, room).0 == Some(Unencodable) <==> c.encode(m).None?
    ensures WriteOne(c, m, room).0 in {Some(MessageTooLarge), Some(Unencodable)} ==> WriteOne(c, m, room).1 == []
  {
    hide VP.Put32, VP.Get32;
    if c.Payload(m).Some? {
      var data := c.Payload(m).value;
      VP.PutGet32(|data|);
      var f := Frame(data);
      assert f[..4] == VP.Put32(|data|);
      VP.Get32Bytes(f[..4]);
      assert f[4..] == data;
    }
  }

  // ----- What arrives -----

  ghost predicate Sendable<M(!new)>(c: Codec<M>, ms: seq<M>) {
    forall i :: 0 <= i < |ms| ==> c.Payload(ms[i]).Some?
  }

  function Frames<M(!new)>(c: Codec<M>, ms: seq<M>): Bytes
    requires Sendable(c, ms)
  {
    if ms == [] then [] else Frame(c.Payload(ms[0]).value) + Frames(c, ms[1..])
  }

  lemma ReadFrame<M(!new)>(c: Codec<M>, m: M, tail: Bytes)
    requires c.Inverts() && c.Payload(m).Some?
    ensures ReadOne(c, Frame(c.Payload(m).value) + tail) == (Received(m), tail)
  {
    hide VP.Put32, VP.Get32;
    var data := c.Payload(m).value;
    var s := Frame(data) + tail;
    VP.PutGet32(|data|);
    assert s[..LENGTH_SIZE] == VP.Put32(|data|);
    assert s[LENGTH_SIZE..] == data + tail;
  }

  /** A frame cut anywhere short of its end gives an error and no message. */
  lemma ReadCutFrame<M(!new)>(c: Codec<M>, m: M, n: nat)
    requires c.Payload(m).Some? && n < |Frame(c.Payload(m).value)|
    ensures ReadOne(c, Frame(c.Payload(m).value)[..n]) == (ReadFailed(if n < LENGTH_SIZE then ShortLength else ShortPayload), [])
  {
    hide VP.Put32, VP.Get32;
    var data := c.Payload(m).value;
    VP.PutGet32(|data|);
    if n >= LENGTH_SIZE {
      assert Frame(data)[..n][..LENGTH_SIZE] == VP.Put32(|data|);
    }
  }

  /** Reading as often as was written gives exactly the messages, in order, and leaves the bytes behind them. */
  lemma {:induction false} FramesRoundTrip<M(!new)>(c: Codec<M>, ms: seq<M>, tail: Bytes)
    requires c.Inverts() && Sendable(c, ms)
    ensures ReadUpTo(c, Frames(c, ms) + tail, |ms|) == (ms, tail)
    decreases |ms|
  {
    hide ReadOne, Frame;
    if ms == [] {
      assert Frames(c, ms) + tail == tail;
    } else {
      var first := Frame(c.Payload(ms[0]).value);
      assert Frames(c, ms) + tail == first + (Frames(c, ms[1..]) + tail);
      ReadFrame(c, ms[0], Frames(c, ms[1..]) + tail);
      FramesRoundTrip(c, ms[1..], tail);
      assert [ms[0]] + ms[1..] == ms;
    }
  }

  /** How many frames lie wholly within the first `n` bytes. */
  function WholeFrames<M(!new)>(c: Codec<M>, ms: seq<M>, n: nat): (k: nat)
    requires Sendable(c, ms)
    ensures k <= |ms|
  {
    if ms == [] then 0
    else
      var size := |Frame(c.Payload(ms[0]).value)|;
      if n < size then 0 else 1 + WholeFrames(c, ms[1..], n - size)
  }

  /** What is left over after them. */
  function Remainder<M(!new)>(c: Codec<M>, ms: seq<M>, n: nat): nat
    requires Sendable(c, ms)
  {
    if ms == [] then n
    else
      var size := |Frame(c.Payload(ms[0]).value)|;
      if n < size then n else Remainder(c, ms[1..], n - size)
  }

  /** A stream cut after `n` bytes gives the messages whose frames are whole, and then an error. */
  lemma {:induction false} CutStream<M(!new)>(c: Codec<M>, ms: seq<M>, n: nat)
    requires c.Inverts() && Sendable(c, ms) && n <= |Frames(c, ms)|
    ensures ReadAll(c, Frames(c, ms)[..n]) == (ms[..WholeFrames(c, ms, n)], if Remainder(c, ms, n) < LENGTH_SIZE then ShortLength else ShortPayload)
    decreases |ms|
  {
    hide ReadOne, Frame;
    if ms == [] {
      NothingToRead(c);
      assert Frames(c, ms)[..n] == [];
    } else {
      var first := Frame(c.Payload(ms[0]).value);
      if n < |first| {
        assert Frames(c, ms)[..n] == first[..n];
        ReadCutFrame(c, ms[0], n);
      } else {
        assert Frames(c, ms)[..n] == first + Frames(c, ms[1..])[..n - |first|];
        ReadFrame(c, ms[0], Frames(c, ms[1..])[..n - |first|]);
        CutStream(c, ms[1..], n - |first|);
        assert ms[..WholeFrames(c, ms, n)] == [ms[0]] + ms[1..][..WholeFrames(c, ms[1..], n - |first|)];
      }
    }
  }

  lemma NothingToRead<M(!new)>(c: Codec<M>)
    ensures ReadOne(c, []) == (ReadFailed(ShortLength), [])
  {
  }

  /** The bytes that a run of writes puts on a connection with this much room, and the messages whose
      write reported no error. */
  function Sent<M(!new)>(c: Codec<M>, ms: seq<M>, room: nat): (Bytes, seq<M>) {
    if ms == [] then ([], [])
    else
      var (err, bytes, left) := WriteOne(c, ms[0], room);
      var (more, accepted) := Sent(c, ms[1..], left);
      (bytes + more, if err.None? then [ms[0]] + accepted else accepted)
  }

  /** A broken connection takes nothing more. */
  lemma {:induction false} SentNoRoom<M(!new)>(c: Codec<M>, ms: seq<M>)
    ensures Sent(c, ms, 0).0 == [] && Sent(c, ms, 0).1 == []
    decreases |ms|
  {
    if ms != [] {
      SentNoRoom(c, ms[1..]);
    }
  }

  /** The other end reads exactly the messages whose write reported no error, wherever the connection broke. */
  lemma {:induction false} WrittenIsRead<M(!new)>(c: Codec<M>, ms: seq<M>, room: nat)
    requires c.Inverts()
    ensures ReadAll(c, Sent(c, ms, room).0).0 == Sent(c, ms, room).1
    decreases |ms|
  {
    hide ReadOne, Frame;
    if ms == [] {
      NothingToRead(c);
    } else if c.Payload(ms[0]).None? {
      WrittenIsRead(c, ms[1..], room);
      assert [] + Sent(c, ms[1..], room).0 == Sent(c, ms[1..], room).0;
    } else {
      var f := Frame(c.Payload(ms[0]).value);
      if |f| > room {
        SentNoRoom(c, ms[1..]);
        assert f[..room] + [] == f[..room];
        ReadCutFrame(c, ms[0], room);
      } else {
        WrittenIsRead(c, ms[1..], room - |f|);
        ReadFrame(c, ms[0], Sent(c, ms[1..], room - |f|).0);
      }
    }
  }

  // ----- Several writers -----

  /** A message is written in two calls, and the server takes no lock per connection, so the halves of
      several messages may interleave. Each single write is whole. */
  datatype Half = Length(i: nat) | Body(i: nat)

  /** Every message is written once, its length first. */
  ghost predicate Interleaved(h: seq<Half>) {
    && NoDuplicates(h)
    && (forall q :: 0 <= q < |h| && h[q].Body? ==> exists p :: 0 <= p < q && h[p] == Length(h[q].i))
    && (forall p :: 0 <= p < |h| && h[p].Length? ==> exists q :: p < q < |h| && h[q] == Body(h[p].i))
  }

  ghost predicate InRange(h: seq<Half>, n: nat) {
    forall p :: 0 <= p < |h| ==> h[p].i < n
  }

  function HalfBytes<M(!new)>(c: Codec<M>, ms: seq<M>, x: Half): Bytes
    requires Sendable(c, ms) && x.i < |ms|
  {
    var data := c.Payload(ms[x.i]).value;
    if x.Length? then VP.Put32(|data|) else data
  }

  function Stream<M(!new)>(c: Codec<M>, ms: seq<M>, h: seq<Half>): Bytes
    requires Sendable(c, ms) && InRange(h, |ms|)
  {
    if h == [] then [] else HalfBytes(c, ms, h[0]) + Stream(c, ms, h[1..])
  }

  /** The messages in the order of their length writes. */
  function Started<M>(ms: seq<M>, h: seq<Half>): seq<M>
    requires InRange(h, |ms|)
  {
    if h == [] then [] else (if h[0].Length? then [ms[h[0].i]] else []) + Started(ms, h[1..])
  }

  /** How many frames are whole before the first pair of halves that is separated. */
  function Together(h: seq<Half>): (k: nat)
    ensures 2 * k <= |h|
  {
    if |h| >= 2 && h[0].Length? && h[1] == Body(h[0].i) then 1 + Together(h[2..]) else 0
  }

  ghost predicate Separated(h: seq<Half>) {
    exists p :: 0 <= p < |h| && h[p].Length? && !(p + 1 < |h| && h[p + 1] == Body(h[p].i))
  }

  /** The text of a message starts with an opening brace, and no text starts with a zero byte. */
  ghost predicate TextCodec<M(!new)>(c: Codec<M>) {
    && c.Inverts()
    && (forall m :: c.encode(m).Some? ==> c.encode(m).value != [] && c.encode(m).value[0] == 123)
    && (forall b :: b != [] && b[0] == 0 ==> c.decode(b).None?)
  }

  /** What follows a leading whole frame is again an interleaving. */
  lemma FrameDropped(h: seq<Half>)
    requires Interleaved(h) && |h| >= 2 && h[0].Length? && h[1] == Body(h[0].i)
    ensures Interleaved(h[2..])
  {
    var t := h[2..];
    forall q | 0 <= q < |t| && t[q].Body? ensures exists p :: 0 <= p < q && t[p] == Length(t[q].i) {
      assert h[q + 2] == t[q];
      var p :| 0 <= p < q + 2 && h[p] == Length(h[q + 2].i);
      assert p != 0 && p != 1;
      assert t[p - 2] == h[p];
    }
    forall p | 0 <= p < |t| && t[p].Length? ensures exists q :: p < q < |t| && t[q] == Body(t[p].i) {
      assert h[p + 2] == t[p];
      var q :| p + 2 < q < |h| && h[q] == Body(h[p + 2].i);
      assert t[q - 2] == h[q];
    }
  }

  lemma SecondBody(h: seq<Half>)
    requires Interleaved(h) && |h| >= 2
    ensures h[1].Body? ==> h[0] == Length(h[1].i)
  {
  }

  /** If the first pair is separated, the second write is another length. */
  lemma FirstSplit(h: seq<Half>)
    requires Interleaved(h) && h != [] && Together(h) == 0
    ensures |h| >= 3 && h[0].Length? && h[1].Length?
    ensures exists q :: 2 <= q < |h| && h[q] == Body(h[0].i)
  {
    assert h[0].Length?;
    var q :| 0 < q < |h| && h[q] == Body(h[0].i);
    SecondBody(h);
  }

  lemma {:induction false} StreamHolds<M(!new)>(c: Codec<M>, ms: seq<M>, h: seq<Half>, q: nat)
    requires Sendable(c, ms) && InRange(h, |ms|) && q < |h|
    ensures |Stream(c, ms, h)| >= |HalfBytes(c, ms, h[q])|
  {
    hide HalfBytes;
    if q > 0 {
      StreamHolds(c, ms, h[1..], q - 1);
    }
  }

  /** The reader takes the other length for the start of the payload, and cannot decode it. */
  lemma ReadSplit<M(!new)>(c: Codec<M>, data: Bytes, n: nat, rest: Bytes)
    requires TextCodec(c) && 0 < |data| <= MAX_CONTROL_MESSAGE && n <= MAX_CONTROL_MESSAGE && |rest| >= |data|
    ensures ReadOne(c, VP.Put32(|data|) + (VP.Put32(n) + rest)).0 == ReadFailed(Undecodable)
  {
    hide VP.Put32, VP.Get32;
    var s := VP.Put32(|data|) + (VP.Put32(n) + rest);
    VP.PutGet32(|data|);
    assert s[..LENGTH_SIZE] == VP.Put32(|data|);
    assert s[LENGTH_SIZE..] == VP.Put32(n) + rest;
    ShortLengthStarts0(n);
    assert s[LENGTH_SIZE..][..|data|][0] == VP.Put32(n)[0];
  }

  lemma ShortLengthStarts0(n: nat)
    requires n <= MAX_CONTROL_MESSAGE
    ensures VP.Put32(n)[0] == 0
  {
    VP.Put32Bytes(n);
  }

  lemma TwoHalves<M(!new)>(c: Codec<M>, ms: seq<M>, h: seq<Half>)
    requires Sendable(c, ms) && InRange(h, |ms|) && |h| >= 2
    ensures Stream(c, ms, h) == HalfBytes(c, ms, h[0]) + (HalfBytes(c, ms, h[1]) + Stream(c, ms, h[2..]))
  {
    hide HalfBytes;
    assert h[1..][1..] == h[2..] && h[1..][0] == h[1];
  }

  lemma TwoStarted<M>(ms: seq<M>, h: seq<Half>)
    requires InRange(h, |ms|) && |h| >= 2 && h[0].Length? && h[1].Body?
    ensures Started(ms, h) == [ms[h[0].i]] + Started(ms, h[2..])
  {
    var t := h[1..];
    assert t[1..] == h[2..] && t[0] == h[1];
    NoneStarted(ms, t);
  }

  lemma NoneStarted<M>(ms: seq<M>, h: seq<Half>)
    requires InRange(h, |ms|) && h != [] && h[0].Body?
    ensures Started(ms, h) == Started(ms, h[1..])
  {
    assert [] + Started(ms, h[1..]) == Started(ms, h[1..]);
  }

  /** However the writes of several messages interleave, the reader gets exactly the messages whose frames
      are whole before the first separated pair, in the order of their length writes, and then fails. */
  lemma {:induction false} InterleavedRead<M(!new)>(c: Codec<M>, ms: seq<M>, h: seq<Half>)
    requires TextCodec(c) && Sendable(c, ms) && InRange(h, |ms|) && Interleaved(h)
    ensures Together(h) <= |Started(ms, h)|
    ensures ReadAll(c, Stream(c, ms, h)) == (Started(ms, h)[..Together(h)], if 2 * Together(h) == |h| then ShortLength else Undecodable)
    decreases |h|
  {
    hide ReadOne, HalfBytes, Interleaved, TextCodec, VP.Put32;
    if h == [] {
      NothingToRead(c);
    } else if Together(h) > 0 {
      var i := h[0].i;
      TwoHalves(c, ms, h);
      TwoStarted(ms, h);
      FrameDropped(h);
      InterleavedRead(c, ms, h[2..]);
      WholeFirst(c, ms, h);
      var k := Together(h[2..]);
      assert Started(ms, h)[..1 + k] == [ms[i]] + Started(ms, h[2..])[..k];
    } else {
      FirstSplit(h);
      SplitFirst(c, ms, h);
    }
  }

  lemma WholeFirst<M(!new)>(c: Codec<M>, ms: seq<M>, h: seq<Half>)
    requires TextCodec(c) && Sendable(c, ms) && InRange(h, |ms|) && |h| >= 2 && h[0].Length? && h[1] == Body(h[0].i)
    ensures ReadOne(c, Stream(c, ms, h)) == (Received(ms[h[0].i]), Stream(c, ms, h[2..]))
  {
    hide ReadOne, VP.Put32;
    var data := c.Payload(ms[h[0].i]).value;
    TwoHalves(c, ms, h);
    assert VP.Put32(|data|) + (data + Stream(c, ms, h[2..])) == Frame(data) + Stream(c, ms, h[2..]);
    ReadFrame(c, ms[h[0].i], Stream(c, ms, h[2..]));
  }

  lemma SplitFirst<M(!new)>(c: Codec<M>, ms: seq<M>, h: seq<Half>)
    requires TextCodec(c) && Sendable(c, ms) && InRange(h, |ms|) && |h| >= 2 && h[0].Length? && h[1].Length?
    requires exists q :: 2 <= q < |h| && h[q] == Body(h[0].i)
    ensures ReadOne(c, Stream(c, ms, h)).0 == ReadFailed(Undecodable)
  {
    hide ReadOne, VP.Put32;
    var q :| 2 <= q < |h| && h[q] == Body(h[0].i);
    assert h[2..][q - 2] == h[q];
    StreamHolds(c, ms, h[2..], q - 2);
    TwoHalves(c, ms, h);
    ReadSplit(c, c.Payload(ms[h[0].i]).value, |c.Payload(ms[h[1].i]).value|, Stream(c, ms, h[2..]));
  }

  lemma {:induction false} TogetherIff(h: seq<Half>)
    requires Interleaved(h)
    ensures 2 * Together(h) == |h| <==> !Separated(h)
    decreases |h|
  {
    hide Interleaved;
    if h != [] {
      if Together(h) == 0 {
        FirstSplit(h);
        assert h[0].Length? && h[1] != Body(h[0].i);
      } else {
        FrameDropped(h);
        TogetherIff(h[2..]);
        SeparatedLater(h);
      }
    }
  }

  lemma SeparatedLater(h: seq<Half>)
    requires |h| >= 2 && h[0].Length? && h[1] == Body(h[0].i)
    ensures Separated(h) <==> Separated(h[2..])
  {
    var t := h[2..];
    assert forall p :: 2 <= p < |h| ==> h[p] == t[p - 2];
    if Separated(h) {
      var p :| 0 <= p < |h| && h[p].Length? && !(p + 1 < |h| && h[p + 1] == Body(h[p].i));
      assert p >= 2 && t[p - 2].Length?;
    }
    if Separated(t) {
      var p :| 0 <= p < |t| && t[p].Length? && !(p + 1 < |t| && t[p + 1] == Body(t[p].i));
      assert h[p + 2].Length?;
    }
  }

  /** Everything started is whole exactly if the whole frames are everything. */
  lemma {:induction false} StartedSize<M>(ms: seq<M>, h: seq<Half>)
    requires InRange(h, |ms|) && Interleaved(h)
    ensures |Started(ms, h)| >= Together(h)
    ensures |Started(ms, h)| == Together(h) <==> 2 * Together(h) == |h|
    decreases |h|
  {
    hide Interleaved;
    if h != [] {
      if Together(h) == 0 {
        FirstSplit(h);
      } else {
        FrameDropped(h);
        TwoStarted(ms, h);
        StartedSize(ms, h[2..]);
      }
    }
  }

  /** All messages arrive, in the order of their length writes, exactly if no two halves are separated. */
  lemma {:induction false} AllArriveIffTogether<M(!new)>(c: Codec<M>, ms: seq<M>, h: seq<Half>)
    requires TextCodec(c) && Sendable(c, ms) && InRange(h, |ms|) && Interleaved(h)
    ensures ReadAll(c, Stream(c, ms, h)).0 == Started(ms, h) <==> !Separated(h)
    ensures Separated(h) ==> ReadAll(c, Stream(c, ms, h)).1 == Undecodable
  {
    hide ReadAll, Interleaved, Separated, TextCodec;
    InterleavedRead(c, ms, h);
    TogetherIff(h);
    StartedSize(ms, h);
  }

  /** For instance two broadcasts to one member, whichever payload is written first: the reader fails
      before the first message. */
  lemma {:induction false} SplitFrameIsLost<M(!new)>(c: Codec<M>, m1: M, m2: M, h: seq<Half>)
    requires TextCodec(c) && Sendable(c, [m1, m2])
    requires h == [Length(0), Length(1), Body(0), Body(1)] || h == [Length(0), Length(1), Body(1), Body(0)]
    ensures Interleaved(h) && ReadAll(c, Stream(c, [m1, m2], h)) == ([], Undecodable)
  {
    hide ReadAll, TextCodec;
    assert h[0] == Length(0) && h[1] == Length(1);
    assert h[2] == Body(0) ==> h[3] == Body(1);
    assert h[2] == Body(1) ==> h[3] == Body(0);
    InterleavedRead(c, [m1, m2], h);
  }
}
