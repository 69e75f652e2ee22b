/** The voice packet format (pkg/protocol/protocol.go). The header has 14 bytes:
    session (4), sequence number (4), timestamp (4), channel (2), all big-endian. */
module VoicePacket {
  import opened Prelude

  const VOICE_HEADER_SIZE := 14
  const MAX_VOICE_PAYLOAD := 1400

  datatype Packet = Packet(sessionID: uint32, seqNum: uint32, timestamp: uint32, channelID: uint16, payload: Bytes)

  /** The `n` lowest bytes of `x`, most significant first. */
  function Put(x: nat, n: nat): (b: Bytes)
    ensures |b| == n
    decreases x, n
  {
    if n == 0 then [] else Put(x / 0x100, n - 1) + [x % 0x100]
  }

  function Get(b: Bytes): nat {
    if b == [] then 0 else Get(b[..|b| - 1]) * 0x100 + b[|b| - 1]
  }

  /** 256 to the power of `n`. */
  function Span(n: nat): nat {
    if n == 0 then 1 else 0x100 * Span(n - 1)
  }

  lemma {:induction false} GetBound(b: Bytes)
    ensures Get(b) < Span(|b|)
    decreases |b|
  {
    if b != [] { GetBound(b[..|b| - 1]); }
  }

  lemma {:induction false} PutGet(x: nat, n: nat)
    requires x < Span(n)
    ensures Get(Put(x, n)) == x
    decreases n
  {
    if n > 0 {
      PutGet(x / 0x100, n - 1);
      assert Put(x, n)[..n - 1] == Put(x / 0x100, n - 1);
    }
  }

  lemma {:induction false} GetPut(b: Bytes)
    ensures Put(Get(b), |b|) == b
    decreases |b|
  {
    if b != [] {
      GetPut(b[..|b| - 1]);
      LastByte(Get(b[..|b| - 1]), b[|b| - 1]);
    }
  }

  lemma LastByte(hi: nat, lo: byte)
    ensures (hi * 0x100 + lo) / 0x100 == hi && (hi * 0x100 + lo) % 0x100 == lo
  {
  }

  function Put32(x: uint32): (b: Bytes)
    ensures |b| == 4
  {
    Put(x, 4)
  }

  function Get32(b: Bytes): uint32
    requires |b| == 4
  {
    GetBound(b);
    assert Span(4) == MOD32;
    Get(b)
  }

  function Put16(x: uint16): (b: Bytes)
    ensures |b| == 2
  {
    Put(x, 2)
  }

  function Get16(b: Bytes): uint16
    requires |b| == 2
  {
    GetBound(b);
    assert Span(2) == 0x1_0000;
    Get(b)
  }

  lemma PutGet32(x: uint32)
    ensures Get32(Put32(x)) == x
  {
    assert Span(4) == MOD32;
    PutGet(x, 4);
  }

  lemma GetPut32(b: Bytes)
    requires |b| == 4
    ensures Put32(Get32(b)) == b
  {
    GetPut(b);
  }

  lemma PutGet16(x: uint16)
    ensures Get16(Put16(x)) == x
  {
    assert Span(2) == 0x1_0000;
    PutGet(x, 2);
  }

  lemma GetPut16(b: Bytes)
    requires |b| == 2
    ensures Put16(Get16(b)) == b
  {
    GetPut(b);
  }

  function Header(p: Packet): (h: Bytes)
    ensures |h| == VOICE_HEADER_SIZE
  {
    Put32(p.sessionID) + Put32(p.seqNum) + Put32(p.timestamp) + Put16(p.channelID)
  }

  function Wire(p: Packet): Bytes {
    Header(p) + p.payload
  }

  function Unmarshal(data: Bytes): Option<Packet> {
    if |data| < VOICE_HEADER_SIZE then None
    else Some(Packet(Get32(data[0..4]), Get32(data[4..8]), Get32(data[8..12]), Get16(data[12..14]), data[VOICE_HEADER_SIZE..]))
  }

  /** The bytes one by one, as shifts and conversions give them. */
  lemma Put32Bytes(x: uint32)
    ensures Put32(x) == [x / 0x100 / 0x100 / 0x100, x / 0x100 / 0x100 % 0x100, x / 0x100 % 0x100, x % 0x100]
  {
    PutOne(x / 0x100 / 0x100 / 0x100);
    PutMore(x / 0x100 / 0x100, 1);
    PutMore(x / 0x100, 2);
    PutMore(x, 3);
  }

  lemma PutOne(x: byte)
    ensures Put(x, 1) == [x]
  {
    assert Put(x / 0x100, 0) == [];
  }

  lemma PutMore(x: nat, n: nat)
    ensures Put(x, n + 1) == Put(x / 0x100, n) + [x % 0x100]
  {
  }

  lemma Get32Bytes(b: Bytes)
    requires |b| == 4
    ensures Get32(b) == b[0] as int * 0x100_0000 + b[1] as int * 0x1_0000 + b[2] as int * 0x100 + b[3] as int
  {
    GetMore(b);
    GetMore(b[..3]);
    GetMore(b[..2]);
    GetMore(b[..1]);
    assert b[..3][..2] == b[..2] && b[..2][..1] == b[..1] && b[..1][..0] == [];
  }

  lemma Get16Bytes(b: Bytes)
    requires |b| == 2
    ensures Get16(b) == b[0] as int * 0x100 + b[1] as int
  {
    GetMore(b);
    GetMore(b[..1]);
    assert b[..1][..0] == [];
  }

  lemma GetMore(b: Bytes)
    requires b != []
    ensures Get(b) == Get(b[..|b| - 1]) * 0x100 + b[|b| - 1]
  {
  }

  method PutUint32(h: array<byte>, at: nat, x: uint32)
    requires at + 4 <= h.Length
    modifies h
    ensures h[..] == old(h[..at]) + Put32(x) + old(h[at + 4..])
  {
    hide Put32;
    Put32Bytes(x);
    h[at], h[at + 1], h[at + 2], h[at + 3] := x / 0x100 / 0x100 / 0x100, x / 0x100 / 0x100 % 0x100, x / 0x100 % 0x100, x % 0x100;
  }

  method PutUint16(h: array<byte>, at: nat, x: uint16)
    requires at + 2 <= h.Length
    modifies h
    ensures h[..] == old(h[..at]) + Put16(x) + old(h[at + 2..])
  {
    Put16Bytes(x);
    h[at], h[at + 1] := x / 0x100, x % 0x100;
  }

  method MarshalHeader(p: Packet) returns (h: array<byte>)
    ensures fresh(h) && h[..] == Header(p)
  {
    h := new byte[VOICE_HEADER_SIZE];
    PutUint32(h, 0, p.sessionID);
    assert h[..4] == Put32(p.sessionID);
    PutUint32(h, 4, p.seqNum);
    assert h[..8] == Put32(p.sessionID) + Put32(p.seqNum);
    PutUint32(h, 8, p.timestamp);
    assert h[..12] == Put32(p.sessionID) + Put32(p.seqNum) + Put32(p.timestamp);
    PutUint16(h, 12, p.channelID);
    assert h[14..] == [];
  }

  method Marshal(p: Packet) returns (buf: array<byte>)
    ensures fresh(buf) && buf[..] == Wire(p)
  {
    var h := MarshalHeader(p);
    buf := new byte[VOICE_HEADER_SIZE + |p.payload|];
    forall i | 0 <= i < h.Length {
      buf[i] := h[i];
    }
    forall i | 0 <= i < |p.payload| {
      buf[VOICE_HEADER_SIZE + i] := p.payload[i];
    }
    assert buf[..VOICE_HEADER_SIZE] == h[..];
    assert buf[VOICE_HEADER_SIZE..] == p.payload;
    assert buf[..] == buf[..VOICE_HEADER_SIZE] + buf[VOICE_HEADER_SIZE..];
  }

  /** The 14 bytes of a header. */
  lemma HeaderBytes(p: Packet)
    ensures var h, s, q, t, c := Header(p), p.sessionID, p.seqNum, p.timestamp, p.channelID;
            && h[..4] == [s / 0x100 / 0x100 / 0x100, s / 0x100 / 0x100 % 0x100, s / 0x100 % 0x100, s % 0x100]
            && h[4..8] == [q / 0x100 / 0x100 / 0x100, q / 0x100 / 0x100 % 0x100, q / 0x100 % 0x100, q % 0x100]
            && h[8..12] == [t / 0x100 / 0x100 / 0x100, t / 0x100 / 0x100 % 0x100, t / 0x100 % 0x100, t % 0x100]
            && h[12..] == [c / 0x100, c % 0x100]
  {
    hide Put32, Put16;
    Put32Bytes(p.sessionID);
    Put32Bytes(p.seqNum);
    Put32Bytes(p.timestamp);
    Put16Bytes(p.channelID);
  }

  lemma Put16Bytes(x: uint16)
    ensures Put16(x) == [x / 0x100, x % 0x100]
  {
    PutOne(x / 0x100);
    PutMore(x, 1);
  }

  /** Parsing undoes writing. */
  lemma UnmarshalWire(p: Packet)
    ensures Unmarshal(Wire(p)) == Some(p)
  {
    hide Put32, Get32, Put16, Get16;
    var d := Wire(p);
    assert d[0..4] == Put32(p.sessionID);
    assert d[4..8] == Put32(p.seqNum);
    assert d[8..12] == Put32(p.timestamp);
    assert d[12..14] == Put16(p.channelID);
    assert d[14..] == p.payload;
    PutGet32(p.sessionID);
    PutGet32(p.seqNum);
    PutGet32(p.timestamp);
    PutGet16(p.channelID);
  }

  /** Writing undoes parsing, for everything that parses: exactly the inputs of at least 14 bytes. */
  lemma WireUnmarshal(data: Bytes)
    ensures Unmarshal(data).Some? <==> |data| >= VOICE_HEADER_SIZE
    ensures Unmarshal(data).Some? ==> Wire(Unmarshal(data).value) == data
  {
    hide Put32, Get32, Put16, Get16;
    if |data| >= VOICE_HEADER_SIZE {
      GetPut32(data[0..4]);
      GetPut32(data[4..8]);
      GetPut32(data[8..12]);
      GetPut16(data[12..14]);
      assert data == data[0..4] + data[4..8] + data[8..12] + data[12..14] + data[14..];
    }
  }
}
