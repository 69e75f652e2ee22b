/** A voice frame from the sender's microphone to the receiver's jitter buffer: encryption
    (pkg/crypto/crypto.go), sending (pkg/client/voice.go) and what UDP buffers do to a datagram.
    The cipher is any AEAD in the sense of section 2 of RFC 5116. */
module VoicePath {
  import opened Prelude
  import opened VoicePacket

  /** Authenticated encryption and decryption under one key: nonce, then plain- or ciphertext, then
      associated data (sections 2.1 and 2.2 of RFC 5116). */
  datatype Aead = Aead(seal: (Bytes, Bytes, Bytes) -> Bytes, open: (Bytes, Bytes, Bytes) -> Option<Bytes>) {
    /** The only property used: decryption with the same nonce and data undoes encryption. */
    ghost predicate Inverts() {
      forall n, p, a {:trigger seal(n, p, a)} :: open(n, seal(n, p, a), a) == Some(p)
    }
  }

  /** Session, sequence number, then four zero bytes. */
  function Nonce(sessionID: uint32, seqNum: uint32): (n: Bytes)
    ensures |n| == 12
  {
    Put32(sessionID) + Put32(seqNum) + [0, 0, 0, 0]
  }

  method BuildNonce(sessionID: uint32, seqNum: uint32) returns (nonce: array<byte>)
    ensures fresh(nonce) && nonce[..] == Nonce(sessionID, seqNum)
  {
    nonce := new byte[12](_ => 0);
    PutUint32(nonce, 0, sessionID);
    assert nonce[..4] == Put32(sessionID);
    assert nonce[4..] == [0, 0, 0, 0, 0, 0, 0, 0];
    PutUint32(nonce, 4, seqNum);
    assert nonce[8..] == [0, 0, 0, 0];
  }

  /** The 12 bytes of a nonce. */
  lemma NonceBytes(s: uint32, q: uint32)
    ensures var n := Nonce(s, q);
            && n[..4] == [s / 0x100 / 0x100 / 0x100, s / 0x100 / 0x100 % 0x100, s / 0x100 % 0x100, s % 0x100]
            && n[4..8] == [q / 0x100 / 0x100 / 0x100, q / 0x100 / 0x100 % 0x100, q / 0x100 % 0x100, q % 0x100]
            && n[8..] == [0, 0, 0, 0]
  {
    hide Put32;
    Put32Bytes(s);
    Put32Bytes(q);
  }

  /** Nonces differ unless both the session and the sequence number agree. */
  lemma NonceInjective(s: uint32, q: uint32, t: uint32, r: uint32)
    ensures Nonce(s, q) == Nonce(t, r) <==> s == t && q == r
  {
    hide Put32, Get32;
    if Nonce(s, q) == Nonce(t, r) {
      assert Nonce(s, q)[..4] == Put32(s) && Nonce(t, r)[..4] == Put32(t);
      assert Nonce(s, q)[4..8] == Put32(q) && Nonce(t, r)[4..8] == Put32(r);
      PutGet32(s);
      PutGet32(t);
      PutGet32(q);
      PutGet32(r);
    }
  }

  /** The packet `SendVoice` builds. */
  function Sealed(aead: Aead, sessionID: uint32, seqNum: uint32, timestamp: uint32, channelID: uint16, opus: Bytes): Packet {
    var p := Packet(sessionID, seqNum, timestamp, channelID, []);
    p.(payload := aead.seal(Nonce(sessionID, seqNum), opus, Header(p)))
  }

  /** The number the `n`-th of a client's packets carries, counting from 1. */
  function NthSeq(n: nat): uint32 {
    Add32(0, n)
  }

  /** The datagram parses to a packet with this session, number, timestamp and channel, and opening its payload
      under that nonce with the datagram's first 14 bytes gives the frame. */
  ghost predicate Carries(cipher: Aead, datagram: Bytes, sessionID: uint32, seqNum: uint32, timestamp: uint32, channelID: uint16, opus: Bytes) {
    && |datagram| >= 14
    && Unmarshal(datagram) == Some(Packet(sessionID, seqNum, timestamp, channelID, datagram[14..]))
    && cipher.open(Put32(sessionID) + Put32(seqNum) + [0, 0, 0, 0], datagram[14..], datagram[..14]) == Some(opus)
  }

  lemma SealedCarries(cipher: Aead, sessionID: uint32, seqNum: uint32, timestamp: uint32, channelID: uint16, opus: Bytes)
    ensures var d := Wire(Sealed(cipher, sessionID, seqNum, timestamp, channelID, opus));
            && |d| >= 14 && Unmarshal(d) == Some(Packet(sessionID, seqNum, timestamp, channelID, d[14..]))
            && (cipher.Inverts() ==> Carries(cipher, d, sessionID, seqNum, timestamp, channelID, opus))
  {
    hide Put32, Get32, Put16, Get16;
    var p := Sealed(cipher, sessionID, seqNum, timestamp, channelID, opus);
    UnmarshalWire(p);
    assert Header(p) == Header(p.(payload := []));
    assert Wire(p)[..14] == Header(p) && Wire(p)[14..] == p.payload;
  }

  class VoiceClient {
    const sessionID: uint32
    const cipher: Aead
    var channelID: uint16
    var seqNum: uint32
    /** All packets sent so far. */
    ghost var sent: seq<Packet>

    ghost predicate Valid()
      reads this
    {
      && seqNum == NthSeq(|sent|)
      && forall i :: 0 <= i < |sent| ==> sent[i].sessionID == sessionID && sent[i].seqNum == NthSeq(i + 1)
    }

    constructor (sessionID: uint32, cipher: Aead)
      ensures Valid() && sent == []
      ensures this.sessionID == sessionID && this.cipher == cipher && channelID == 0 && seqNum == 0
    {
      this.sessionID, this.cipher, channelID, seqNum, sent := sessionID, cipher, 0, 0, [];
    }

    /** The id is cut down to 16 bits. */
    method SetChannel(id: int)
      requires Valid()
      modifies this`channelID
      ensures Valid() && channelID == id % 0x1_0000
    {
      channelID := id % 0x1_0000;
    }

    method SendVoice(opus: Bytes, timestamp: uint32) returns (datagram: Bytes)
      requires Valid()
      modifies this`seqNum, this`sent
      ensures Valid() && seqNum == Add32(old(seqNum), 1)
      ensures sent == old(sent) + [Sealed(cipher, sessionID, seqNum, timestamp, channelID, opus)]
      ensures datagram == Wire(sent[|sent| - 1])
      ensures |datagram| >= 14 && Unmarshal(datagram) == Some(Packet(sessionID, seqNum, timestamp, channelID, datagram[14..]))
      ensures cipher.Inverts() ==> Carries(cipher, datagram, sessionID, seqNum, timestamp, channelID, opus)
    {
      AddAdd(0, |sent|, 1);
      seqNum := Add32(seqNum, 1);
      var pkt := Packet(sessionID, seqNum, timestamp, channelID, []);
      var header := MarshalHeader(pkt);
      var nonce := BuildNonce(sessionID, seqNum);
      pkt := pkt.(payload := cipher.seal(nonce[..], opus, header[..]));
      var buf := Marshal(pkt);
      datagram := buf[..];
      sent := sent + [pkt];
      SealedCarries(cipher, sessionID, seqNum, timestamp, channelID, opus);
    }
  }

  function NonceOf(p: Packet): Bytes {
    Nonce(p.sessionID, p.seqNum)
  }

  /** Two packets a client has sent repeat a nonce exactly when they are a multiple of 2^32 packets apart. */
  lemma NonceRepeats(client: VoiceClient, i: nat, j: nat)
    requires client.Valid() && i < |client.sent| && j < |client.sent|
    ensures NonceOf(client.sent[i]) == NonceOf(client.sent[j]) <==> (j - i) % MOD32 == 0
  {
    hide Nonce;
    NonceInjective(client.sessionID, NthSeq(i + 1), client.sessionID, NthSeq(j + 1));
    SameResidue(i + 1, j + 1);
  }

  lemma SameResidue(i: nat, j: nat)
    ensures i % MOD32 == j % MOD32 <==> (j - i) % MOD32 == 0
  {
  }

  /** Both sides read a datagram into a buffer of 1414 bytes; what does not fit is cut off. */
  function ReadUDP(datagram: Bytes): Bytes {
    if |datagram| <= VOICE_HEADER_SIZE + MAX_VOICE_PAYLOAD then datagram else datagram[..VOICE_HEADER_SIZE + MAX_VOICE_PAYLOAD]
  }

  /** The receiver's view of a datagram: it is parsed, its header written out again, and the
      payload decrypted under the nonce and header so found. */
  function Decrypted(aead: Aead, p: Packet): Option<Bytes> {
    aead.open(Nonce(p.sessionID, p.seqNum), p.payload, Header(p))
  }

  /** From sender to receiver: read by the server, forwarded as raw bytes, read by the receiver. */
  function Arrived(datagram: Bytes): Option<Packet> {
    Unmarshal(ReadUDP(ReadUDP(datagram)))
  }

  /** A frame whose ciphertext fits arrives and decrypts to what was sent. */
  lemma VoiceEndToEnd(aead: Aead, sessionID: uint32, seqNum: uint32, timestamp: uint32, channelID: uint16, opus: Bytes)
    requires aead.Inverts()
    ensures var p := Sealed(aead, sessionID, seqNum, timestamp, channelID, opus);
            |p.payload| <= MAX_VOICE_PAYLOAD ==> Arrived(Wire(p)) == Some(p) && Decrypted(aead, p) == Some(opus)
  {
    var p := Sealed(aead, sessionID, seqNum, timestamp, channelID, opus);
    UnmarshalWire(p);
    assert Header(p) == Header(p.(payload := []));
  }

  /** What is read of a datagram: all of it, or its first 1414 bytes. */
  lemma ReadUDPIs(datagram: Bytes)
    ensures |datagram| <= 1414 ==> ReadUDP(datagram) == datagram
    ensures |datagram| > 1414 ==> ReadUDP(datagram) == datagram[..1414]
  {
  }

  /** Exactly the packets with at most 1400 payload bytes arrive unchanged; of a longer one the
      receiver gets the first 1400. */
  lemma ArrivesUnchangedIff(p: Packet)
    ensures Arrived(Wire(p)) == Some(p) <==> |p.payload| <= 1400
    ensures |p.payload| > 1400 ==> Arrived(Wire(p)) == Some(p.(payload := p.payload[..1400]))
  {
    if |p.payload| <= MAX_VOICE_PAYLOAD {
      UnmarshalWire(p);
    } else {
      var q := p.(payload := p.payload[..MAX_VOICE_PAYLOAD]);
      assert Wire(p)[..VOICE_HEADER_SIZE + MAX_VOICE_PAYLOAD] == Wire(q);
      UnmarshalWire(q);
    }
  }

  /** What the receiver decrypts is bound to what the sender sealed: whatever packet arrives, its
      re-marshalled header is the datagram's first 14 bytes. */
  lemma HeaderReproduced(datagram: Bytes)
    ensures Arrived(datagram).Some? ==> Header(Arrived(datagram).value) == datagram[..VOICE_HEADER_SIZE]
  {
    var d := ReadUDP(ReadUDP(datagram));
    WireUnmarshal(d);
    if Arrived(datagram).Some? {
      assert Wire(Arrived(datagram).value)[..VOICE_HEADER_SIZE] == Header(Arrived(datagram).value);
    }
  }
}
