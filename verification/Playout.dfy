/** Receiving voice (pkg/client/engine.go:321-375): a decoder and a jitter buffer for each speaker. */
module Playout {
  import opened Prelude
  import opened Jitter
  import VP = VoicePacket
  import VoicePath

  /** What a decoder was asked to decode, in order (no payload: conceal a loss). */
  type Decoder = seq<Out>

  datatype Speaker = Speaker(calls: Decoder, buffer: Buffer)

  type Speakers = map<uint32, Speaker>

  const NEW_SPEAKER := Speaker([], EMPTY_BUFFER)

  function SetUp(t: Speakers, id: uint32): Speakers {
    if id in t then t else t[id := NEW_SPEAKER]
  }

  /** An authentic packet, pushed and drained. */
  function Played(t: Speakers, id: uint32, seqNum: uint32, opus: Bytes): Speakers
    requires id in t
  {
    var (outs, b) := Received(t[id].buffer, seqNum, opus);
    t[id := Speaker(t[id].calls + outs, b)]
  }

  /** One packet: a new speaker is set up even if the packet then fails to decrypt. */
  function Heard(aead: VoicePath.Aead, t: Speakers, p: VP.Packet): Speakers {
    var opus := VoicePath.Decrypted(aead, p);
    if opus.None? then SetUp(t, p.sessionID) else Played(SetUp(t, p.sessionID), p.sessionID, p.seqNum, opus.value)
  }

  class Engine {
    const cipher: VoicePath.Aead
    var decoders: map<uint32, Decoder>
    var jitterBufs: map<uint32, JitterBuffer>

    ghost predicate Valid()
      reads this
    {
      && decoders.Keys == jitterBufs.Keys
      && (forall id :: id in jitterBufs ==> jitterBufs[id].speaker == id)
    }

    ghost function View(): Speakers
      requires Valid()
      reads this, jitterBufs.Values
    {
      map id | id in decoders :: Speaker(decoders[id], jitterBufs[id].View())
    }

    constructor (cipher: VoicePath.Aead)
      ensures Valid() && View() == map[] && this.cipher == cipher
    {
      this.cipher := cipher;
      decoders, jitterBufs := map[], map[];
    }

    /** The locked first part: get or create the speaker's decoder and buffer. */
    method SpeakerFor(id: uint32, canDecode: bool) returns (known: bool)
      requires Valid()
      modifies this
      ensures Valid() && (known ==> id in decoders)
      ensures known <==> id in old(View()) || canDecode
      ensures known && id in old(decoders) ==> jitterBufs == old(jitterBufs)
      ensures known && id !in old(decoders) ==> fresh(jitterBufs[id])
      ensures View() == if known then SetUp(old(View()), id) else old(View())
    {
      if id in decoders {
        return true;
      }
      if !canDecode {
        return false;
      }
      var j := new JitterBuffer(id);
      decoders := decoders[id := []];
      jitterBufs := jitterBufs[id := j];
      known := true;
    }

    /** `canDecode` says whether a decoder could be created, if one was needed. */
    method ProcessIncomingVoice(pkt: VP.Packet, canDecode: bool)
      requires Valid()
      modifies this, jitterBufs.Values
      ensures Valid()
      ensures View() == if pkt.sessionID in old(View()) || canDecode then Heard(cipher, old(View()), pkt) else old(View())
    {
      hide Played, VP.Header, VoicePath.Nonce;
      var known := SpeakerFor(pkt.sessionID, canDecode);
      if !known {
        return;
      }
      var header := VP.MarshalHeader(pkt);
      var nonce := VoicePath.BuildNonce(pkt.sessionID, pkt.seqNum);
      var opus := cipher.open(nonce[..], pkt.payload, header[..]);
      if opus.Some? {
        PushAndDrain(pkt.sessionID, pkt.seqNum, opus.value);
      }
    }

    method PushAndDrain(id: uint32, seqNum: uint32, opus: Bytes)
      requires Valid() && id in View()
      modifies this`decoders, jitterBufs[id]
      ensures Valid() && View() == Played(old(View()), id, seqNum, opus)
    {
      hide Drain, Buffer.Pushed;
      var jb := jitterBufs[id];
      jb.Push(seqNum, opus);
      var played := DrainLoop(jb);
      decoders := decoders[id := decoders[id] + played];
    }
  }

  // ----- Speakers do not disturb each other -----

  function HeardAll(aead: VoicePath.Aead, pkts: seq<VP.Packet>): Speakers {
    if pkts == [] then map[] else Heard(aead, HeardAll(aead, pkts[..|pkts| - 1]), pkts[|pkts| - 1])
  }

  /** The packets of one speaker that decrypt, in order of arrival. */
  function Authentic(aead: VoicePath.Aead, pkts: seq<VP.Packet>, id: uint32): seq<Packet> {
    if pkts == [] then []
    else
      var p := pkts[|pkts| - 1];
      var opus := VoicePath.Decrypted(aead, p);
      Authentic(aead, pkts[..|pkts| - 1], id) + (if p.sessionID == id && opus.Some? then [Packet(p.seqNum, opus.value)] else [])
  }

  /** However the speakers' packets are mixed, each decoder is asked exactly what it would be asked
      if only its own speaker's authentic packets had arrived. */
  lemma {:induction false} SpeakersIndependent(aead: VoicePath.Aead, pkts: seq<VP.Packet>, id: uint32)
    ensures id in HeardAll(aead, pkts) <==> exists i :: 0 <= i < |pkts| && pkts[i].sessionID == id
    ensures var (outs, b) := Playout(Authentic(aead, pkts, id));
            if id in HeardAll(aead, pkts) then HeardAll(aead, pkts)[id] == Speaker(outs, b) else Authentic(aead, pkts, id) == []
  {
    hide Received, VoicePath.Decrypted, Playout;
    PlayoutNone();
    if pkts != [] {
      var init, p := pkts[..|pkts| - 1], pkts[|pkts| - 1];
      SpeakersIndependent(aead, init, id);
      assert forall i :: 0 <= i < |init| ==> init[i] == pkts[i];
      var mine := Authentic(aead, init, id);
      var opus := VoicePath.Decrypted(aead, p);
      if p.sessionID == id && opus.Some? {
        PlayoutNext(mine, Packet(p.seqNum, opus.value));
      } else {
        assert mine + [] == mine;
      }
    }
  }

  lemma PlayoutNone()
    ensures Playout([]) == ([], EMPTY_BUFFER)
  {
  }
}
