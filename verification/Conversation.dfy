/** Client, server and client together: what one says the others hear. */
module Conversation {
  import opened Prelude
  import opened ChannelIndex
  import opened Sessions
  import opened Server
  import opened AtomicRuns
  import opened Effects
  import VP = VoicePacket
  import VoicePath
  import Jitter
  import Playout

  /** A live session that may speak from here and hear, in a channel whose id fits the voice header. */
  ghost predicate Present(s: State, id: SessionId, c: ChannelId, from: UDPAddr) {
    && id in s.sessions && s.sessions[id].channelID == c && 0 < c < 0x1_0000
    && !s.sessions[id].muted && !s.sessions[id].deafened
    && (s.sessions[id].udpAddr.Some? ==> SameSource(s.sessions[id].udpAddr.value, from))
  }

  /** What a client's datagram is when the server has read it. */
  lemma AsRead(cipher: VoicePath.Aead, datagram: Bytes, id: SessionId, seqNum: uint32, timestamp: uint32, ch: uint16, opus: Bytes)
    requires VoicePath.Carries(cipher, datagram, id, seqNum, timestamp, ch, opus) && |datagram| <= 1414
    ensures VP.Unmarshal(VoicePath.ReadUDP(datagram)) == Some(VP.Packet(id, seqNum, timestamp, ch, datagram[14..]))
    ensures VP.Unmarshal(VoicePath.ReadUDP(VoicePath.ReadUDP(datagram))) == Some(VP.Packet(id, seqNum, timestamp, ch, datagram[14..]))
    ensures VoicePath.Decrypted(cipher, VP.Packet(id, seqNum, timestamp, ch, datagram[14..])) == Some(opus)
  {
    hide VP.Put32, VP.Get32, VP.Put16, VP.Get16;
    var p := VP.Packet(id, seqNum, timestamp, ch, datagram[14..]);
    VoicePath.ReadUDPIs(datagram);
    VP.WireUnmarshal(datagram);
    assert VP.Wire(p)[..14] == VP.Header(p);
  }

  /** A client that speaks in the channel its session is in is heard by every other member who has a voice
      address and is not deafened: each gets the datagram at that address and decrypts the frame from it, and
      a listener who has not heard the speaker before plays it at once. (The client knows its channel
      cut down to 16 bits.) */
  lemma {:induction false} SpokenIsHeard(
      s: State, cipher: VoicePath.Aead, datagram: Bytes, from: UDPAddr,
      id: SessionId, seqNum: uint32, timestamp: uint32, ch: uint16, opus: Bytes, m: SessionId, heard: Playout.Speakers)
    requires Inv(s) && VoicePath.Carries(cipher, datagram, id, seqNum, timestamp, ch, opus) && |datagram| <= 1414
    requires id in s.sessions && !s.sessions[id].muted && (s.sessions[id].udpAddr.Some? ==> SameSource(s.sessions[id].udpAddr.value, from))
    requires 0 < s.sessions[id].channelID < 0x1_0000 && ch == s.sessions[id].channelID % 0x1_0000
    requires m != id && m in s.sessions && s.sessions[m].channelID == s.sessions[id].channelID && s.sessions[m].udpAddr.Some? && !s.sessions[m].deafened
    requires id !in heard
    ensures var to := Relayed(s, datagram, from).1; m in to && Some(to[m]) == s.sessions[m].udpAddr
    ensures var p := VP.Unmarshal(VoicePath.ReadUDP(VoicePath.ReadUDP(datagram)));
            && p.Some? && VoicePath.Decrypted(cipher, p.value) == Some(opus)
            && id in Playout.Heard(cipher, heard, p.value) && Playout.Heard(cipher, heard, p.value)[id].calls == [Jitter.Out(seqNum, Some(opus))]
  {
    hide Inv, SameSource, VP.Unmarshal, VoicePath.ReadUDP, VoicePath.Carries, VoicePath.Decrypted, Relayed, Jitter.Received;
    AsRead(cipher, datagram, id, seqNum, timestamp, ch, opus);
    RelayExact(s, datagram, from);
    Jitter.FirstPacket(Jitter.EMPTY_BUFFER, seqNum, opus);
    assert [] + [Jitter.Out(seqNum, Some(opus))] == [Jitter.Out(seqNum, Some(opus))];
  }

  /** A datagram of this session for this channel. */
  ghost predicate Speaks(datagram: Bytes, id: SessionId, c: ChannelId) {
    var p := VP.Unmarshal(VoicePath.ReadUDP(datagram));
    p.Some? && p.value.sessionID == id && p.value.channelID == c
  }

  /** After a datagram of its own a session has a voice address it can be reached at, and speak from; everybody
      else who was present still is. */
  lemma AfterSpeaking(s: State, id: SessionId, c: ChannelId, datagram: Bytes, from: UDPAddr, m: SessionId, other: UDPAddr)
    requires Inv(s) && Present(s, id, c, from) && Speaks(datagram, id, c) && Present(s, m, c, other) && m != id
    ensures var t := Stepped(s, Voice(datagram, from));
            && Inv(t) && Present(t, id, c, from) && t.sessions[id].udpAddr.Some?
            && Present(t, m, c, other) && t.sessions[m].udpAddr == s.sessions[m].udpAddr
  {
    hide Inv, Relayed, Names, VP.Unmarshal, VoicePath.ReadUDP, HasRoom;
    var a := Voice(datagram, from);
    StepInv(s, a);
    LiveAfter(s, a);
    NamedSession(datagram, id);
    NamedSession(datagram, m);
    Unchanged(s, a, id);
    Unchanged(s, a, m);
    AddressAfter(s, a, id);
    AddressAfter(s, a, m);
  }

  lemma Unchanged(s: State, a: Action, id: SessionId)
    requires Inv(s) && a.Voice? && id in s.sessions && id in Stepped(s, a).sessions
    ensures var x, y := s.sessions[id], Stepped(s, a).sessions[id];
            y.channelID == x.channelID && y.muted == x.muted && y.deafened == x.deafened
  {
    hide Inv, Stepped, HasRoom;
    ChannelAfter(s, a, id);
    FlagsAfter(s, a, id);
  }

  /** Two members of a channel who have each sent one datagram hear each other from then on: whatever
      either says next in that channel is forwarded to the other. */
  lemma {:induction false} HearEachOther(
      s: State, c: ChannelId, a: SessionId, fromA: UDPAddr, b: SessionId, fromB: UDPAddr,
      firstA: Bytes, firstB: Bytes, nextA: Bytes, nextB: Bytes)
    requires Inv(s) && a != b && Present(s, a, c, fromA) && Present(s, b, c, fromB)
    requires Speaks(firstA, a, c) && Speaks(firstB, b, c) && Speaks(nextA, a, c) && Speaks(nextB, b, c)
    ensures var t := Stepped(Stepped(s, Voice(firstA, fromA)), Voice(firstB, fromB));
            b in Relayed(t, nextA, fromA).1 && a in Relayed(t, nextB, fromB).1
  {
    hide Inv, Stepped, Relayed, SameSource, VP.Unmarshal, VoicePath.ReadUDP;
    AfterSpeaking(s, a, c, firstA, fromA, b, fromB);
    var u := Stepped(s, Voice(firstA, fromA));
    AfterSpeaking(u, b, c, firstB, fromB, a, fromA);
    var t := Stepped(u, Voice(firstB, fromB));
    RelayExact(t, nextA, fromA);
    RelayExact(t, nextB, fromB);
  }
}
