/** The client's jitter buffer (pkg/client/jitter.go) and the drain loop around it
    (pkg/client/engine.go:348-374). Sequence numbers are `uint32` and wrap. */
module Jitter {
  import opened Prelude

  const JITTER_BUF_SIZE := 5
  const MAX_JITTER_DELAY := 10

  type Frames = map<uint32, Bytes>

  /** One successful pop. A lost packet has no payload; an empty payload is not a loss. */
  datatype Out = Out(seqNum: uint32, payload: Option<Bytes>)

  /** `seqDiff` is the plain distance on the number line; unlike the rest of the buffer it does not
      wrap around, whatever its comment says. */
  function SeqDiff(a: uint32, b: uint32): uint32 {
    if a >= b then a - b else b - a
  }

  /** How far ahead of `next` the nearest stored frame is, looking from `i` to the delay limit. */
  function GapFrom(frames: Frames, next: uint32, i: nat): nat
    requires i <= MAX_JITTER_DELAY + 1
    decreases MAX_JITTER_DELAY + 1 - i
  {
    if i > MAX_JITTER_DELAY || Add32(next, i) in frames then i else GapFrom(frames, next, i + 1)
  }

  lemma {:induction false} GapFromLeast(frames: Frames, next: uint32, i: nat)
    requires i <= MAX_JITTER_DELAY + 1
    ensures var g := GapFrom(frames, next, i);
            && i <= g <= MAX_JITTER_DELAY + 1
            && (g <= MAX_JITTER_DELAY ==> Add32(next, g) in frames)
            && forall j :: i <= j < g ==> Add32(next, j) !in frames
    decreases MAX_JITTER_DELAY + 1 - i
  {
    if !(i > MAX_JITTER_DELAY || Add32(next, i) in frames) {
      GapFromLeast(frames, next, i + 1);
    }
  }

  /** The state of a jitter buffer. */
  datatype Buffer = Buffer(frames: Frames, next: uint32, ready: bool) {
    function Gap(): (g: nat)
      ensures g <= MAX_JITTER_DELAY + 1
      ensures g <= MAX_JITTER_DELAY ==> Add32(next, g) in frames
      ensures forall j :: 0 <= j < g ==> Add32(next, j) !in frames
    {
      GapFromLeast(frames, next, 0);
      GapFrom(frames, next, 0)
    }

    /** Nothing stored within the look-ahead: the next pop fails. */
    predicate Quiet() {
      !ready || Gap() > MAX_JITTER_DELAY
    }

    function Cleaned(): Buffer {
      this.(frames := map s | s in frames && SeqDiff(s, next) <= JITTER_BUF_SIZE * 3 :: frames[s])
    }

    function Pushed(s: uint32, payload: Bytes): Buffer {
      var started := if ready then this else this.(next := s, ready := true);
      var stored := started.(frames := frames[s := payload]);
      if |stored.frames| > JITTER_BUF_SIZE * 3 then stored.Cleaned() else stored
    }

    function PopResult(): Option<Out> {
      if Quiet() then None
      else if next in frames then Some(Out(next, Some(frames[next])))
      else Some(Out(next, None))
    }

    function Popped(): Buffer {
      if Quiet() then this else this.(frames := frames - {next}, next := Add32(next, 1))
    }

    function WasReset(): Buffer {
      this.(frames := map[], ready := false)
    }
  }

  const EMPTY_BUFFER := Buffer(map[], 0, false)

  class JitterBuffer {
    /** Whose packets this buffer is for. */
    ghost const speaker: uint32
    var frames: Frames
    var nextSeq: uint32
    var ready: bool

    function View(): Buffer
      reads this
    {
      Buffer(frames, nextSeq, ready)
    }

    constructor (ghost speaker: uint32)
      ensures this.speaker == speaker && View() == EMPTY_BUFFER
    {
      this.speaker := speaker;
      frames, nextSeq, ready := map[], 0, false;
    }

    method Push(seqNum: uint32, payload: Bytes)
      modifies this
      ensures View() == old(View()).Pushed(seqNum, payload)
    {
      if !ready {
        nextSeq := seqNum;
        ready := true;
      }
      frames := frames[seqNum := payload];
      if |frames| > JITTER_BUF_SIZE * 3 {
        Cleanup();
      }
    }

    method Pop() returns (r: Option<Out>)
      modifies this
      ensures r == old(View()).PopResult() && View() == old(View()).Popped()
    {
      if !ready {
        return None;
      }
      assert Add32(nextSeq, 0) == nextSeq;
      if nextSeq in frames {
        r := Some(Out(nextSeq, Some(frames[nextSeq])));
        frames := frames - {nextSeq};
        nextSeq := Add32(nextSeq, 1);
        return;
      }
      for i := 1 to MAX_JITTER_DELAY + 1
        invariant forall j :: 0 <= j < i ==> Add32(nextSeq, j) !in frames
        invariant View() == old(View())
      {
        if Add32(nextSeq, i) in frames {
          r := Some(Out(nextSeq, None));
          assert frames - {nextSeq} == frames;
          nextSeq := Add32(nextSeq, 1);
          return;
        }
      }
      r := None;
    }

    method Reset()
      modifies this
      ensures View() == old(View()).WasReset()
      ensures frames == map[] && !ready && nextSeq == old(nextSeq)
    {
      frames, ready := map[], false;
    }

    method Cleanup()
      modifies this
      ensures View() == old(View()).Cleaned()
    {
      var rest := frames.Keys;
      while rest != {}
        invariant nextSeq == old(nextSeq) && ready == old(ready)
        invariant rest <= old(frames).Keys
        invariant forall s :: s in frames <==> s in old(frames) && (s in rest || SeqDiff(s, nextSeq) <= JITTER_BUF_SIZE * 3)
        invariant forall s :: s in frames ==> frames[s] == old(frames)[s]
        decreases rest
      {
        var s :| s in rest;
        rest := rest - {s};
        if SeqDiff(s, nextSeq) > JITTER_BUF_SIZE * 3 {
          frames := frames - {s};
        }
      }
    }
  }

  // ----- Draining -----

  /** A loss brings the nearest frame one step closer. */
  lemma GapShrinks(b: Buffer)
    requires b.ready && 0 < b.Gap() <= MAX_JITTER_DELAY
    ensures b.Popped().frames == b.frames && b.Popped().Gap() == b.Gap() - 1
  {
    hide Add32;
    var c := b.Popped();
    AddNone(b.next);
    assert b.frames - {b.next} == b.frames;
    forall j: nat ensures Add32(c.next, j) == Add32(b.next, 1 + j) {
      AddAdd(b.next, 1, j);
    }
    assert Add32(c.next, b.Gap() - 1) in c.frames;
    assert forall j: nat :: j < b.Gap() - 1 ==> Add32(c.next, j) !in c.frames;
  }

  lemma HitConsumes(b: Buffer)
    requires b.ready && b.Gap() == 0
    ensures b.next in b.frames && |b.Popped().frames| == |b.frames| - 1
  {
    AddNone(b.next);
    assert (b.frames - {b.next}).Keys == b.frames.Keys - {b.next};
  }

  lemma PopShrinks(b: Buffer)
    requires !b.Quiet()
    ensures |b.Popped().frames| < |b.frames| || (b.Popped().frames == b.frames && b.Popped().Gap() < b.Gap())
  {
    if b.Gap() == 0 { HitConsumes(b); } else { GapShrinks(b); }
  }

  /** Popping until it fails: what is played, and the buffer afterwards. It ends from every state:
      a hit uses up a stored frame, a loss comes closer to one. */
  function Drain(b: Buffer): (seq<Out>, Buffer)
    decreases |b.frames|, b.Gap()
  {
    if b.Quiet() then ([], b)
    else
      PopShrinks(b);
      var (outs, c) := Drain(b.Popped());
      ([b.PopResult().value] + outs, c)
  }

  lemma DrainStep(b: Buffer)
    ensures b.PopResult().Some? ==>
              && Drain(b) == ([b.PopResult().value] + Drain(b.Popped()).0, Drain(b.Popped()).1)
              && (|b.Popped().frames| < |b.frames| || (b.Popped().frames == b.frames && b.Popped().Gap() < b.Gap()))
    ensures b.PopResult().None? ==> Drain(b) == ([], b) && b.Popped() == b
  {
    if b.PopResult().Some? { PopShrinks(b); }
  }

  /** The drain loop of `processIncomingVoice`. */
  method DrainLoop(jb: JitterBuffer) returns (played: seq<Out>)
    modifies jb
    ensures (played, jb.View()) == Drain(old(jb.View()))
  {
    hide Buffer.Gap, Buffer.Quiet, Buffer.PopResult, Buffer.Popped, Drain;
    played := [];
    ghost var before := jb.View();
    var data := jb.Pop();
    assert [] + Drain(before).0 == Drain(before).0;
    while data.Some?
      invariant data == before.PopResult() && jb.View() == before.Popped()
      invariant Drain(old(jb.View())) == (played + Drain(before).0, Drain(before).1)
      decreases |before.frames|, before.Gap()
    {
      DrainStep(before);
      assert played + ([data.value] + Drain(jb.View()).0) == played + [data.value] + Drain(jb.View()).0;
      played := played + [data.value];
      before := jb.View();
      data := jb.Pop();
    }
    DrainStep(before);
    assert played + [] == played;
  }

  function Lookup(frames: Frames, s: uint32): Option<Bytes> {
    if s in frames then Some(frames[s]) else None
  }

  /** Exactly what a drain plays: consecutive sequence numbers from `next` on, each with its frame
      if one is stored. */
  ghost predicate PlaysFrom(b: Buffer, outs: seq<Out>, c: Buffer) {
    && (forall i :: 0 <= i < |outs| ==> outs[i] == Out(Add32(b.next, i), Lookup(b.frames, Add32(b.next, i))))
    && c.next == Add32(b.next, |outs|) && c.ready == b.ready
    && (forall s :: s in c.frames <==> s in b.frames && Ahead(b.next, s) >= |outs|)
    && (forall s :: s in c.frames ==> c.frames[s] == b.frames[s])
  }

  /** All stored frames are fewer than `r` steps ahead. */
  ghost predicate Within(b: Buffer, r: nat) {
    forall s :: s in b.frames ==> Ahead(b.next, s) < r
  }

  lemma WithinPopped(b: Buffer, r: nat)
    requires !b.Quiet() && Within(b, r)
    ensures r > 0 && Within(b.Popped(), r - 1)
  {
    hide Add32, Ahead;
    assert Add32(b.next, b.Gap()) in b.frames;
    var c := b.Popped();
    forall s | s in c.frames ensures Ahead(c.next, s) < r - 1 {
      AheadNext(b.next, s);
    }
  }

  /** A drain pops no sequence number twice. */
  lemma {:induction false} DrainLength(b: Buffer, r: nat)
    requires Within(b, r)
    ensures |Drain(b).0| <= r
    decreases |b.frames|, b.Gap()
  {
    if !b.Quiet() {
      PopShrinks(b);
      WithinPopped(b, r);
      DrainLength(b.Popped(), r - 1);
    }
  }

  lemma {:induction false} DrainExact(b: Buffer)
    ensures PlaysFrom(b, Drain(b).0, Drain(b).1)
    ensures Drain(b).1.Quiet()
    decreases |b.frames|, b.Gap()
  {
    if !b.Quiet() {
      PopShrinks(b);
      var c := b.Popped();
      DrainExact(c);
      assert Within(b, MOD32);
      WithinPopped(b, MOD32);
      DrainLength(c, MOD32 - 1);
      PopThenPlays(b, Drain(c).0, Drain(c).1);
    } else {
      AddNone(b.next);
    }
  }

  lemma PopThenPlays(b: Buffer, outs: seq<Out>, e: Buffer)
    requires !b.Quiet() && PlaysFrom(b.Popped(), outs, e) && |outs| < MOD32
    ensures PlaysFrom(b, [b.PopResult().value] + outs, e)
  {
    hide Add32, Ahead, Buffer.Gap, Lookup;
    var c := b.Popped();
    var o := b.PopResult().value;
    assert c.frames == b.frames - {b.next} && c.next == Add32(b.next, 1);
    LookupHere(b);
    PlaysOneMore(b.frames, b.next, c.frames, outs, e.frames, o);
    AddAdd(b.next, 1, |outs|);
  }

  lemma LookupHere(b: Buffer)
    requires !b.Quiet()
    ensures b.PopResult() == Some(Out(b.next, Lookup(b.frames, b.next)))
  {
  }

  lemma PlaysOneMore(f: Frames, next: uint32, g: Frames, outs: seq<Out>, h: Frames, o: Out)
    requires g == f - {next} && o == Out(next, Lookup(f, next)) && |outs| < MOD32
    requires forall i :: 0 <= i < |outs| ==> outs[i] == Out(Add32(Add32(next, 1), i), Lookup(g, Add32(Add32(next, 1), i)))
    requires forall s :: s in h <==> s in g && Ahead(Add32(next, 1), s) >= |outs|
    ensures forall i :: 0 <= i < |[o] + outs| ==> ([o] + outs)[i] == Out(Add32(next, i), Lookup(f, Add32(next, i)))
    ensures forall s :: s in h <==> s in f && Ahead(next, s) >= |[o] + outs|
  {
    hide Add32, Ahead;
    AddNone(next);
    AheadHere(next);
    forall i | 0 <= i < |[o] + outs| ensures ([o] + outs)[i] == Out(Add32(next, i), Lookup(f, Add32(next, i))) {
      if i > 0 {
        assert ([o] + outs)[i] == outs[i - 1];
        AddAdd(next, 1, i - 1);
        AddApart(next, i, 0);
      }
    }
    forall s ensures s in h <==> s in f && Ahead(next, s) >= |[o] + outs| {
      if s != next { AheadNext(next, s); }
    }
  }

  /** At most 11 pops for each stored frame. */
  lemma {:induction false} DrainCost(b: Buffer)
    ensures b.Quiet() ==> Drain(b).0 == []
    ensures !b.Quiet() ==> |b.frames| > 0 && |Drain(b).0| <= (MAX_JITTER_DELAY + 1) * (|b.frames| - 1) + b.Gap() + 1
    ensures |Drain(b).0| <= (MAX_JITTER_DELAY + 1) * |b.frames|
    decreases |b.frames|, b.Gap()
  {
    if !b.Quiet() {
      PopShrinks(b);
      assert Add32(b.next, b.Gap()) in b.frames;
      DrainCost(b.Popped());
      if b.Gap() == 0 { HitConsumes(b); } else { GapShrinks(b); }
    }
  }

  /** A frame is stored at most 10 steps from `at` on. */
  ghost predicate FrameNear(frames: Frames, at: uint32) {
    exists j: nat :: j <= MAX_JITTER_DELAY && Add32(at, j) in frames
  }

  lemma QuietMeaning(b: Buffer)
    requires b.ready
    ensures b.Quiet() <==> !FrameNear(b.frames, b.next)
  {
    if !b.Quiet() { assert Add32(b.next, b.Gap()) in b.frames; }
  }

  /** A drain stops where none of the 11 sequence numbers from `next` on is stored, and not earlier. */
  lemma {:induction false} DrainStops(b: Buffer)
    ensures Drain(b).1.ready ==> !FrameNear(Drain(b).1.frames, Drain(b).1.next)
    ensures forall i :: 0 <= i < |Drain(b).0| ==> FrameNear(b.frames, Add32(b.next, i))
    decreases |b.frames|, b.Gap()
  {
    hide FrameNear, Add32, Buffer.Gap;
    if b.Quiet() {
      if b.ready { QuietMeaning(b); }
    } else {
      PopShrinks(b);
      var c := b.Popped();
      DrainStops(c);
      forall i | 0 <= i < |Drain(b).0| ensures FrameNear(b.frames, Add32(b.next, i)) {
        if i == 0 {
          QuietMeaning(b);
          AddNone(b.next);
        } else {
          AddAdd(b.next, 1, i - 1);
          NearKept(c.frames, b.frames, Add32(b.next, i));
        }
      }
    }
  }

  lemma NearKept(f: Frames, g: Frames, at: uint32)
    requires FrameNear(f, at) && forall s :: s in f ==> s in g
    ensures FrameNear(g, at)
  {
    var j: nat :| j <= MAX_JITTER_DELAY && Add32(at, j) in f;
    assert Add32(at, j) in g;
  }

  // ----- One received packet -----

  /** Push a packet, then drain. */
  function Received(b: Buffer, s: uint32, payload: Bytes): (seq<Out>, Buffer) {
    Drain(b.Pushed(s, payload))
  }

  /** Whether a packet at most 10 steps ahead survives being pushed: cleanup uses the plain
      distance, so it throws the packet away when the window crosses the wrap. */
  lemma PushSurvives(b: Buffer, s: uint32, payload: Bytes)
    requires b.ready && Ahead(b.next, s) <= MAX_JITTER_DELAY
    ensures s in b.Pushed(s, payload).frames <==> |b.frames[s := payload]| <= JITTER_BUF_SIZE * 3 || s >= b.next
    ensures s in b.Pushed(s, payload).frames ==> b.Pushed(s, payload).frames[s] == payload
  {
  }

  /** The buffer after a push, in numbers: the first packet sets the next number; what was stored stays, with
      the new frame, unless that makes more than 15 frames: then exactly those within 15 of the next number
      on the number line stay. */
  lemma PushIs(b: Buffer, s: uint32, payload: Bytes)
    ensures var c := b.Pushed(s, payload); var n := |b.frames[s := payload]|;
            && c.ready && c.next == (if b.ready then b.next else s)
            && (forall t :: t in c.frames <==> (t == s || t in b.frames) && (n <= 15 || -15 <= t - c.next <= 15))
            && (forall t :: t in c.frames ==> c.frames[t] == if t == s then payload else b.frames[t])
  {
  }

  predicate StoredAhead(b: Buffer, i: nat) {
    (b.next + i) % 0x1_0000_0000 in b.frames
  }

  /** A pop, in numbers: the next frame if it is stored; else a loss if one of the ten numbers after it is;
      else nothing. Either of the first two takes that frame and moves on by one. */
  lemma PopIs(b: Buffer)
    ensures var near := exists i: nat :: 1 <= i <= 10 && StoredAhead(b, i);
            && b.PopResult() == (if b.ready && b.next in b.frames then Some(Out(b.next, Some(b.frames[b.next])))
                                 else if b.ready && near then Some(Out(b.next, None)) else None)
            && b.Popped() == (if b.ready && (b.next in b.frames || near) then Buffer(b.frames - {b.next}, (b.next + 1) % 0x1_0000_0000, true) else b)
  {
    var g := b.Gap();
    AddNone(b.next);
    if g <= MAX_JITTER_DELAY {
      assert StoredAhead(b, g);
    } else {
      forall i: nat | 1 <= i <= 10 ensures !StoredAhead(b, i) {
        assert Add32(b.next, i) !in b.frames;
      }
    }
    if i: nat :| 1 <= i <= 10 && StoredAhead(b, i) {
      assert Add32(b.next, i) in b.frames;
    }
  }

  lemma PushedFrames(b: Buffer, s: uint32, payload: Bytes)
    requires b.ready
    ensures b.Pushed(s, payload).next == b.next && b.Pushed(s, payload).ready
    ensures forall t :: t in b.Pushed(s, payload).frames ==> t == s || t in b.frames
  {
  }

  /** The exact effect of a packet `d` steps ahead of a buffer that was drained before. */
  lemma PacketEffect(b: Buffer, s: uint32, payload: Bytes)
    requires b.ready && b.Quiet()
    ensures var d := Ahead(b.next, s); var c := b.Pushed(s, payload); var (outs, e) := Received(b, s, payload);
            if d > MAX_JITTER_DELAY || s !in c.frames then outs == [] && e.next == b.next
            else && |outs| > d
                 && (forall i :: 0 <= i < d ==> outs[i] == Out(Add32(b.next, i), None))
                 && outs[d] == Out(s, Some(payload))
                 && (|outs| == d + 1 <==> !FrameNear(c.frames, Add32(s, 1)))
  {
    hide Buffer.Pushed, Buffer.Gap, Add32, Ahead, FrameNear;
    var d := Ahead(b.next, s);
    var c := b.Pushed(s, payload);
    PushedFrames(b, s, payload);
    QuietExceptOne(b, c, s);
    DrainExact(c);
    if d <= MAX_JITTER_DELAY && s in c.frames {
      PushSurvives(b, s, payload);
      DrainAtLeast(c, d);
      AheadAdd(b.next, s);
      AddAdd(b.next, d, 1);
      StopsAt(c, d);
      forall i | 0 <= i < d ensures Add32(b.next, i) !in c.frames {
        assert Add32(b.next, i) !in c.frames;
      }
    } else {
      AddNone(b.next);
    }
  }

  lemma QuietExceptOne(b: Buffer, c: Buffer, s: uint32)
    requires b.ready && b.Quiet() && c.ready && c.next == b.next
    requires forall t :: t in c.frames ==> t == s || t in b.frames
    ensures var d := Ahead(b.next, s); if d <= MAX_JITTER_DELAY && s in c.frames then c.Gap() == d else c.Quiet()
  {
    hide Add32, Ahead;
    var d := Ahead(b.next, s);
    AheadAdd(b.next, s);
    forall j | 0 <= j <= MAX_JITTER_DELAY && j != d ensures Add32(c.next, j) !in c.frames {
      assert Add32(b.next, j) !in b.frames;
      AddApart(b.next, j, d);
    }
  }

  /** The drain reaches the nearest frame and plays it. */
  lemma {:induction false} DrainAtLeast(b: Buffer, g: nat)
    requires b.ready && g == b.Gap() <= MAX_JITTER_DELAY
    ensures |Drain(b).0| > g
    decreases g
  {
    PopShrinks(b);
    if g > 0 {
      GapShrinks(b);
      DrainAtLeast(b.Popped(), g - 1);
    }
  }

  /** It plays on exactly if another frame comes into the look-ahead. */
  lemma {:induction false} StopsAt(b: Buffer, g: nat)
    requires b.ready && g == b.Gap() <= MAX_JITTER_DELAY
    ensures |Drain(b).0| == g + 1 <==> !FrameNear(b.frames, Add32(b.next, g + 1))
    decreases g
  {
    hide FrameNear, Add32;
    var c := b.Popped();
    PopShrinks(b);
    if g > 0 {
      GapShrinks(b);
      StopsAt(c, g - 1);
      AddAdd(b.next, 1, g);
    } else {
      AddNone(b.next);
      QuietMeaning(c);
      NearWithout(b.frames, b.next);
    }
  }

  /** The number just played is not within the look-ahead of the next one. */
  lemma NearWithout(f: Frames, next: uint32)
    ensures FrameNear(f - {next}, Add32(next, 1)) <==> FrameNear(f, Add32(next, 1))
  {
    hide Add32;
    if FrameNear(f, Add32(next, 1)) {
      var j: nat :| j <= MAX_JITTER_DELAY && Add32(Add32(next, 1), j) in f;
      AddAdd(next, 1, j);
      AddApart(next, 1 + j, 0);
      AddNone(next);
      assert Add32(Add32(next, 1), j) in f - {next};
    }
    if FrameNear(f - {next}, Add32(next, 1)) {
      NearKept(f - {next}, f, Add32(next, 1));
    }
  }

  /** Read from the packet's side: up to 10 steps ahead, it is played after exactly as many losses as
      it is ahead, unless the buffer is being cleaned up and the window crosses the wrap. */
  lemma PacketPlayed(b: Buffer, s: uint32, payload: Bytes)
    requires b.ready && b.Quiet()
    ensures var d := Ahead(b.next, s); var outs := Received(b, s, payload).0;
            (|outs| > d && outs[d] == Out(s, Some(payload)) && forall i :: 0 <= i < d ==> outs[i] == Out(Add32(b.next, i), None))
            <==> d <= MAX_JITTER_DELAY && (|b.frames[s := payload]| <= JITTER_BUF_SIZE * 3 || s >= b.next)
  {
    PacketEffect(b, s, payload);
    if Ahead(b.next, s) <= MAX_JITTER_DELAY { PushSurvives(b, s, payload); }
  }

  /** A packet may start more than itself: after packets 0 and 16, packet 5 (4 ahead) is followed by
      packet 16, which had been waiting 15 ahead. */
  lemma EarlyFrameFollows(p: Bytes, q: Bytes, r: Bytes)
    ensures var b := Received(Received(EMPTY_BUFFER, 0, p).1, 16, q).1;
            && b == Buffer(map[16 := q], 1, true) && b.Quiet()
            && Ahead(b.next, 5) == 4 && |Received(b, 5, r).0| > 5
  {
    var b0 := Buffer(map[0 := p], 0, true);
    assert EMPTY_BUFFER.Pushed(0, p) == b0;
    DrainExact(b0);
    assert b0.Gap() == 0;
    StopsAt(b0, 0);
    DrainAtLeast(b0, 0);
    var b1 := Received(EMPTY_BUFFER, 0, p).1;
    assert b1.frames == map[];
    assert b1 == Buffer(map[], 1, true);
    PacketEffect(b1, 16, q);
    var c := b1.Pushed(16, q);
    assert c == Buffer(map[16 := q], 1, true);
    DrainExact(c);
    var b := Received(b1, 16, q).1;
    assert b.frames == map[16 := q];
    PacketEffect(b, 5, r);
    var d := b.Pushed(5, r);
    assert d == Buffer(map[16 := q, 5 := r], 1, true);
    assert Add32(6, 10) in d.frames;
  }

  /** The first packet after a start or reset is played at once. */
  lemma FirstPacket(b: Buffer, s: uint32, payload: Bytes)
    requires !b.ready && b.frames == map[]
    ensures Received(b, s, payload) == ([Out(s, Some(payload))], Buffer(map[], Add32(s, 1), true))
  {
    var c := b.Pushed(s, payload);
    assert c == Buffer(map[s := payload], s, true);
    AddNone(s);
    assert c.Gap() == 0;
    assert c.frames - {s} == map[];
    var e := Buffer(map[], Add32(s, 1), true);
    assert c.Popped() == e && e.Quiet();
    assert Drain(e) == ([], e);
    assert c.PopResult() == Some(Out(s, Some(payload)));
    assert Drain(c) == ([Out(s, Some(payload))] + [], e);
    assert Received(b, s, payload) == Drain(c);
    assert [Out(s, Some(payload))] + [] == [Out(s, Some(payload))];
  }

  // ----- Whole runs -----

  datatype Op = Push(seqNum: uint32, payload: Bytes) | Pop | Reset

  /** A buffer with what happened since the last reset: what was popped, and the payload last pushed
      under each number. */
  datatype History = History(b: Buffer, popped: seq<Out>, latest: Frames) {
    function Step(op: Op): History {
      match op
      case Push(s, payload) => History(b.Pushed(s, payload), popped, latest[s := payload])
      case Pop => History(b.Popped(), if b.PopResult().Some? then popped + [b.PopResult().value] else popped, latest)
      case Reset => History(b.WasReset(), [], map[])
    }

    ghost predicate Inv() {
      && |b.frames| <= 2 * (JITTER_BUF_SIZE * 3) + 1
      && (!b.ready ==> b.frames == map[] && popped == [])
      && (forall s :: s in b.frames ==> s in latest && b.frames[s] == latest[s])
      && (popped != [] ==> b.next == Add32(popped[0].seqNum, |popped|))
      && (forall i :: 0 <= i < |popped| ==> popped[i].seqNum == Add32(popped[0].seqNum, i))
    }
  }

  function Run(ops: seq<Op>): History {
    if ops == [] then History(EMPTY_BUFFER, [], map[]) else Run(ops[..|ops| - 1]).Step(ops[|ops| - 1])
  }

  /** Only 31 keys can survive a cleanup: those within 15 of `next` on the number line. */
  lemma CleanedSize(b: Buffer)
    ensures |b.Cleaned().frames| <= 2 * (JITTER_BUF_SIZE * 3) + 1
  {
    var keys: set<int> := b.Cleaned().frames.Keys;
    IntervalBound(keys, b.next - JITTER_BUF_SIZE * 3, 2 * (JITTER_BUF_SIZE * 3) + 1);
  }

  lemma PushKeepsInv(h: History, s: uint32, payload: Bytes)
    requires h.Inv()
    ensures h.Step(Push(s, payload)).Inv()
  {
    hide Add32, Buffer.Gap;
    var started := if h.b.ready then h.b else h.b.(next := s, ready := true);
    CleanedSize(started.(frames := started.frames[s := payload]));
  }

  lemma PopKeepsInv(h: History)
    requires h.Inv()
    ensures h.Step(Pop).Inv()
  {
    hide Add32, Buffer.Gap;
    if !h.b.Quiet() {
      AddNone(h.b.next);
      if h.popped != [] { AddAdd(h.popped[0].seqNum, |h.popped|, 1); }
      SubsetSize(h.b.Popped().frames.Keys, h.b.frames.Keys);
    }
  }

  lemma StepKeepsInv(h: History, op: Op)
    requires h.Inv()
    ensures h.Step(op).Inv()
  {
    match op
    case Push(s, payload) => PushKeepsInv(h, s, payload);
    case Pop => PopKeepsInv(h);
    case Reset =>
  }

  lemma {:induction false} RunKeepsInv(ops: seq<Op>)
    ensures Run(ops).Inv()
  {
    if ops != [] {
      RunKeepsInv(ops[..|ops| - 1]);
      StepKeepsInv(Run(ops[..|ops| - 1]), ops[|ops| - 1]);
    }
  }

  /** Storage is bounded on every run. */
  lemma BufferBounded(ops: seq<Op>)
    ensures |Run(ops).b.frames| <= 31
  {
    RunKeepsInv(ops);
  }

  /** Between resets, pops return consecutive numbers; none repeats within a turn of the circle. */
  lemma PopsConsecutive(ops: seq<Op>, i: nat, j: nat)
    requires i < j < |Run(ops).popped|
    ensures Run(ops).popped[j].seqNum == Add32(Run(ops).popped[i].seqNum, j - i)
    ensures j - i < MOD32 ==> Run(ops).popped[j].seqNum != Run(ops).popped[i].seqNum
  {
    hide Run, Add32;
    RunKeepsInv(ops);
    var first := Run(ops).popped[0].seqNum;
    AddAdd(first, i, j - i);
    if j - i < MOD32 {
      AddApart(Add32(first, i), j - i, 0);
      AddNone(Add32(first, i));
    }
  }

  /** A payload popped for `s` is the one last pushed under `s` since the last reset. */
  lemma PopReturnsLatest(ops: seq<Op>, s: uint32, payload: Bytes)
    requires Run(ops).b.PopResult() == Some(Out(s, Some(payload)))
    ensures s in Run(ops).latest && Run(ops).latest[s] == payload
  {
    RunKeepsInv(ops);
  }

  // ----- A speaker's packets, each pushed and drained -----

  datatype Packet = Packet(seqNum: uint32, payload: Bytes)

  /** What is played for a whole sequence of packets, and the buffer afterwards. */
  function Playout(packets: seq<Packet>): (seq<Out>, Buffer) {
    if packets == [] then ([], EMPTY_BUFFER)
    else
      var (outs, b) := Playout(packets[..|packets| - 1]);
      var p := packets[|packets| - 1];
      (outs + Received(b, p.seqNum, p.payload).0, Received(b, p.seqNum, p.payload).1)
  }

  /** After every packet the buffer is drained, so `PacketEffect` describes the next one; and what
      has been played has consecutive numbers up to the buffer's next one. */
  lemma {:induction false} PlayoutInv(packets: seq<Packet>)
    ensures var (outs, b) := Playout(packets);
            && b.Quiet()
            && (b.ready <==> packets != []) && (!b.ready ==> b == EMPTY_BUFFER)
            && (forall i :: 0 <= i < |outs| ==> outs[i].seqNum == Add32(packets[0].seqNum, i))
            && (packets != [] ==> b.next == Add32(packets[0].seqNum, |outs|))
  {
    if packets != [] {
      PlayoutInv(packets[..|packets| - 1]);
      var (outs, b) := Playout(packets[..|packets| - 1]);
      var p := packets[|packets| - 1];
      PlayoutStep(packets[0].seqNum, outs, b, p);
    }
  }

  lemma PushedNext(b: Buffer, s: uint32, payload: Bytes)
    ensures b.Pushed(s, payload).ready && b.Pushed(s, payload).next == if b.ready then b.next else s
  {
  }

  lemma PlayoutStep(first: uint32, outs: seq<Out>, b: Buffer, p: Packet)
    requires !b.ready ==> outs == [] && first == p.seqNum
    requires forall i :: 0 <= i < |outs| ==> outs[i].seqNum == Add32(first, i)
    requires b.ready ==> b.next == Add32(first, |outs|)
    ensures var (more, c) := Received(b, p.seqNum, p.payload); var all := outs + more;
            && c.Quiet() && c.ready && (forall i :: 0 <= i < |all| ==> all[i].seqNum == Add32(first, i)) && c.next == Add32(first, |all|)
  {
    hide Add32, Ahead, Buffer.Gap, Lookup, Buffer.Pushed, Drain, Buffer.Quiet;
    var c := b.Pushed(p.seqNum, p.payload);
    PushedNext(b, p.seqNum, p.payload);
    DrainExact(c);
    AddNone(first);
    PlaysOn(first, outs, c, Drain(c).0, Drain(c).1);
  }

  lemma PlaysOn(first: uint32, outs: seq<Out>, c: Buffer, more: seq<Out>, e: Buffer)
    requires forall i :: 0 <= i < |outs| ==> outs[i].seqNum == Add32(first, i)
    requires c.next == Add32(first, |outs|) && PlaysFrom(c, more, e)
    ensures forall i :: 0 <= i < |outs + more| ==> (outs + more)[i].seqNum == Add32(first, i)
    ensures e.next == Add32(first, |outs + more|)
  {
    hide Add32, Ahead, Lookup;
    forall i | 0 <= i < |outs + more| ensures (outs + more)[i].seqNum == Add32(first, i) {
      if i >= |outs| {
        assert (outs + more)[i] == more[i - |outs|];
        AddAdd(first, |outs|, i - |outs|);
      }
    }
    AddAdd(first, |outs|, |more|);
  }

  /** Whatever packets came before: the next one is played after exactly as many losses as it is ahead,
      if and only if it is at most 10 ahead and is not thrown away by a cleanup across the wrap. */
  lemma NextPacketPlayed(packets: seq<Packet>, p: Packet)
    requires packets != []
    ensures var b := Playout(packets).1; var d := Ahead(b.next, p.seqNum); var outs := Received(b, p.seqNum, p.payload).0;
            (|outs| > d && outs[d] == Out(p.seqNum, Some(p.payload)) && forall i :: 0 <= i < d ==> outs[i] == Out(Add32(b.next, i), None))
            <==> d <= MAX_JITTER_DELAY && (|b.frames[p.seqNum := p.payload]| <= JITTER_BUF_SIZE * 3 || p.seqNum >= b.next)
  {
    hide Add32, Ahead, Buffer.Quiet, Buffer.Pushed, Drain, Received;
    PlayoutInv(packets);
    PacketPlayed(Playout(packets).1, p.seqNum, p.payload);
  }

  // ----- A packet lost to a cleanup -----

  /** 15 packets 11 to 25 ahead of `next`, across the wrap. */
  function EarlyPackets(q: Bytes, n: nat): seq<Packet>
    requires n <= 15
  {
    seq(n, i requires 0 <= i < n => Packet(7 + i, q))
  }

  function EarlyFrames(q: Bytes, n: nat): Frames
    requires n <= 15
  {
    if n == 0 then map[] else EarlyFrames(q, n - 1)[6 + n := q]
  }

  lemma {:induction false} EarlyFrameCount(q: Bytes, n: nat)
    requires n <= 15
    ensures forall s :: s in EarlyFrames(q, n) <==> 7 <= s < 7 + n
    ensures |EarlyFrames(q, n)| == n
  {
    if n > 0 {
      EarlyFrameCount(q, n - 1);
      assert EarlyFrames(q, n).Keys == EarlyFrames(q, n - 1).Keys + {6 + n};
    }
  }

  lemma QuietStays(b: Buffer, s: uint32, payload: Bytes)
    requires b.ready && b.Quiet() && Ahead(b.next, s) > MAX_JITTER_DELAY
    requires |b.frames[s := payload]| <= JITTER_BUF_SIZE * 3
    ensures Received(b, s, payload) == ([], b.(frames := b.frames[s := payload]))
  {
    hide Add32, Ahead, Buffer.Gap;
    QuietExceptOne(b, b.Pushed(s, payload), s);
  }

  lemma {:induction false} EarlyWait(p: Bytes, q: Bytes, n: nat)
    requires n <= 15
    ensures Playout([Packet(MOD32 - 5, p)] + EarlyPackets(q, n)) == ([Out(MOD32 - 5, Some(p))], Buffer(EarlyFrames(q, n), MOD32 - 4, true))
  {
    hide Buffer.Gap, Received, Buffer.Quiet;
    var first := [Packet(MOD32 - 5, p)];
    if n == 0 {
      FirstPacket(EMPTY_BUFFER, MOD32 - 5, p);
      PlayoutNext([], first[0]);
      assert first + EarlyPackets(q, 0) == [] + first;
      assert [] + [Out(MOD32 - 5, Some(p))] == [Out(MOD32 - 5, Some(p))];
    } else {
      EarlyWait(p, q, n - 1);
      var before := first + EarlyPackets(q, n - 1);
      PlayoutInv(before);
      EarlyFrameCount(q, n);
      QuietStays(Playout(before).1, 6 + n, q);
      PlayoutNext(before, Packet(6 + n, q));
      assert first + EarlyPackets(q, n) == before + [Packet(6 + n, q)];
      assert [Out(MOD32 - 5, Some(p))] + [] == [Out(MOD32 - 5, Some(p))];
    }
  }

  lemma PlayoutNext(packets: seq<Packet>, p: Packet)
    ensures var (outs, b) := Playout(packets); var (more, c) := Received(b, p.seqNum, p.payload);
            Playout(packets + [p]) == (outs + more, c)
  {
    hide Received;
    assert (packets + [p])[..|packets|] == packets;
  }

  /** After packet 2^32-5 and packets 7 to 21, packet 0 is 4 ahead. It is the 16th frame, so a cleanup
      runs; the plain distances to 2^32-4 are large, and everything stored is thrown away. */
  lemma {:induction false} CleanupAcrossWrap(p: Bytes, q: Bytes, r: Bytes)
    ensures var b := Playout([Packet(MOD32 - 5, p)] + EarlyPackets(q, 15)).1;
            Ahead(b.next, 0) == 4 && Received(b, 0, r) == ([], Buffer(map[], b.next, true))
  {
    hide Playout, Drain, EarlyFrames, Buffer.Pushed;
    EarlyWait(p, q, 15);
    EarlyFrameCount(q, 15);
    ThrownAway(EarlyFrames(q, 15), r);
    EmptyDrains(MOD32 - 4);
  }

  lemma ThrownAway(f: Frames, r: Bytes)
    requires |f| == 15 && forall s :: s in f ==> 7 <= s < 22
    ensures Buffer(f, MOD32 - 4, true).Pushed(0, r) == Buffer(map[], MOD32 - 4, true)
  {
    assert f[0 := r].Keys == f.Keys + {0};
    assert Buffer(f, MOD32 - 4, true).Pushed(0, r).frames == map[];
  }

  lemma EmptyDrains(next: uint32)
    ensures Drain(Buffer(map[], next, true)) == ([], Buffer(map[], next, true))
  {
  }

  // ----- Falling silent -----

  /** A packet that is played when it is received. */
  predicate Plays(b: Buffer, p: Packet) {
    Ahead(b.next, p.seqNum) <= MAX_JITTER_DELAY && (|b.frames[p.seqNum := p.payload]| <= JITTER_BUF_SIZE * 3 || p.seqNum >= b.next)
  }

  lemma PlaysIff(b: Buffer, p: Packet)
    requires b.ready && b.Quiet()
    ensures Received(b, p.seqNum, p.payload).0 != [] <==> Plays(b, p)
    ensures !Plays(b, p) ==> Received(b, p.seqNum, p.payload).1.next == b.next
  {
    hide Buffer.Gap, Buffer.Pushed, Add32, Ahead, Drain;
    PacketEffect(b, p.seqNum, p.payload);
    if Ahead(b.next, p.seqNum) <= MAX_JITTER_DELAY { PushSurvives(b, p.seqNum, p.payload); }
  }

  lemma {:induction false} PlayoutGrows(packets: seq<Packet>, more: seq<Packet>)
    ensures Playout(packets) == Playout(packets + more[..0])
    ensures |Playout(packets).0| <= |Playout(packets + more).0|
    decreases |more|
  {
    hide Received;
    assert packets + more[..0] == packets;
    if more != [] {
      var init, p := more[..|more| - 1], more[|more| - 1];
      PlayoutGrows(packets, init);
      PlayoutNext(packets + init, p);
      assert packets + more == packets + init + [p];
    } else {
      assert packets + more == packets;
    }
  }

  /** Nothing further is played exactly if each further packet, when it is received, is more than 10 ahead
      or thrown away by a cleanup across the wrap; and then the buffer waits where it was. */
  lemma {:induction false} SilentIff(packets: seq<Packet>, more: seq<Packet>)
    requires packets != []
    ensures Playout(packets + more).0 == Playout(packets).0 <==> forall i :: 0 <= i < |more| ==> !Plays(Playout(packets + more[..i]).1, more[i])
    ensures Playout(packets + more).0 == Playout(packets).0 ==> Playout(packets + more).1.next == Playout(packets).1.next
    decreases |more|
  {
    hide Received, Plays, Playout, Buffer.Quiet;
    if more == [] {
      assert packets + more == packets;
    } else {
      var k := |more| - 1;
      var init, p := more[..k], more[k];
      SilentIff(packets, init);
      PlayoutGrows(packets, init);
      PlayoutNext(packets + init, p);
      assert packets + more == packets + init + [p];
      PlayoutInv(packets + init);
      PlaysIff(Playout(packets + init).1, p);
      assert forall i :: 0 <= i < k ==> init[..i] == more[..i] && init[i] == more[i];
    }
  }

  /** So once every further packet is more than 10 ahead, nothing is ever played again, however many
      packets come. (The client discards packets while it is deafened, and never resets a buffer.) */
  lemma {:induction false} SilentForever(packets: seq<Packet>, more: seq<Packet>)
    requires packets != []
    requires forall i :: 0 <= i < |more| ==> Ahead(Playout(packets).1.next, more[i].seqNum) > MAX_JITTER_DELAY
    ensures Playout(packets + more).0 == Playout(packets).0 && Playout(packets + more).1.next == Playout(packets).1.next
    decreases |more|
  {
    hide Received, Playout, Buffer.Quiet, Ahead;
    if more == [] {
      assert packets + more == packets;
    } else {
      var k := |more| - 1;
      SilentForever(packets, more[..k]);
      PlayoutNext(packets + more[..k], more[k]);
      assert packets + more == packets + more[..k] + [more[k]];
      PlayoutInv(packets + more[..k]);
      PlaysIff(Playout(packets + more[..k]).1, more[k]);
    }
  }
}
