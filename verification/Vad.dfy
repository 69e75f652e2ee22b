/** Voice activity detection (pkg/audio/vad.go). The energy of a frame is a parameter; only its
    comparison with the threshold matters. */
module Vad {
  import opened Prelude

  type PCM = seq<int16>

  /** A processed frame, and whether it was above the threshold in force at that moment. */
  datatype Heard = Heard(frame: PCM, loud: bool)

  /** The hold counter after these frames: set by a loud frame, counted down by a quiet one. */
  function HoldAfter(holdTime: int, h: seq<Heard>): int {
    if h == [] then 0
    else if h[|h| - 1].loud then holdTime
    else
      var before := HoldAfter(holdTime, h[..|h| - 1]);
      if before > 0 then before - 1 else before
  }

  /** The verdict on the last frame, as the code computes it. */
  function Verdict(holdTime: int, h: seq<Heard>): bool {
    h != [] && (h[|h| - 1].loud || HoldAfter(holdTime, h[..|h| - 1]) > 0)
  }

  /** One of the last `n` frames was loud. */
  ghost predicate LoudWithin(h: seq<Heard>, n: int) {
    exists i :: 0 <= i < |h| && |h| - n <= i && h[i].loud
  }

  /** The counter exceeds `n` exactly if one of the last `holdTime - n` frames was loud. */
  lemma {:induction false} HoldMeaning(holdTime: int, h: seq<Heard>, n: nat)
    ensures HoldAfter(holdTime, h) > n <==> LoudWithin(h, holdTime - n)
    decreases |h|
  {
    if h != [] {
      var init := h[..|h| - 1];
      HoldMeaning(holdTime, init, n + 1);
      assert forall i :: 0 <= i < |init| ==> init[i] == h[i];
      if h[|h| - 1].loud && holdTime > n {
        assert h[|h| - 1].loud && |h| - (holdTime - n) <= |h| - 1;
      }
    }
  }

  /** The verdict is true exactly if one of the last `holdTime + 1` frames was loud; a negative hold
      time acts like 0. */
  lemma {:induction false} VerdictMeaning(holdTime: int, h: seq<Heard>)
    ensures Verdict(holdTime, h) <==> LoudWithin(h, if holdTime > 0 then holdTime + 1 else 1)
  {
    if h != [] {
      var init, last := h[..|h| - 1], h[|h| - 1];
      HoldMeaning(holdTime, init, 0);
      assert forall i :: 0 <= i < |init| ==> init[i] == h[i];
      if last.loud {
        assert h[|h| - 1].loud;
      }
    }
  }

  function Last(h: seq<Heard>, n: nat): seq<PCM> {
    var k := if n < |h| then n else |h|;
    seq(k, i requires 0 <= i < k => h[|h| - k + i].frame)
  }

  /** The last frames stand in the slots of a ring. */
  ghost predicate Holds(slots: seq<Option<PCM>>, h: seq<Heard>) {
    forall i :: 0 <= i < |h| && |h| - |slots| <= i ==> slots[i % |slots|] == Some(h[i].frame)
  }

  /** The next frame replaces none that is still needed. */
  lemma HoldsNext(slots: seq<Option<PCM>>, h: seq<Heard>, x: Heard)
    requires Holds(slots, h) && slots != []
    ensures Holds(slots[|h| % |slots| := Some(x.frame)], h + [x])
  {
    SlotsApart(|h|, |slots|);
  }

  lemma HeardMore(holdTime: int, h: seq<Heard>, x: Heard)
    ensures HoldAfter(holdTime, h + [x]) == if x.loud then holdTime else if HoldAfter(holdTime, h) > 0 then HoldAfter(holdTime, h) - 1 else HoldAfter(holdTime, h)
    ensures Verdict(holdTime, h + [x]) == (x.loud || HoldAfter(holdTime, h) > 0)
    ensures HoldAfter(holdTime, h) > 0 ==> Verdict(holdTime, h)
  {
    assert (h + [x])[..|h|] == h;
  }

  class VAD {
    const rms: PCM -> real
    const holdTime: int
    const preBufSize: nat
    const preBuffer: array<Option<PCM>>
    var threshold: real
    var holdCount: int
    var preBufIdx: nat
    var active: bool
    /** All frames processed so far. */
    ghost var heard: seq<Heard>

    ghost predicate Valid()
      reads this, preBuffer
    {
      && preBuffer.Length == preBufSize
      && preBufIdx == (if preBufSize > 0 then |heard| else 0)
      && holdCount == HoldAfter(holdTime, heard)
      && active == Verdict(holdTime, heard)
      && Holds(preBuffer[..], heard)
    }

    constructor (rms: PCM -> real, threshold: real, holdFrames: int, preBufferFrames: nat)
      ensures Valid() && heard == [] && this.threshold == threshold && fresh(preBuffer)
      ensures this.rms == rms && holdTime == holdFrames && preBufSize == preBufferFrames
    {
      this.rms, this.threshold, holdTime, preBufSize := rms, threshold, holdFrames, preBufferFrames;
      preBuffer := new Option<PCM>[preBufferFrames](_ => None);
      holdCount, preBufIdx, active, heard := 0, 0, false, [];
    }

    /** The verdict: was one of the last frames, as far as the hold time reaches, loud? */
    method Process(pcm: PCM) returns (voice: bool)
      requires Valid()
      modifies this, preBuffer
      ensures Valid() && threshold == old(threshold)
      ensures heard == old(heard) + [Heard(pcm, rms(pcm) > old(threshold))]
      ensures voice == active == LoudWithin(heard, if holdTime > 0 then holdTime + 1 else 1)
    {
      hide LoudWithin, HoldAfter, Verdict, Holds;
      ghost var x := Heard(pcm, rms(pcm) > threshold);
      HeardMore(holdTime, heard, x);
      VerdictMeaning(holdTime, heard + [x]);
      if preBufSize > 0 {
        HoldsNext(preBuffer[..], heard, x);
        ghost var slots := preBuffer[..];
        preBuffer[preBufIdx % preBufSize] := Some(pcm);
        assert preBuffer[..] == slots[preBufIdx % preBufSize := Some(pcm)];
        preBufIdx := preBufIdx + 1;
      } else {
        NoSlots(preBuffer[..], heard + [x]);
      }
      heard := heard + [x];
      if rms(pcm) > threshold {
        holdCount, active := holdTime, true;
        return true;
      }
      if holdCount > 0 {
        holdCount := holdCount - 1;
        return true;
      }
      active := false;
      return false;
    }

    method IsActive() returns (r: bool)
      requires Valid()
      ensures r == LoudWithin(heard, if holdTime > 0 then holdTime + 1 else 1)
    {
      VerdictMeaning(holdTime, heard);
      r := active;
    }

    /** The last frames, oldest first, as many as there are up to the size of the buffer. */
    method PreBufferedFrames() returns (frames: seq<PCM>)
      requires Valid()
      ensures frames == Last(heard, preBufSize)
      ensures |frames| == if |heard| < preBufSize then |heard| else preBufSize
      ensures forall k :: 0 <= k < |frames| ==> frames[k] == heard[|heard| - |frames| + k].frame
    {
      frames := [];
      var count := preBufSize;
      if preBufIdx < count {
        count := preBufIdx;
      }
      var start := preBufIdx - count;
      for i := start to preBufIdx
        invariant frames == Last(heard, preBufSize)[..i - start]
      {
        var frame := preBuffer[i % preBufSize];
        if frame.Some? {
          frames := frames + [frame.value];
        }
      }
    }

    method SetThreshold(threshold: real)
      requires Valid()
      modifies this`threshold
      ensures Valid() && this.threshold == threshold
    {
      this.threshold := threshold;
    }
  }

  lemma NoSlots(slots: seq<Option<PCM>>, h: seq<Heard>)
    requires slots == []
    ensures Holds(slots, h)
  {
  }

  /** The slots of the last frames are not the one written next. */
  lemma SlotsApart(idx: nat, size: nat)
    requires size > 0
    ensures forall i :: idx - size < i < idx ==> i % size != idx % size
  {
    forall i | idx - size < i < idx ensures i % size != idx % size {
      if i % size == idx % size {
        var q, p := idx / size, i / size;
        assert (q - p) * size == idx - i;
        NoMultiple(q - p, size);
      }
    }
  }

  lemma NoMultiple(k: int, size: nat)
    requires size > 0
    ensures !(0 < k * size < size)
  {
    if k <= 0 {
      assert k * size <= 0;
    } else {
      assert k * size >= size;
    }
  }
}
