/** Mixing of PCM frames (pkg/audio/playback.go). The running sum is an `int32` that wraps. */
module Mixer {
  import opened Prelude

  const MOD_SUM := 0x1_0000_0000

  /** Conversion to `int32`. */
  function Wrap32(x: int): int {
    (x + 0x8000_0000) % MOD_SUM - 0x8000_0000
  }

  function Clamp(x: int): int16 {
    if x > 32767 then 32767 else if x < -32768 then -32768 else x
  }

  /** A frame may be shorter than the mix; it is silent from there on. */
  function Sample(f: seq<int16>, i: nat): int16 {
    if i < |f| then f[i] else 0
  }

  /** The true sum at position `i`. */
  function Sum(frames: seq<seq<int16>>, i: nat): int {
    if frames == [] then 0 else Sum(frames[..|frames| - 1], i) + Sample(frames[|frames| - 1], i)
  }

  /** No frame is silence and a single frame is passed through at its own length. */
  function Mixed(frames: seq<seq<int16>>, frameSize: nat): seq<int16> {
    if |frames| == 1 then frames[0]
    else seq(frameSize, i requires 0 <= i < frameSize => Clamp(Wrap32(Sum(frames, i))))
  }

  lemma WrapAdd(x: int, y: int)
    ensures Wrap32(Wrap32(x) + y) == Wrap32(x + y)
  {
    var q := (x + 0x8000_0000) / MOD_SUM;
    assert Wrap32(x) == x - q * MOD_SUM;
    WrapTurns(x + y, -q);
  }

  lemma WrapTurns(x: int, k: int)
    ensures Wrap32(x + k * MOD_SUM) == Wrap32(x)
  {
  }

  lemma SumMore(frames: seq<seq<int16>>, j: nat, i: nat)
    requires j < |frames|
    ensures Sum(frames[..j + 1], i) == Sum(frames[..j], i) + Sample(frames[j], i)
  {
    assert frames[..j + 1][..j] == frames[..j];
  }

  lemma SumNone(frames: seq<seq<int16>>, i: nat)
    ensures Wrap32(Sum(frames[..0], i)) == 0
  {
  }

  lemma MixedAt(frames: seq<seq<int16>>, frameSize: nat)
    ensures |frames| == 1 ==> Mixed(frames, frameSize) == frames[0]
    ensures |frames| != 1 ==> |Mixed(frames, frameSize)| == frameSize
    ensures |frames| != 1 ==> forall i :: 0 <= i < frameSize ==> Mixed(frames, frameSize)[i] == Clamp(Wrap32(Sum(frames, i)))
    ensures frames == [] ==> Mixed(frames, frameSize) == seq(frameSize, i => 0)
  {
  }

  function Contents(frames: seq<array<int16>>): (r: seq<seq<int16>>)
    reads frames
    ensures |r| == |frames| && forall k :: 0 <= k < |r| ==> r[k] == frames[k][..]
  {
    if frames == [] then [] else Contents(frames[..|frames| - 1]) + [frames[|frames| - 1][..]]
  }

  /** A single frame is returned itself, not a copy. */
  method MixFrames(frames: seq<array<int16>>, frameSize: nat) returns (mixed: array<int16>)
    ensures mixed[..] == Mixed(Contents(frames), frameSize)
    ensures 2 <= |frames| <= 65536 ==> mixed.Length == frameSize && forall i :: 0 <= i < frameSize ==>
              var t := Sum(Contents(frames), i); mixed[i] == if t > 32767 then 32767 else if t < -32768 then -32768 else t
    ensures if |frames| == 1 then mixed == frames[0] else fresh(mixed)
  {
    hide Wrap32, Sum, Mixed, Contents;
    ghost var inputs := Contents(frames);
    ghost var out := Mixed(inputs, frameSize);
    MixedAt(inputs, frameSize);
    if |frames| == 0 {
      mixed := new int16[frameSize](_ => 0);
      return;
    }
    if |frames| == 1 {
      return frames[0];
    }
    mixed := new int16[frameSize](_ => 0);
    for i := 0 to frameSize
      invariant forall k :: 0 <= k < |frames| ==> frames[k][..] == inputs[k]
      invariant fresh(mixed) && mixed.Length == frameSize && mixed[..i] == out[..i]
    {
      var sum := 0;
      SumNone(inputs, i);
      for j := 0 to |frames|
        modifies {}
        invariant sum == Wrap32(Sum(inputs[..j], i))
      {
        SumMore(inputs, j, i);
        if i < frames[j].Length {
          WrapAdd(Sum(inputs[..j], i), frames[j][i]);
          sum := Wrap32(sum + frames[j][i]);
        }
      }
      assert inputs[..|frames|] == inputs;
      if sum > 32767 {
        sum := 32767;
      } else if sum < -32768 {
        sum := -32768;
      }
      ghost var done := mixed[..i];
      mixed[i] := sum;
      assert mixed[..i + 1] == done + [out[i]] == out[..i + 1];
    }
    assert mixed[..] == out;
    if |frames| <= 65536 {
      forall i | 0 <= i < frameSize ensures mixed[i] == out[i] && var t := Sum(inputs, i); out[i] == if t > 32767 then 32767 else if t < -32768 then -32768 else t {
        MixSample(inputs, frameSize, i);
      }
    }
  }

  // ----- What is mixed -----

  lemma {:induction false} SumBound(frames: seq<seq<int16>>, i: nat)
    ensures -32768 * |frames| <= Sum(frames, i) <= 32767 * |frames|
    decreases |frames|
  {
    if frames != [] {
      SumBound(frames[..|frames| - 1], i);
    }
  }

  /** With at most 65536 frames no partial sum leaves the `int32` range. */
  lemma NoOverflow(frames: seq<seq<int16>>, j: nat, i: nat)
    requires j <= |frames| <= 65536
    ensures Wrap32(Sum(frames[..j], i)) == Sum(frames[..j], i)
  {
    SumBound(frames[..j], i);
  }

  ghost predicate ExactFor(frames: seq<seq<int16>>, frameSize: nat)
    requires |frames| != 1
  {
    forall i :: 0 <= i < frameSize ==> Mixed(frames, frameSize)[i] == Clamp(Sum(frames, i))
  }

  /** `n` frames of one sample, the first `k` of them as low as a sample can be. */
  function LowFrames(k: nat, n: nat): seq<seq<int16>> {
    seq(n, j => if j < k then [-32768] else [0])
  }

  lemma {:induction false} LowSum(k: nat, n: nat)
    ensures Sum(LowFrames(k, n), 0) == -32768 * (if k < n then k else n)
    decreases n
  {
    if n > 0 {
      assert LowFrames(k, n)[..n - 1] == LowFrames(k, n - 1);
      LowSum(k, n - 1);
    }
  }

  /** Every mix of `n` frames is the true sum, clamped, exactly if `n` is at most 65536: from 65537 on
      the sum can wrap around to the other end of the range. */
  lemma ExactUpTo65536(n: nat)
    requires n != 1
    ensures n <= 65536 <==> forall frames, size :: |frames| == n ==> ExactFor(frames, size)
  {
    if n <= 65536 {
      forall frames: seq<seq<int16>>, size: nat | |frames| == n ensures ExactFor(frames, size) {
        assert frames[..n] == frames;
        forall i | 0 <= i < size ensures Mixed(frames, size)[i] == Clamp(Sum(frames, i)) {
          NoOverflow(frames, n, i);
        }
      }
    } else {
      LowSum(65537, n);
      assert Mixed(LowFrames(65537, n), 1)[0] == 32767;
      assert !ExactFor(LowFrames(65537, n), 1);
    }
  }

  // ----- The samples in numbers -----

  /** The true sum: nothing for no frames, and one more frame adds its sample, or 0 where it has ended. */
  lemma SumIs(frames: seq<seq<int16>>, f: seq<int16>, i: nat)
    ensures Sum([], i) == 0
    ensures Sum(frames + [f], i) == Sum(frames, i) + (if i < |f| then f[i] else 0)
  {
    assert (frames + [f])[..|frames|] == frames;
  }

  /** With 2 to 65536 frames a sample is the true sum if that is a sample, and the nearest end of the range
      if it is not. */
  lemma MixSample(frames: seq<seq<int16>>, frameSize: nat, i: nat)
    requires 2 <= |frames| <= 65536 && i < frameSize
    ensures |Mixed(frames, frameSize)| == frameSize
    ensures var t, x := Sum(frames, i), Mixed(frames, frameSize)[i];
            (-32768 <= t <= 32767 ==> x == t) && (t > 32767 ==> x == 32767) && (t < -32768 ==> x == -32768)
  {
    NoOverflow(frames, |frames|, i);
    assert frames[..|frames|] == frames;
  }

  lemma MixTwo(f: seq<int16>, g: seq<int16>, frameSize: nat, i: nat)
    requires i < frameSize
    ensures var x := Mixed([f, g], frameSize); |x| == frameSize
    ensures var x := Mixed([f, g], frameSize)[i]; var t := (if i < |f| then f[i] as int else 0) + (if i < |g| then g[i] as int else 0);
            x == if t > 32767 then 32767 else if t < -32768 then -32768 else t
  {
    SumIs([], f, i);
    SumIs([f], g, i);
    assert [] + [f] == [f] && [f] + [g] == [f, g];
    MixSample([f, g], frameSize, i);
  }

  /** No frames give silence; a single frame is passed through, whatever its length. */
  lemma MixFew(f: seq<int16>, frameSize: nat)
    ensures |Mixed([], frameSize)| == frameSize && forall i :: 0 <= i < frameSize ==> Mixed([], frameSize)[i] == 0
    ensures Mixed([f], frameSize) == f
  {
  }

  // ----- Order -----

  lemma {:induction false} SumWithout(frames: seq<seq<int16>>, k: nat, i: nat)
    requires k < |frames|
    ensures Sum(frames, i) == Sum(frames[..k] + frames[k + 1..], i) + Sample(frames[k], i)
    decreases |frames|
  {
    var n := |frames| - 1;
    var rest := frames[..k] + frames[k + 1..];
    if k == n {
      assert rest == frames[..n];
    } else {
      SumWithout(frames[..n], k, i);
      assert frames[..n][..k] + frames[..n][k + 1..] == rest[..n - 1];
      assert rest[n - 1] == frames[n];
    }
  }

  lemma Picked<T>(s: seq<T>, k: nat)
    requires k < |s|
    ensures multiset(s[..k] + s[k + 1..]) == multiset(s) - multiset{s[k]}
  {
    assert s == s[..k] + ([s[k]] + s[k + 1..]);
    assert multiset(s) == multiset(s[..k]) + (multiset{s[k]} + multiset(s[k + 1..]));
  }

  lemma TakenOut(a: seq<seq<int16>>, b: seq<seq<int16>>) returns (k: nat)
    requires multiset(a) == multiset(b) && a != []
    ensures k < |b| && b[k] == a[|a| - 1]
    ensures multiset(a[..|a| - 1]) == multiset(b[..k] + b[k + 1..])
  {
    var n := |a| - 1;
    assert a[n] in multiset(b);
    k :| 0 <= k < |b| && b[k] == a[n];
    Picked(a, n);
    Picked(b, k);
    assert a[..n] + a[n + 1..] == a[..n];
  }

  lemma {:induction false} SumOrder(a: seq<seq<int16>>, b: seq<seq<int16>>, i: nat)
    requires multiset(a) == multiset(b)
    ensures |a| == |b| && Sum(a, i) == Sum(b, i)
    decreases |a|
  {
    assert |multiset(a)| == |a| && |multiset(b)| == |b|;
    if a != [] {
      var k := TakenOut(a, b);
      SumOrder(a[..|a| - 1], b[..k] + b[k + 1..], i);
      SumWithout(b, k, i);
    }
  }

  /** The mix does not depend on the order of the frames. */
  lemma {:induction false} MixOrder(a: seq<seq<int16>>, b: seq<seq<int16>>, frameSize: nat)
    requires multiset(a) == multiset(b)
    ensures Mixed(a, frameSize) == Mixed(b, frameSize)
  {
    SumOrder(a, b, 0);
    if |a| == 1 {
      assert a == [a[0]] && b == [b[0]];
      assert b[0] in multiset(a);
    } else {
      forall i: nat ensures Sum(a, i) == Sum(b, i) {
        SumOrder(a, b, i);
      }
    }
  }
}
