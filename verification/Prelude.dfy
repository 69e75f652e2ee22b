/** Machine integers, bytes and the option type shared by every module. */
module Prelude {

  datatype Option<+T> = None | Some(value: T)

  /** The number of values of a Go `uint32`. */
  const MOD32: int := 0x1_0000_0000

  type uint32 = x: int | 0 <= x < MOD32
  type uint16 = x: int | 0 <= x < 0x1_0000
  type byte = x: int | 0 <= x < 0x100
  type Bytes = seq<byte>

  /** A PCM sample. */
  type int16 = x: int | -0x8000 <= x < 0x8000

  /** `a + b` on `uint32`, wrapping as Go does. */
  function Add32(a: uint32, b: nat): uint32 {
    (a + b) % MOD32
  }

  /** How many increments lead from `a` to `b` on the `uint32` circle. */
  function Ahead(a: uint32, b: uint32): uint32 {
    (b - a) % MOD32
  }

  lemma AddNone(a: uint32)
    ensures Add32(a, 0) == a
  {
  }

  lemma AddAdd(a: uint32, i: nat, j: nat)
    ensures Add32(Add32(a, i), j) == Add32(a, i + j)
  {
  }

  /** Within one turn of the circle different steps lead to different places. */
  lemma AddApart(a: uint32, i: nat, j: nat)
    requires i < MOD32 && j < MOD32
    ensures Add32(a, i) == Add32(a, j) <==> i == j
  {
  }

  lemma AheadAdd(a: uint32, s: uint32)
    ensures Add32(a, Ahead(a, s)) == s
  {
  }

  /** One step on, everything but the place just left is one step nearer. */
  lemma AheadNext(a: uint32, s: uint32)
    requires s != a
    ensures Ahead(a, s) > 0 && Ahead(Add32(a, 1), s) == Ahead(a, s) - 1
  {
  }

  lemma AheadHere(a: uint32)
    ensures Ahead(a, a) == 0
  {
  }

  predicate NoDuplicates<T(==)>(s: seq<T>) {
    forall i, j :: 0 <= i < j < |s| ==> s[i] != s[j]
  }

  function Elements<T>(s: seq<T>): set<T> {
    set x | x in s
  }

  lemma HasMember<T>(s: seq<T>)
    ensures s == [] || exists x :: x in s
  {
    assert s == [] || s[0] in s;
  }

  lemma HasElement(s: set<int>)
    ensures s == {} || exists x :: x in s
  {
    assert (forall x :: x !in s) ==> s == {};
  }

  lemma {:induction false} DistinctCount<T>(s: seq<T>)
    requires NoDuplicates(s)
    ensures |Elements(s)| == |s|
  {
    if s != [] {
      DistinctCount(s[1..]);
      assert Elements(s) == Elements(s[1..]) + {s[0]};
    }
  }

  lemma {:induction false} ElementsBound<T>(s: seq<T>)
    ensures |Elements(s)| <= |s|
  {
    if s != [] {
      ElementsBound(s[1..]);
      assert Elements(s) == Elements(s[1..]) + {s[0]};
    }
  }

  lemma SubsetSize<T>(a: set<T>, b: set<T>)
    requires a <= b
    ensures |a| <= |b|
  {
    assert b == a + (b - a);
  }

  lemma {:induction false} IntervalSize(s: set<int>, lo: int, n: nat)
    requires forall x :: x in s <==> lo <= x < lo + n
    ensures |s| == n
    decreases n
  {
    if n != 0 {
      IntervalSize(s - {lo + n - 1}, lo, n - 1);
    } else {
      assert forall x :: x !in s;
    }
  }

  lemma {:induction false} IntervalBound(s: set<int>, lo: int, n: nat)
    requires forall x :: x in s ==> lo <= x < lo + n
    ensures |s| <= n
    decreases n
  {
    if n != 0 {
      IntervalBound(s - {lo + n - 1}, lo, n - 1);
    } else {
      assert forall x :: x !in s;
    }
  }
}
