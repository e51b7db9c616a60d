/**
 Jump consistent hash.  The key drives a strictly increasing run of jump points
 and the bucket is the last point below the bucket count.  Floating point enters
 through a rounding function of which only two laws of IEEE 754 are used.
 */
module JumpHash {
  import opened Numbers

  const TWO_33: nat := 0x2_0000_0000
  const TWO_53: nat := 0x20_0000_0000_0000
  const MULTIPLIER: nat := 2862933555777941757

  /** Exact at m and at m scaled by 2^31. */
  ghost predicate ExactAt(rnd: real -> real, m: nat) {
    m <= TWO_53 ==> rnd(m as real) == m as real && rnd((m * TWO_31) as real) == (m * TWO_31) as real
  }

  /** Rounding to float64: monotone, and exact on integers of 53 bits, also when scaled by 2^31. */
  ghost predicate Rounding(rnd: real -> real) {
    (forall x: real, y: real :: KeepsOrder(rnd, x, y)) && (forall m: nat :: ExactAt(rnd, m))
  }

  /** Exact arithmetic is one such rounding. */
  lemma ExactArithmeticRounds()
    ensures Rounding((x: real) => x)
  {
  }

  /** key*M + 1 in uint64. */
  function Advance(key: nat): (r: nat)
    ensures r < TWO_64
  {
    (key * MULTIPLIER + 1) % TWO_64
  }

  /** float64(1<<31) / float64((key>>33)+1) */
  function Factor(rnd: real -> real, key: nat): real {
    rnd(TWO_31 as real / (key / TWO_33 + 1) as real)
  }

  /** float64(m) * r, cut to an integer. */
  function Cut(rnd: real -> real, m: nat, r: real): int {
    rnd(m as real * r).Floor
  }

  function Jump(rnd: real -> real, key: nat, b: nat): int {
    Cut(rnd, b + 1, Factor(rnd, key))
  }

  lemma QuotientBounds(a: real, d: real)
    requires 1.0 <= d <= a
    ensures 1.0 <= a / d <= a
  {
    AtLeastOne(a / d, d);
    AtMost(a / d, d, a);
  }

  lemma AtLeastOne(q: real, d: real)
    requires 0.0 < d <= q * d
    ensures 1.0 <= q
  {
  }

  lemma AtMost(q: real, d: real, a: real)
    requires 1.0 <= d && 0.0 < q && q * d == a
    ensures q <= a
  {
  }

  /** The factor of a jump is between 1 and 2^31. */
  lemma FactorBounds(rnd: real -> real, key: nat)
    requires Rounding(rnd) && key < TWO_64
    ensures 1.0 <= Factor(rnd, key) <= TWO_31 as real
  {
    var q := TWO_31 as real / (key / TWO_33 + 1) as real;
    QuotientBounds(TWO_31 as real, (key / TWO_33 + 1) as real);
    assert ExactAt(rnd, 1) && ExactAt(rnd, TWO_31);
    assert KeepsOrder(rnd, 1.0, q) && KeepsOrder(rnd, q, TWO_31 as real);
  }

  lemma ProductBounds(m: nat, r: real, p: real)
    requires 1.0 <= r <= TWO_31 as real && p == m as real * r
    ensures m as real <= p <= (m * TWO_31) as real
  {
    assert m as real * (r - 1.0) >= 0.0 && m as real * (TWO_31 as real - r) >= 0.0;
  }

  lemma CutBounds(rnd: real -> real, m: nat, r: real)
    requires Rounding(rnd) && m <= TWO_31 && 1.0 <= r <= TWO_31 as real
    ensures m <= Cut(rnd, m, r) <= m * TWO_31
  {
    var p := m as real * r;
    var hi := (m * TWO_31) as real;
    ProductBounds(m, r, p);
    assert ExactAt(rnd, m);
    assert KeepsOrder(rnd, m as real, p) && KeepsOrder(rnd, p, hi);
  }

  /** A jump always moves on, and its result fits an int64. */
  lemma JumpMovesOn(rnd: real -> real, key: nat, b: nat)
    requires Rounding(rnd) && key < TWO_64 && b < TWO_31
    ensures b + 1 <= Jump(rnd, key, b) < TWO_63
  {
    FactorBounds(rnd, key);
    CutBounds(rnd, b + 1, Factor(rnd, key));
  }

  // ---------------------------------------------------------------- jump points

  /** The generator's state after k steps. */
  function KeyAt(key: nat, k: nat): (r: nat)
    requires key < TWO_64
    ensures r < TWO_64
  {
    if k == 0 then key else Advance(KeyAt(key, k - 1))
  }

  function Point(rnd: real -> real, key: nat, k: nat): int
    requires key < TWO_64
  {
    if k == 0 then 0
    else
      var b := Point(rnd, key, k - 1);
      if b < 0 then b else Jump(rnd, KeyAt(key, k), b)
  }

  lemma PointRises(rnd: real -> real, key: nat, k: nat)
    requires Rounding(rnd) && key < TWO_64 && 0 <= Point(rnd, key, k) < TWO_31
    ensures Point(rnd, key, k) < Point(rnd, key, k + 1) < TWO_63
  {
    JumpMovesOn(rnd, KeyAt(key, k + 1), Point(rnd, key, k));
  }

  ghost function Points(rnd: real -> real, key: nat): nat -> int
    requires key < TWO_64
  {
    (k: nat) => Point(rnd, key, k)
  }

  ghost predicate Below(pt: nat -> int, n: int, i: nat) {
    0 <= pt(i) < n && pt(i) < pt(i + 1)
  }

  lemma NextPoint(rnd: real -> real, key: nat, n: int, k: nat)
    requires Rounding(rnd) && key < TWO_64 && 0 <= Points(rnd, key)(k) < n < TWO_31
    ensures Below(Points(rnd, key), n, k) && 0 <= Points(rnd, key)(k + 1) < TWO_63
    ensures Advance(KeyAt(key, k)) == KeyAt(key, k + 1)
    ensures Jump(rnd, KeyAt(key, k + 1), Points(rnd, key)(k)) == Points(rnd, key)(k + 1)
  {
    PointRises(rnd, key, k);
  }

  /** Point k is the last one below n, and the points rise up to it. */
  ghost predicate LastBelow(pt: nat -> int, n: int, k: nat) {
    (forall i: nat :: i <= k ==> Below(pt, n, i)) && n <= pt(k + 1)
  }

  /** b is the bucket among n: the last jump point below n. */
  ghost predicate IsBucket(pt: nat -> int, n: int, b: int) {
    exists k: nat :: LastBelow(pt, n, k) && b == pt(k)
  }

  /** The bucket count Hash works with. */
  function Effective(buckets: int): int {
    if buckets <= 0 then 1 else buckets
  }

  lemma BucketFound(pt: nat -> int, n: int, k: nat)
    requires k > 0 && (forall i: nat :: i < k ==> Below(pt, n, i)) && n <= pt(k)
    ensures 0 <= pt(k - 1) < n && IsBucket(pt, n, pt(k - 1))
  {
    assert Below(pt, n, k - 1);
    assert LastBelow(pt, n, k - 1);
  }

  /** Point k of pt, if it is below n, is followed by a jump to the next. */
  ghost predicate Jumps(rnd: real -> real, key: nat, pt: nat -> int, n: int, k: nat)
    requires key < TWO_64
  {
    0 <= pt(k) < n ==>
      && Below(pt, n, k) && pt(k + 1) < TWO_63
      && Advance(KeyAt(key, k)) == KeyAt(key, k + 1) && Jump(rnd, KeyAt(key, k + 1), pt(k)) == pt(k + 1)
  }

  /** The loop of Hash. */
  method LastPoint(rnd: real -> real, key: nat, n: int, ghost pt: nat -> int) returns (b: int)
    requires key < TWO_64 && 0 < n < TWO_31 && pt(0) == 0 && forall k: nat :: Jumps(rnd, key, pt, n, k)
    ensures 0 <= b < n && IsBucket(pt, n, b)
  {
    var j, state := 0, key;
    b := 0;
    ghost var k: nat := 0;
    while j < n
      invariant state == KeyAt(key, k) && j == pt(k) && 0 <= j < TWO_63
      invariant k == 0 ==> b == 0 && j == 0
      invariant k > 0 ==> b == pt(k - 1)
      invariant forall i: nat :: i < k ==> Below(pt, n, i)
      decreases n - j
    {
      assert Jumps(rnd, key, pt, n, k);
      b := j;
      state := Advance(state);
      j := Jump(rnd, state, b);
      k := k + 1;
    }
    BucketFound(pt, n, k);
  }

  method Hash(rnd: real -> real, key: nat, buckets: int) returns (b: int)
    requires Rounding(rnd) && key < TWO_64 && -0x8000_0000 <= buckets < TWO_31
    ensures 0 <= b < Effective(buckets)
    ensures IsBucket(Points(rnd, key), Effective(buckets), b)
  {
    var n := if buckets <= 0 then 1 else buckets;
    forall k: nat ensures Jumps(rnd, key, Points(rnd, key), n, k) {
      if 0 <= Points(rnd, key)(k) < n { NextPoint(rnd, key, n, k); }
    }
    b := LastPoint(rnd, key, n, Points(rnd, key));
  }

  // ---------------------------------------------------------------- consistency

  lemma {:induction false} PointsRise(pt: nat -> int, n: int, k: nat, i: nat, j: nat)
    requires LastBelow(pt, n, k) && i < j <= k + 1
    ensures pt(i) < pt(j)
    decreases j
  {
    assert Below(pt, n, j - 1);
    if i < j - 1 { PointsRise(pt, n, k, i, j - 1); }
  }

  lemma StillBelow(pt: nat -> int, m: int, k: nat, i: nat)
    requires LastBelow(pt, m, k) && i <= k
    ensures pt(i) < m
  {
    assert Below(pt, m, i);
  }

  /** Growing from m to n buckets moves a key only into a new bucket: it stays where it was or lands
      in [m, n).  With m == n it says that the bucket is unique. */
  lemma MovesOnlyToNew(pt: nat -> int, m: int, n: int, b: int, b': int)
    requires m <= n && IsBucket(pt, m, b) && IsBucket(pt, n, b')
    ensures b' == b || m <= b' < n
    ensures b <= b'
  {
    var k: nat :| LastBelow(pt, m, k) && b == pt(k);
    var l: nat :| LastBelow(pt, n, l) && b' == pt(l);
    assert Below(pt, m, k) && Below(pt, n, l);
    if l < k { StillBelow(pt, m, k, l + 1); }
    if k < l {
      PointsRise(pt, n, l, k, l);
      if k + 1 < l { PointsRise(pt, n, l, k + 1, l); }
    }
  }

  /** One bucket more: the key stays or moves into the new bucket. */
  lemma GrowByOne(rnd: real -> real, key: nat, n: int, b: int, b': int)
    requires key < TWO_64 && IsBucket(Points(rnd, key), n, b) && IsBucket(Points(rnd, key), n + 1, b')
    ensures b' == b || b' == n
  {
    MovesOnlyToNew(Points(rnd, key), n, n + 1, b, b');
  }
}
