/**
 The levelled buffer pool: which level a size asks for, which level a capacity
 goes back to, and the pool object itself.  The source finds levels through
 float64 logarithms; a few laws of these give the exact ones up to 2^31.
 */
module PoolLevels {
  import opened Wrappers
  import opened Numbers

  function Pow2(k: nat): (r: nat)
    ensures r >= 1
  {
    if k == 0 then 1 else 2 * Pow2(k - 1)
  }

  /** ceil(log2(size / min)), cut off at 0. */
  function CeilLog(size: nat, min: nat): nat
    requires min >= 1
    decreases size - min
  {
    if size <= min then 0 else 1 + CeilLog(size, 2 * min)
  }

  /** floor(log2(size / min)). */
  function FloorLog(size: nat, min: nat): nat
    requires 1 <= min <= size
    decreases size - min
  {
    if size < 2 * min then 0 else 1 + FloorLog(size, 2 * min)
  }

  /** The level sizes: min, 2 min, 4 min ... below max, then max. */
  function Levels(min: nat, max: nat): seq<nat>
    requires 1 <= min
    decreases max - min
  {
    if min >= max then [max] else [min] + Levels(2 * min, max)
  }

  lemma Doubling(min: nat, k: nat)
    ensures min * Pow2(k + 1) == (2 * min) * Pow2(k)
  {
  }

  lemma {:induction false} CeilLogExact(size: nat, min: nat)
    requires min >= 1
    ensures var k := CeilLog(size, min); size <= min * Pow2(k) && (k > 0 ==> min * Pow2(k - 1) < size)
    decreases size - min
  {
    if size > min {
      CeilLogExact(size, 2 * min);
      var k := CeilLog(size, 2 * min);
      Doubling(min, k);
      if k > 0 { Doubling(min, k - 1); }
    }
  }

  lemma {:induction false} FloorLogExact(size: nat, min: nat)
    requires 1 <= min <= size
    ensures var k := FloorLog(size, min); min * Pow2(k) <= size < min * Pow2(k + 1)
    decreases size - min
  {
    if size >= 2 * min {
      FloorLogExact(size, 2 * min);
      var k := FloorLog(size, 2 * min);
      Doubling(min, k);
      Doubling(min, k + 1);
    }
  }

  lemma {:induction false} PowersRise(min: nat, i: nat, j: nat)
    requires min >= 1 && i < j
    ensures min * Pow2(i) < min * Pow2(j)
    decreases j
  {
    if i < j - 1 { PowersRise(min, i, j - 1); }
    assert min * Pow2(j) == 2 * (min * Pow2(j - 1)) && min * Pow2(j - 1) >= 1;
  }

  /** There are CeilLog(max, min) doubled levels and the level of size max. */
  lemma {:induction false} LevelAt(min: nat, max: nat, i: nat)
    requires 1 <= min
    ensures |Levels(min, max)| == CeilLog(max, min) + 1
    ensures i < CeilLog(max, min) ==> Levels(min, max)[i] == min * Pow2(i) < max
    ensures i == CeilLog(max, min) ==> Levels(min, max)[i] == max
    decreases max - min
  {
    if min < max {
      LevelAt(2 * min, max, if i > 0 then i - 1 else 0);
      if i > 0 { Doubling(min, i - 1); }
    }
  }

  // ---------------------------------------------------------------- float64

  const TWO_32_REAL: real := 4294967296.0

  /** float64 division, as a rounding of the quotient, and math.Log2. */
  datatype Float = Float(rnd: real -> real, lg: real -> real)

  /** A power of two and its neighbours at a relative distance of 2^-32, all of them float64 values. */
  function At(k: nat): real { Pow2(k) as real }

  function Above(k: nat): real { Pow2(k) as real + Pow2(k) as real / TWO_32_REAL }

  function Below(k: nat): real { Pow2(k) as real - Pow2(k) as real / TWO_32_REAL }

  /** Rounding is exact at these values ... */
  ghost predicate ExactAt(rnd: real -> real, k: nat) {
    k <= 33 ==> rnd(At(k)) == At(k) && rnd(Above(k)) == Above(k) && rnd(Below(k)) == Below(k)
  }

  /** ... and the logarithm of x is on the right side of k, strictly if x is no nearer to 2^k than they
      are; that of 0 is below all of them. */
  ghost predicate SidesAt(lg: real -> real, k: nat, x: real) {
    k <= 33 && x >= 0.0 ==>
      && (x <= At(k) ==> lg(x) <= k as real) && (At(k) <= x ==> k as real <= lg(x))
      && (x <= Below(k) ==> lg(x) < k as real) && (Above(k) <= x ==> k as real < lg(x))
  }

  /** What is used of float64: rounding is monotone and exact at powers of two up to 2^33 and their
      neighbours, and these are where the logarithm says they are. */
  ghost predicate Accurate(fl: Float) {
    && (forall x: real, y: real :: KeepsOrder(fl.rnd, x, y))
    && fl.rnd(0.0) == 0.0 && (forall k: nat :: ExactAt(fl.rnd, k))
    && (forall k: nat, x: real :: SidesAt(fl.lg, k, x))
  }

  // A logarithm that meets this: half way between the powers it is next to.

  function Steps(x: real, n: nat): real {
    if n == 0 then 0.0
    else Steps(x, n - 1) + if x < At(n - 1) then 0.0 else if x == At(n - 1) then 0.5 else 1.0
  }

  lemma {:induction false} StepsSides(x: real, k: nat, n: nat)
    ensures 0.0 <= Steps(x, n) <= n as real
    ensures k < n && x <= At(k) ==> Steps(x, n) <= k as real + 0.5
    ensures k < n && x < At(k) ==> Steps(x, n) <= k as real
    ensures At(k) <= x ==> Steps(x, n) >= if n <= k then n as real else k as real + 0.5
    ensures At(k) < x ==> Steps(x, n) >= if n <= k then n as real else k as real + 1.0
  {
    if n > 0 {
      StepsSides(x, k, n - 1);
      if n - 1 < k { PowersRise(1, n - 1, k); }
      if k < n - 1 { PowersRise(1, k, n - 1); }
    }
  }

  /** The laws can be met. */
  lemma AccurateExists()
    ensures Accurate(Float((x: real) => x, (x: real) => Steps(x, 34) - 0.5))
  {
    var lg := (x: real) => Steps(x, 34) - 0.5;
    forall k: nat, x: real ensures SidesAt(lg, k, x) { StepsSides(x, k, 34); }
  }

  function Quotient(fl: Float, size: nat, min: nat): real
    requires min >= 1
  {
    fl.rnd(size as real / min as real)
  }

  function Ceil(x: real): int { -((-x).Floor) }

  /** int(math.Ceil(math.Log2(float64(size) / float64(min)))), cut off at 0; the logarithm of 0 is minus
      infinity. */
  function CeilIndex(fl: Float, size: nat, min: nat): nat
    requires min >= 1
  {
    var idx := if size == 0 then 0 else Ceil(fl.lg(Quotient(fl, size, min)));
    if idx < 0 then 0 else idx
  }

  /** int(math.Floor(math.Log2(float64(size) / float64(min)))), cut off at 0. */
  function FloorIndex(fl: Float, size: nat, min: nat): nat
    requires 1 <= min <= size
  {
    var idx := fl.lg(Quotient(fl, size, min)).Floor;
    if idx < 0 then 0 else idx
  }

  lemma QuotientAtMost(size: nat, min: nat, p: nat)
    requires min >= 1 && size <= min * p
    ensures size as real / min as real <= p as real
  {
    var m, q := min as real, size as real / min as real;
    assert q * m == size as real <= m * p as real;
    Cancel(q, p as real, m);
  }

  lemma QuotientAtLeast(size: nat, min: nat, p: nat)
    requires min >= 1 && min * p <= size
    ensures p as real <= size as real / min as real
  {
    var m, q := min as real, size as real / min as real;
    assert m * p as real <= size as real == q * m;
    Cancel(p as real, q, m);
  }

  lemma Cancel(x: real, y: real, m: real)
    requires m > 0.0 && x * m <= m * y
    ensures x <= y
  {
  }

  /** One more than a multiple of min is a whole 2^-32 above it, and one less below, up to 2^32. */
  lemma QuotientAbove(size: nat, min: nat, p: nat)
    requires min >= 1 && min * p < size && min * p <= 0x1_0000_0000
    ensures p as real + p as real / TWO_32_REAL <= size as real / min as real
  {
    var m, q, e := min as real, size as real / min as real, p as real / TWO_32_REAL;
    assert m * e == (min * p) as real / TWO_32_REAL <= 1.0;
    assert (p as real + e) * m == (min * p) as real + m * e <= size as real == q * m;
    Cancel(p as real + e, q, m);
  }

  lemma QuotientBelow(size: nat, min: nat, p: nat)
    requires min >= 1 && size < min * p && min * p <= 0x1_0000_0000
    ensures size as real / min as real <= p as real - p as real / TWO_32_REAL
  {
    var m, q, e := min as real, size as real / min as real, p as real / TWO_32_REAL;
    assert m * e == (min * p) as real / TWO_32_REAL <= 1.0;
    assert q * m == size as real <= (min * p) as real - m * e == (p as real - e) * m;
    Cancel(q, p as real - e, m);
  }

  lemma PowerIndexBound(k: nat)
    requires Pow2(k) <= 0x1_0000_0000
    ensures k <= 32
  {
    ThirtyTwo();
    if k > 32 { PowersRise(1, 32, k); }
  }

  lemma MinPower(min: nat, k: nat, b: nat)
    requires min >= 1 && min * Pow2(k) <= b
    ensures Pow2(k) <= b
  {
    assert Pow2(k) <= min * Pow2(k);
  }

  lemma LogAtMost(fl: Float, size: nat, min: nat, k: nat)
    requires Accurate(fl) && min >= 1 && size <= min * Pow2(k) && k <= 33
    ensures fl.lg(Quotient(fl, size, min)) <= k as real
  {
    var q := size as real / min as real;
    QuotientAtMost(size, min, Pow2(k));
    assert ExactAt(fl.rnd, k) && KeepsOrder(fl.rnd, q, At(k)) && SidesAt(fl.lg, k, fl.rnd(q));
    assert KeepsOrder(fl.rnd, 0.0, q);
  }

  lemma LogAtLeast(fl: Float, size: nat, min: nat, k: nat)
    requires Accurate(fl) && min >= 1 && min * Pow2(k) <= size && k <= 33
    ensures k as real <= fl.lg(Quotient(fl, size, min))
  {
    var q := size as real / min as real;
    QuotientAtLeast(size, min, Pow2(k));
    assert ExactAt(fl.rnd, k) && KeepsOrder(fl.rnd, At(k), q) && SidesAt(fl.lg, k, fl.rnd(q));
  }

  lemma LogAbove(fl: Float, size: nat, min: nat, k: nat)
    requires Accurate(fl) && min >= 1 && min * Pow2(k) < size <= TWO_31 && k <= 33
    ensures k as real < fl.lg(Quotient(fl, size, min))
  {
    var q := size as real / min as real;
    QuotientAbove(size, min, Pow2(k));
    assert ExactAt(fl.rnd, k) && KeepsOrder(fl.rnd, Above(k), q) && SidesAt(fl.lg, k, fl.rnd(q));
  }

  lemma LogBelow(fl: Float, size: nat, min: nat, k: nat)
    requires Accurate(fl) && min >= 1 && size < min * Pow2(k) <= 0x1_0000_0000 && k <= 33
    ensures fl.lg(Quotient(fl, size, min)) < k as real
  {
    var q := size as real / min as real;
    QuotientBelow(size, min, Pow2(k));
    assert ExactAt(fl.rnd, k) && KeepsOrder(fl.rnd, q, Below(k)) && SidesAt(fl.lg, k, fl.rnd(q));
    assert KeepsOrder(fl.rnd, 0.0, q);
  }

  lemma CeilBetween(x: real, k: nat)
    requires x <= k as real && (k > 0 ==> (k - 1) as real < x)
    ensures k > 0 ==> Ceil(x) == k
    ensures Ceil(x) <= k
  {
  }

  lemma CeilLogBound(size: nat, min: nat)
    requires 1 <= min && size <= TWO_31
    ensures CeilLog(size, min) <= 33
  {
    var k := CeilLog(size, min);
    CeilLogExact(size, min);
    if k > 0 {
      MinPower(min, k - 1, 0x1_0000_0000);
      PowerIndexBound(k - 1);
    }
  }

  lemma ThirtyTwo()
    ensures Pow2(32) == 0x1_0000_0000
  {
    assert Pow2(8) == 256;
    assert Pow2(16) == 256 * Pow2(8);
    assert Pow2(24) == 256 * Pow2(16);
    assert Pow2(32) == 256 * Pow2(24);
  }

  /** Up to 2^31 the rounded logarithm has the exact one's ceiling ... */
  lemma CeilIndexExact(fl: Float, size: nat, min: nat)
    requires Accurate(fl) && min >= 1 && size <= TWO_31
    ensures CeilIndex(fl, size, min) == CeilLog(size, min)
  {
    var k := CeilLog(size, min);
    CeilLogExact(size, min);
    CeilLogBound(size, min);
    if size > 0 {
      LogAtMost(fl, size, min, k);
      if k > 0 { LogAbove(fl, size, min, k - 1); }
      CeilBetween(fl.lg(Quotient(fl, size, min)), k);
    }
  }

  /** ... and floor. */
  lemma FloorIndexExact(fl: Float, size: nat, min: nat)
    requires Accurate(fl) && 1 <= min <= size <= TWO_31
    ensures FloorIndex(fl, size, min) == FloorLog(size, min)
  {
    var k := FloorLog(size, min);
    FloorLogExact(size, min);
    assert min * Pow2(k + 1) == 2 * (min * Pow2(k));
    MinPower(min, k, TWO_31);
    MinPower(min, k + 1, 0x1_0000_0000);
    PowerIndexBound(k + 1);
    LogAtLeast(fl, size, min, k);
    LogBelow(fl, size, min, k + 1);
  }

  // ---------------------------------------------------------------- levels

  /** findPool: the level a request for size is served from, or None for a buffer of its own. */
  function FindPool(fl: Float, min: nat, max: nat, size: nat): Option<nat>
    requires 1 <= min <= max
  {
    if size > max then None
    else
      var idx := CeilIndex(fl, size, min);
      if idx > |Levels(min, max)| - 1 then None else Some(idx)
  }

  /** findPutPool: the level a buffer of capacity size goes back to. */
  function FindPutPool(fl: Float, min: nat, max: nat, size: nat): Option<nat>
    requires 1 <= min <= max
  {
    if size > max || size < min then None
    else
      var idx := FloorIndex(fl, size, min);
      if idx > |Levels(min, max)| - 1 then None else Some(idx)
  }

  lemma PowersApart(min: nat, i: nat, j: nat)
    requires min >= 1 && min * Pow2(i) < min * Pow2(j)
    ensures i < j
  {
    if j < i { PowersRise(min, j, i); }
  }

  /** A request up to max is always served from a level, and from the smallest level that is large
      enough. */
  lemma FindPoolExact(fl: Float, min: nat, max: nat, size: nat)
    requires Accurate(fl) && 1 <= min <= max <= TWO_31
    ensures FindPool(fl, min, max, size).None? <==> size > max
    ensures size <= max ==>
      var i := FindPool(fl, min, max, size).value;
      && i < |Levels(min, max)| && size <= Levels(min, max)[i]
      && forall j :: 0 <= j < i ==> Levels(min, max)[j] < size
  {
    if size <= max {
      var i, top := CeilLog(size, min), CeilLog(max, min);
      CeilIndexExact(fl, size, min);
      CeilLogExact(size, min);
      CeilLogExact(max, min);
      if i > 0 { PowersApart(min, i - 1, top); }
      LevelAt(min, max, i);
      forall j | 0 <= j < i ensures Levels(min, max)[j] < size {
        LevelAt(min, max, j);
        if j < i - 1 { PowersRise(min, j, i - 1); }
      }
    }
  }

  /** A buffer is taken back exactly if its capacity is between min and max, and then into a level it
      is large enough for. */
  lemma FindPutPoolExact(fl: Float, min: nat, max: nat, size: nat)
    requires Accurate(fl) && 1 <= min <= max <= TWO_31
    ensures FindPutPool(fl, min, max, size).None? <==> size < min || size > max
    ensures min <= size <= max ==>
      var i := FindPutPool(fl, min, max, size).value; i < |Levels(min, max)| && Levels(min, max)[i] <= size
  {
    if min <= size <= max {
      var i, top := FloorLog(size, min), CeilLog(max, min);
      FloorIndexExact(fl, size, min);
      FloorLogExact(size, min);
      CeilLogExact(max, min);
      LevelAt(min, max, i);
      if top < i { PowersRise(min, top, i); }
    }
  }

  lemma {:induction false} FloorOfPower(min: nat, k: nat)
    requires min >= 1
    ensures min <= min * Pow2(k) && FloorLog(min * Pow2(k), min) == k
    decreases k
  {
    if k > 0 {
      Doubling(min, k - 1);
      FloorOfPower(2 * min, k - 1);
    }
  }

  /** A buffer of a level's size goes back to that level; only the top level gets its own back
      exactly if max is min times a power of two. */
  lemma LevelGetsItsOwnBackIff(fl: Float, min: nat, max: nat, i: nat)
    requires Accurate(fl) && 1 <= min <= max <= TWO_31 && i < |Levels(min, max)|
    ensures FindPutPool(fl, min, max, Levels(min, max)[i]) == Some(i) <==>
              i < CeilLog(max, min) || max == min * Pow2(CeilLog(max, min))
  {
    var top := CeilLog(max, min);
    LevelAt(min, max, i);
    CeilLogExact(max, min);
    FloorOfPower(min, i);
    FloorIndexExact(fl, Levels(min, max)[i], min);
    if i == top {
      FloorLogExact(max, min);
    }
  }

  /** With sizes from 512 to 5000 a buffer of the top level goes back to the level below. */
  lemma TopGoesDown(fl: Float)
    requires Accurate(fl)
    ensures Levels(512, 5000) == [512, 1024, 2048, 4096, 5000] && FindPutPool(fl, 512, 5000, 5000) == Some(3)
  {
    assert Levels(4096, 5000) == [4096, 5000];
    FloorIndexExact(fl, 5000, 512);
    assert FloorLog(5000, 4096) == 0;
  }

  // ---------------------------------------------------------------- doubling in int64

  predicate Int64(x: int) {
    -TWO_63 <= x < TWO_63
  }

  function Wrap64(x: int): int {
    (x + TWO_63) % TWO_64 - TWO_63
  }

  /** The level size after k doublings. */
  function SizeAt(min: int, k: nat): int {
    if k == 0 then min else Wrap64(2 * SizeAt(min, k - 1))
  }

  /** NewLimitedPool goes on after k doublings. */
  predicate GoesOn(min: int, max: int, k: nat) {
    SizeAt(min, k) < max
  }

  lemma WrapsOnce(x: int)
    requires -TWO_64 <= x < TWO_64
    ensures Int64(Wrap64(x))
    ensures Wrap64(x) == if x >= TWO_63 then x - TWO_64 else if x < -TWO_63 then x + TWO_64 else x
  {
  }

  lemma {:induction false} SizeIsInt64(min: int, k: nat)
    requires Int64(min)
    ensures Int64(SizeAt(min, k))
  {
    if k > 0 {
      SizeIsInt64(min, k - 1);
      WrapsOnce(2 * SizeAt(min, k - 1));
    }
  }

  lemma {:induction false} PowSum(i: nat, j: nat)
    ensures Pow2(i + j) == Pow2(i) * Pow2(j)
  {
    if i > 0 {
      PowSum(i - 1, j);
      assert Pow2(i + j) == 2 * Pow2(i - 1 + j);
    }
  }

  lemma SixtyFour()
    ensures Pow2(64) == TWO_64
  {
    ThirtyTwo();
    PowSum(32, 32);
  }

  lemma Distributes(q: int, m: int, r: int, p: int)
    ensures 2 * (q * p) + m * (r * (2 * p)) == (q + m * r) * (2 * p)
  {
    assert m * (r * (2 * p)) == m * r * (2 * p);
  }

  lemma Scaled(q: int, m: int, k: nat)
    requires k < 64
    ensures 2 * (q * Pow2(k)) + m * TWO_64 == (q + m * Pow2(63 - k)) * Pow2(k + 1)
  {
    SixtyFour();
    PowSum(63 - k, k + 1);
    Distributes(q, m, Pow2(63 - k), Pow2(k));
  }

  /** After k doublings the size is a multiple of 2^k ... */
  lemma {:induction false} SizeIsMultiple(min: int, k: nat) returns (q: int)
    requires Int64(min) && k <= 64
    ensures SizeAt(min, k) == q * Pow2(k)
  {
    q := min;
    if k > 0 {
      var p := SizeIsMultiple(min, k - 1);
      var x := 2 * SizeAt(min, k - 1);
      SizeIsInt64(min, k - 1);
      WrapsOnce(x);
      var m := if x >= TWO_63 then -1 else if x < -TWO_63 then 1 else 0;
      Scaled(p, m, k - 1);
      q := p + m * Pow2(64 - k);
    }
  }

  /** ... so that 64 of them come to 0 ... */
  lemma SizeVanishes(min: int)
    requires Int64(min)
    ensures SizeAt(min, 64) == 0
  {
    var q := SizeIsMultiple(min, 64);
    SixtyFour();
    SizeIsInt64(min, 64);
  }

  /** ... and it stays there. */
  lemma {:induction false} ZeroStays(min: int, k: nat, j: nat)
    requires SizeAt(min, k) == 0 && k <= j
    ensures SizeAt(min, j) == 0
    decreases j
  {
    if k < j {
      ZeroStays(min, k, j - 1);
      WrapsOnce(0);
    }
  }

  /** Doubling never ends exactly if it has not done so after 64 times, and 0 is below max, too. */
  lemma EndlessIff(min: int, max: int)
    requires Int64(min) && Int64(max)
    ensures (forall k: nat :: GoesOn(min, max, k)) <==> 0 < max && forall k: nat :: k < 64 ==> GoesOn(min, max, k)
  {
    SizeVanishes(min);
    if forall k: nat :: GoesOn(min, max, k) {
      assert GoesOn(min, max, 64);
    } else if 0 < max {
      var k: nat :| !GoesOn(min, max, k);
      if k >= 64 { ZeroStays(min, 64, k); }
    }
  }

  lemma {:induction false} NoOverflow(min: nat, k: nat)
    requires min * Pow2(k) < TWO_63
    ensures SizeAt(min, k) == min * Pow2(k)
  {
    if k > 0 {
      Twice(min, k - 1);
      NoOverflow(min, k - 1);
      WrapsOnce(min * Pow2(k));
    }
  }

  lemma Twice(min: nat, k: nat)
    ensures min * Pow2(k + 1) == 2 * (min * Pow2(k))
  {
  }

  lemma StaysBelow(min: nat, max: nat, i: nat)
    requires 1 <= min && max <= 0x4000_0000_0000_0000 && i <= CeilLog(max, min) && CeilLog(max, min) > 0
    ensures min * Pow2(i) < TWO_63
  {
    var n := CeilLog(max, min);
    CeilLogExact(max, min);
    Twice(min, n - 1);
    if i < n { PowersRise(min, i, n); }
  }

  /** Up to 2^62 the doubling passes the levels and ends at the first size that is not below max. */
  lemma DoublingEnds(min: nat, max: nat, i: nat)
    requires 1 <= min && max <= 0x4000_0000_0000_0000 && i <= CeilLog(max, min)
    ensures GoesOn(min, max, i) <==> i < CeilLog(max, min)
    ensures SizeAt(min, i) == min * Pow2(i)
  {
    CeilLogExact(max, min);
    LevelAt(min, max, i);
    if CeilLog(max, min) > 0 {
      StaysBelow(min, max, i);
      NoOverflow(min, i);
    }
  }

  /** So for sizes up to 2^62 only a smallest size of 0 never ends. */
  lemma EndlessFromZeroIff(min: nat, max: nat)
    requires max <= 0x4000_0000_0000_0000
    ensures (forall k: nat :: GoesOn(min, max, k)) <==> min == 0 < max
  {
    if min == 0 {
      forall k: nat ensures SizeAt(0, k) == 0 { ZeroStays(0, 0, k); }
      assert GoesOn(min, max, 0) <==> 0 < max;
    } else {
      DoublingEnds(min, max, CeilLog(max, min));
      assert !GoesOn(min, max, CeilLog(max, min));
    }
  }

  /** Beyond that, a positive one may: 3 and the largest int. */
  lemma EndlessByOverflow(k: nat)
    ensures GoesOn(3, TWO_63 - 1, k)
  {
    SizeIsInt64(3, k);
    if k > 0 {
      SizeIsInt64(3, k - 1);
      WrapsOnce(2 * SizeAt(3, k - 1));
      assert TWO_63 - 1 == 2 * 0x3FFF_FFFF_FFFF_FFFF + 1;
    }
  }

  /** The sizes that the doubling makes: those below max, in order, and max. */
  ghost predicate Doubled(min: int, max: int, sizes: seq<int>) {
    var n := |sizes| - 1;
    && n >= 0 && sizes[n] == max && !GoesOn(min, max, n)
    && forall i :: 0 <= i < n ==> GoesOn(min, max, i) && sizes[i] == SizeAt(min, i)
  }

  lemma DoubledAreLevels(min: nat, max: nat, sizes: seq<int>)
    requires 1 <= min && max <= 0x4000_0000_0000_0000 && Doubled(min, max, sizes)
    ensures sizes == Levels(min, max)
  {
    var top, n := CeilLog(max, min), |sizes| - 1;
    DoublingEnds(min, max, top);
    if n < top { DoublingEnds(min, max, n); }
    LevelAt(min, max, top);
    forall i | 0 <= i < top ensures sizes[i] == Levels(min, max)[i] {
      DoublingEnds(min, max, i);
      LevelAt(min, max, i);
    }
  }
}

module BufferPool {
  import opened Numbers
  import opened WireBytes
  import opened PoolLevels

  /** A Go byte slice that starts its array: the capacity is the array's length. */
  datatype Slice = Slice(data: array<byte>, len: nat)

  ghost predicate SliceOk(b: Slice) {
    b.len <= b.data.Length
  }

  /** The pool does not hold the array. */
  ghost predicate Out(free: seq<seq<Slice>>, data: array<byte>) {
    forall i, k :: 0 <= i < |free| && 0 <= k < |free[i]| ==> free[i][k].data != data
  }

  /** No array is in the pool twice. */
  ghost predicate Unshared(free: seq<seq<Slice>>) {
    forall i, k, i', k' ::
      && 0 <= i < |free| && 0 <= k < |free[i]| && 0 <= i' < |free| && 0 <= k' < |free[i']|
      && free[i][k].data == free[i'][k'].data
      ==> i == i' && k == k'
  }

  /** The levels of LimitedPool, each with the buffers its sync.Pool holds. */
  class LimitedPool {
    const fl: Float
    const minSize: int
    const maxSize: int
    const sizes: seq<int>
    var free: seq<seq<Slice>>

    constructor (fl: Float, minSize: int, maxSize: int, sizes: seq<int>)
      ensures this.fl == fl && this.minSize == minSize && this.maxSize == maxSize && this.sizes == sizes
      ensures free == seq(|sizes|, _ => [])
    {
      this.fl, this.minSize, this.maxSize, this.sizes := fl, minSize, maxSize, sizes;
      free := seq(|sizes|, _ => []);
    }

    /** A level's buffers are at least as large as its size and are held at full length. */
    ghost predicate Valid()
      reads this
    {
      && Accurate(fl) && 1 <= minSize <= maxSize <= TWO_31 && sizes == Levels(minSize, maxSize) && |free| == |sizes|
      && forall i, k :: 0 <= i < |free| && 0 <= k < |free[i]| ==>
           sizes[i] <= free[i][k].data.Length == free[i][k].len
    }

    /** A buffer of length size.  The level's sync.Pool hands out one of its buffers, if which names
        one, or makes a new one of the level's size. */
    method Get(size: nat, which: nat) returns (b: Slice)
      requires Valid()
      modifies this
      ensures Valid()
      ensures b.len == size && SliceOk(b)
      ensures size > maxSize ==> fresh(b.data) && b.data.Length == size && free == old(free)
      ensures size <= maxSize ==>
        && FindPool(fl, minSize, maxSize, size).Some?
        && var i := FindPool(fl, minSize, maxSize, size).value;
        && i < |free| && sizes[i] <= b.data.Length
        && (if which < |old(free)[i]|
            then b.data == old(free)[i][which].data && free == old(free)[i := Without(old(free)[i], which)]
            else fresh(b.data) && b.data.Length == sizes[i] && free == old(free))
      ensures Unshared(old(free)) ==> Unshared(free) && Out(free, b.data)
    {
      FindPoolExact(fl, minSize, maxSize, size);
      var sp := FindPool(fl, minSize, maxSize, size);
      if sp.None? {
        var data := new byte[size](_ => 0);
        return Slice(data, size);
      }
      var i := sp.value;
      if which < |free[i]| {
        TakenOut(free, i, which);
        b := free[i][which].(len := size);
        free := free[i := Without(free[i], which)];
      } else {
        var data := new byte[sizes[i]](_ => 0);
        b := Slice(data, size);
      }
    }

    /** Takes a buffer back, at full length, if its capacity is between minSize and maxSize. */
    method Put(b: Slice)
      requires Valid() && SliceOk(b)
      modifies this
      ensures Valid()
      ensures var cap := b.data.Length; var sp := FindPutPool(fl, minSize, maxSize, cap);
              && (sp.None? <==> cap < minSize || cap > maxSize)
              && (sp.None? ==> free == old(free))
              && (sp.Some? ==>
                    && sp.value < |free|
                    && free == old(free)[sp.value := old(free)[sp.value] + [Slice(b.data, cap)]])
      ensures Unshared(old(free)) && Out(old(free), b.data) ==> Unshared(free)
    {
      FindPutPoolExact(fl, minSize, maxSize, b.data.Length);
      var sp := FindPutPool(fl, minSize, maxSize, b.data.Length);
      if sp.None? { return; }
      PutIn(free, sp.value, b.(len := b.data.Length));
      free := free[sp.value := free[sp.value] + [b.(len := b.data.Length)]];
    }

    /** The garbage collector empties a level's sync.Pool of a buffer. */
    method Drop(i: nat, k: nat)
      requires Valid() && i < |free| && k < |free[i]|
      modifies this
      ensures Valid() && free == old(free)[i := Without(old(free)[i], k)]
      ensures Unshared(old(free)) ==> Unshared(free)
    {
      TakenOut(free, i, k);
      free := free[i := Without(free[i], k)];
    }
  }

  function Without(s: seq<Slice>, k: nat): (r: seq<Slice>)
    requires k < |s|
    ensures |r| == |s| - 1 && multiset(r) == multiset(s) - multiset{s[k]}
    ensures forall j :: 0 <= j < |r| ==> r[j] == if j < k then s[j] else s[j + 1]
  {
    assert s == s[..k] + [s[k]] + s[k + 1..];
    s[..k] + s[k + 1..]
  }

  lemma TakenOut(free: seq<seq<Slice>>, i: nat, k: nat)
    requires i < |free| && k < |free[i]|
    ensures var free' := free[i := Without(free[i], k)];
            Unshared(free) ==> Unshared(free') && Out(free', free[i][k].data)
  {
  }

  lemma PutIn(free: seq<seq<Slice>>, i: nat, b: Slice)
    requires i < |free|
    ensures Unshared(free) && Out(free, b.data) ==> Unshared(free[i := free[i] + [b]])
  {
  }

  /** How NewLimitedPool ends: in a panic, not at all, or with a pool. */
  datatype NewPool = Panicked | Endless | Made(p: LimitedPool)

  /** NewLimitedPool, on any two ints. */
  method NewLimitedPool(fl: Float, minSize: int, maxSize: int) returns (r: NewPool)
    requires Int64(minSize) && Int64(maxSize)
    ensures r.Panicked? <==> maxSize < minSize
    ensures r.Endless? <==> minSize <= maxSize && forall k: nat :: GoesOn(minSize, maxSize, k)
    ensures r.Made? ==> fresh(r.p) && r.p.fl == fl && r.p.minSize == minSize && r.p.maxSize == maxSize
    ensures r.Made? ==> Doubled(minSize, maxSize, r.p.sizes) && r.p.free == seq(|r.p.sizes|, _ => [])
    ensures r.Made? && minSize >= 1 && Accurate(fl) && maxSize <= TWO_31 ==> r.p.Valid()
  {
    if maxSize < minSize { return Panicked; }
    var sizes, cur := [], minSize;
    SizeVanishes(minSize);
    while cur < maxSize
      invariant |sizes| <= 64 && cur == SizeAt(minSize, |sizes|)
      invariant forall i :: 0 <= i < |sizes| ==> GoesOn(minSize, maxSize, i) && sizes[i] == SizeAt(minSize, i)
      decreases 64 - |sizes|
    {
      if cur == 0 {
        // 0 doubles to 0, so the source's loop goes on for ever
        forall k: nat ensures GoesOn(minSize, maxSize, k) {
          if k >= |sizes| { ZeroStays(minSize, |sizes|, k); }
        }
        return Endless;
      }
      sizes := sizes + [cur];
      cur := Wrap64(2 * cur);
    }
    assert !GoesOn(minSize, maxSize, |sizes|);
    var pool := new LimitedPool(fl, minSize, maxSize, sizes + [maxSize]);
    if minSize >= 1 && maxSize <= TWO_31 { DoubledAreLevels(minSize, maxSize, sizes + [maxSize]); }
    r := Made(pool);
  }
}
