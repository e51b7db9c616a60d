/** Bytes and big-endian numbers. */
module WireBytes {

  type byte = x: int | 0 <= x < 256

  type Bytes = seq<byte>

  const TWO_32: nat := 0x1_0000_0000

  /** Addition and subtraction of uint32. */
  function Add32(a: nat, b: nat): (r: nat)
    requires a < TWO_32 && b < TWO_32
    ensures r < TWO_32 && (r == a + b || (r == a + b - TWO_32 && r < a))
  {
    if a + b < TWO_32 then a + b else a + b - TWO_32
  }

  function Sub32(a: nat, b: nat): (r: nat)
    requires a < TWO_32 && b < TWO_32
    ensures r < TWO_32
  {
    if a >= b then a - b else a - b + TWO_32
  }

  /** Conversion of a length to uint32. */
  function Len32(n: nat): (r: nat)
    ensures r < TWO_32
  {
    if n < TWO_32 then n else n % TWO_32
  }

  function Put16(x: nat): (r: Bytes)
    requires x < 0x1_0000
    ensures |r| == 2
  {
    [x / 256, x % 256]
  }

  function Get16(s: Bytes, n: nat): (x: nat)
    requires n + 2 <= |s|
    ensures x < 0x1_0000
  {
    (s[n] as int) * 256 + s[n + 1]
  }

  /** binary.BigEndian.PutUint32 */
  function Put32(x: nat): (r: Bytes)
    requires x < TWO_32
    ensures |r| == 4
  {
    Put16(x / 0x1_0000) + Put16(x % 0x1_0000)
  }

  /** binary.BigEndian.Uint32 of the four bytes at n. */
  function Get32(s: Bytes, n: nat): (x: nat)
    requires n + 4 <= |s|
    ensures x < TWO_32
  {
    Get16(s, n) * 0x1_0000 + Get16(s, n + 2)
  }

  lemma PutGet32(x: nat)
    requires x < TWO_32
    ensures Get32(Put32(x), 0) == x
  {
  }

  lemma GetPut16(s: Bytes, n: nat)
    requires n + 2 <= |s|
    ensures Put16(Get16(s, n)) == s[n..n + 2]
  {
  }

  lemma Halves(a: nat, b: nat)
    requires b < 0x1_0000
    ensures (a * 0x1_0000 + b) / 0x1_0000 == a && (a * 0x1_0000 + b) % 0x1_0000 == b
  {
  }

  lemma GetPut32(s: Bytes, n: nat)
    requires n + 4 <= |s|
    ensures Put32(Get32(s, n)) == s[n..n + 4]
  {
    Halves(Get16(s, n), Get16(s, n + 2));
    GetPut16(s, n);
    GetPut16(s, n + 2);
    assert s[n..n + 4] == s[n..n + 2] + s[n + 2..n + 4];
  }

  lemma Get32Slice(s: Bytes, a: nat, b: nat, n: nat)
    requires a + n + 4 <= b <= |s|
    ensures Get32(s[a..b], n) == Get32(s, a + n)
  {
  }

  lemma SliceSlice(s: Bytes, a: nat, b: nat, c: nat, d: nat)
    requires a <= b <= |s| && c <= d <= b - a
    ensures s[a..b][c..d] == s[a + c..a + d]
  {
    forall i | 0 <= i < d - c ensures s[a..b][c..d][i] == s[a + c..a + d][i] {
    }
  }

  lemma Get32Concat(s: Bytes, x: nat, t: Bytes)
    requires x < TWO_32
    ensures Get32(s + Put32(x) + t, |s|) == x
  {
    var u := s + Put32(x) + t;
    assert u[|s|..|s| + 4] == Put32(x);
    Get32Slice(u, |s|, |s| + 4, 0);
    PutGet32(x);
  }
}
