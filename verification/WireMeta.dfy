/** The length-prefixed metadata section of a message. */
module WireMeta {
  import opened Wrappers
  import opened WireBytes

  datatype Pair = Pair(k: Bytes, v: Bytes)

  /** A length, as uint32, in front of its bytes. */
  function Prefixed(b: Bytes): (r: Bytes)
    ensures |r| == 4 + |b|
  {
    Put32(Len32(|b|)) + b
  }

  predicate Short(p: Pair) {
    |p.k| < TWO_32 && |p.v| < TWO_32
  }

  predicate AllShort(ps: seq<Pair>) {
    forall i :: 0 <= i < |ps| ==> Short(ps[i])
  }

  function EncodePairs(ps: seq<Pair>): (r: Bytes) {
    if ps == [] then [] else Prefixed(ps[0].k) + Prefixed(ps[0].v) + EncodePairs(ps[1..])
  }

  /** The first pair of s, if s starts with a complete one. */
  function ParseOne(s: Bytes): (r: Option<Pair>)
    ensures r.Some? ==> Short(r.value) && 8 + |r.value.k| + |r.value.v| <= |s|
  {
    if |s| < 4 then None
    else
      var kl := Get32(s, 0);
      if |s| < 8 + kl then None
      else
        var vl := Get32(s, 4 + kl);
        if |s| < 8 + kl + vl then None else Some(Pair(s[4..4 + kl], s[8 + kl..8 + kl + vl]))
  }

  function Size(p: Pair): nat {
    8 + |p.k| + |p.v|
  }

  /** The pairs s consists of, if it consists of complete ones. */
  function ParsePairs(s: Bytes): (r: Option<seq<Pair>>)
    ensures r.Some? ==> AllShort(r.value)
    decreases |s|
  {
    if s == [] then Some([])
    else
      var p := ParseOne(s);
      if p.None? then None
      else
        var rest := ParsePairs(s[Size(p.value)..]);
        if rest.None? then None else Some([p.value] + rest.value)
  }

  lemma ParseOneOfEncoded(p: Pair, t: Bytes)
    requires Short(p)
    ensures ParseOne(Prefixed(p.k) + Prefixed(p.v) + t) == Some(p)
  {
    var s := Prefixed(p.k) + Prefixed(p.v) + t;
    var kl, vl := |p.k|, |p.v|;
    assert s == [] + Put32(kl) + (p.k + Prefixed(p.v) + t);
    Get32Concat([], kl, p.k + Prefixed(p.v) + t);
    assert s == Prefixed(p.k) + Put32(vl) + (p.v + t);
    Get32Concat(Prefixed(p.k), vl, p.v + t);
    assert s[4..4 + kl] == p.k && s[8 + kl..8 + kl + vl] == p.v;
  }

  lemma PrefixedAt(buf: Bytes, n: nat, m: nat)
    requires n + 4 <= m <= |buf| && m == n + 4 + Get32(buf, n)
    ensures Prefixed(buf[n + 4..m]) == buf[n..m]
  {
    GetPut32(buf, n);
    assert buf[n..m] == buf[n..n + 4] + buf[n + 4..m];
  }

  lemma EncodedOfParseOne(s: Bytes)
    requires ParseOne(s).Some?
    ensures var p := ParseOne(s).value; Prefixed(p.k) + Prefixed(p.v) == s[..Size(p)]
  {
    var p := ParseOne(s).value;
    var n, m := 4 + |p.k|, Size(p);
    PrefixedAt(s, 0, n);
    PrefixedAt(s, n, m);
    assert s[..m] == s[0..n] + s[n..m];
  }

  ghost function Prepended(ps: seq<Pair>, rest: Option<seq<Pair>>): Option<seq<Pair>> {
    if rest.None? then None else Some(ps + rest.value)
  }

  lemma ParseCons(s: Bytes, p: Pair, u: Bytes)
    requires ParseOne(s) == Some(p) && s[Size(p)..] == u
    ensures ParsePairs(s) == Prepended([p], ParsePairs(u))
  {
  }

  lemma PrependTwice(p: Pair, ps: seq<Pair>, rest: Option<seq<Pair>>)
    ensures Prepended([p], Prepended(ps, rest)) == Prepended([p] + ps, rest)
  {
    assert rest.Some? ==> [p] + (ps + rest.value) == ([p] + ps) + rest.value;
  }

  lemma EncodeAppend(ps: seq<Pair>, t: Bytes)
    requires AllShort(ps) && ps != []
    ensures EncodePairs(ps) + t == Prefixed(ps[0].k) + Prefixed(ps[0].v) + (EncodePairs(ps[1..]) + t)
    ensures (EncodePairs(ps) + t)[Size(ps[0])..] == EncodePairs(ps[1..]) + t
  {
  }

  lemma {:induction false} ParseAppend(ps: seq<Pair>, t: Bytes)
    requires AllShort(ps)
    ensures ParsePairs(EncodePairs(ps) + t) == Prepended(ps, ParsePairs(t))
  {
    if ps == [] {
      assert EncodePairs(ps) + t == t;
      assert ParsePairs(t).Some? ==> [] + ParsePairs(t).value == ParsePairs(t).value;
    } else {
      EncodeAppend(ps, t);
      ParseOneOfEncoded(ps[0], EncodePairs(ps[1..]) + t);
      ParseCons(EncodePairs(ps) + t, ps[0], EncodePairs(ps[1..]) + t);
      ParseAppend(ps[1..], t);
      PrependTwice(ps[0], ps[1..], ParsePairs(t));
      assert ps == [ps[0]] + ps[1..];
    }
  }

  /** Parsing undoes encoding ... */
  lemma ParseOfEncoded(ps: seq<Pair>)
    requires AllShort(ps)
    ensures ParsePairs(EncodePairs(ps)) == Some(ps)
  {
    ParseAppend(ps, []);
    assert EncodePairs(ps) + [] == EncodePairs(ps) && ps + [] == ps;
  }

  lemma EncodeCons(p: Pair, ps: seq<Pair>)
    ensures EncodePairs([p] + ps) == Prefixed(p.k) + Prefixed(p.v) + EncodePairs(ps)
  {
    assert ([p] + ps)[1..] == ps;
  }

  lemma EncodedCons(s: Bytes, p: Pair, ps: seq<Pair>)
    requires ParseOne(s) == Some(p) && AllShort(ps) && EncodePairs(ps) == s[Size(p)..]
    ensures AllShort([p] + ps) && EncodePairs([p] + ps) == s
  {
    EncodedOfParseOne(s);
    EncodeCons(p, ps);
    assert s == s[..Size(p)] + s[Size(p)..];
  }

  /** ... and whatever parses is an encoding: of the pairs it parses to. */
  lemma {:induction false} EncodedOfParse(s: Bytes)
    requires ParsePairs(s).Some?
    ensures EncodePairs(ParsePairs(s).value) == s
    decreases |s|
  {
    if s != [] {
      var p := ParseOne(s).value;
      EncodedOfParse(s[Size(p)..]);
      ParseCons(s, p, s[Size(p)..]);
      EncodedCons(s, p, ParsePairs(s[Size(p)..]).value);
    }
  }

  /** The map a list of pairs builds: the last value of a key wins. */
  function LastWins(ps: seq<Pair>): (m: map<Bytes, Bytes>) {
    if ps == [] then map[] else LastWins(ps[..|ps| - 1])[ps[|ps| - 1].k := ps[|ps| - 1].v]
  }

  // ---------------------------------------------------------------- decodeMetadata

  /** How decodeMetadata ends: with the map, with ErrMetaKVMissing, or in a slice out of range. */
  datatype MetaResult = Decoded(m: map<Bytes, Bytes>) | Missing | Panics

  /** data[lo:hi] of a slice whose capacity is |data|. */
  predicate InRange(data: Bytes, lo: nat, hi: nat) {
    lo <= hi <= |data|
  }

  datatype PairResult = Got(p: Pair, n: nat) | PairMissing | PairPanics

  /** What ParseOne says about the region from n to l, in terms of the whole slice. */
  lemma ParseOneAt(data: Bytes, l: nat, n: nat)
    requires n <= l <= |data|
    ensures ParseOne(data[n..l]).Some? <==>
              && n + 4 <= l && n + 8 + Get32(data, n) <= l
              && n + 8 + Get32(data, n) + Get32(data, n + 4 + Get32(data, n)) <= l
    ensures ParseOne(data[n..l]).Some? ==>
              var kl := Get32(data, n); var vl := Get32(data, n + 4 + kl);
              ParseOne(data[n..l]).value == Pair(data[n + 4..n + 4 + kl], data[n + 8 + kl..n + 8 + kl + vl])
  {
    var s := data[n..l];
    if n + 4 <= l {
      Get32Slice(data, n, l, 0);
      var kl := Get32(data, n);
      if n + 8 + kl <= l {
        Get32Slice(data, n, l, 4 + kl);
        var vl := Get32(data, n + 4 + kl);
        if n + 8 + kl + vl <= l {
          SliceSlice(data, n, l, 4, 4 + kl);
          SliceSlice(data, n, l, 8 + kl, 8 + kl + vl);
        }
      }
    }
  }

  /** A position beyond uint32 that wraps around to at most bound. */
  predicate WrapsTo(x: nat, bound: nat) {
    TWO_32 <= x && x - TWO_32 <= bound
  }

  /** A four-byte length at n is out of the slice's range or of uint32's. */
  predicate NoLengthAt(data: Bytes, n: nat) {
    n + 4 > |data| || n + 4 >= TWO_32
  }

  /** When a round at n slices out of range: a length is not there to be read, or a key or a value ends
      beyond uint32 at a position that wraps back below its bound. */
  predicate RoundPanics(data: Bytes, l: nat, n: nat)
    requires n < l <= |data| && l < TWO_32
  {
    || NoLengthAt(data, n)
    || var k := n + 4 + Get32(data, n);
       || WrapsTo(k, Sub32(l, 4))
       || (k < TWO_32 && k <= Sub32(l, 4) &&
           (NoLengthAt(data, k) || WrapsTo(k + 4 + Get32(data, k), l)))
  }

  /** Complete pairs lead up to n and the round at n slices out of range. */
  ghost predicate PanicPoint(data: Bytes, l: nat, n: nat) {
    n < l <= |data| && l < TWO_32 && ParsePairs(data[..n]).Some? && RoundPanics(data, l, n)
  }

  /** When decodeMetadata panics. */
  ghost predicate MetaPanics(data: Bytes, l: nat) {
    exists n: nat :: PanicPoint(data, l, n)
  }

  /** One round of the loop of decodeMetadata, in uint32 arithmetic. */
  method DecodeOne(l: nat, data: Bytes, start: nat) returns (r: PairResult)
    requires start < l <= |data| && l < TWO_32
    ensures r.Got? <==> ParseOne(data[start..l]).Some?
    ensures r.Got? ==> r.p == ParseOne(data[start..l]).value && r.n == start + Size(r.p)
    ensures r.PairPanics? <==> RoundPanics(data, l, start)
  {
    ParseOneAt(data, l, start);
    var n := start;
    if !InRange(data, n, Add32(n, 4)) { return PairPanics; }
    var sl := Get32(data, n);
    n := Add32(n, 4);
    if Add32(n, sl) > Sub32(l, 4) { return PairMissing; }
    if !InRange(data, n, Add32(n, sl)) { return PairPanics; }
    var k := data[n..Add32(n, sl)];
    n := Add32(n, sl);

    if !InRange(data, n, Add32(n, 4)) { return PairPanics; }
    sl := Get32(data, n);
    n := Add32(n, 4);
    if Add32(n, sl) > l { return PairMissing; }
    if !InRange(data, n, Add32(n, sl)) { return PairPanics; }
    var v := data[n..Add32(n, sl)];
    r := Got(Pair(k, v), Add32(n, sl));
  }

  lemma {:induction false} EncodeSnoc(ps: seq<Pair>, p: Pair)
    ensures EncodePairs(ps + [p]) == EncodePairs(ps) + (Prefixed(p.k) + Prefixed(p.v))
  {
    if ps == [] {
      EncodeCons(p, []);
      assert [p] + [] == [p];
    } else {
      EncodeSnoc(ps[1..], p);
      EncodeCons(ps[0], ps[1..] + [p]);
      assert ps + [p] == [ps[0]] + (ps[1..] + [p]);
    }
  }

  /** The loop has read the pairs ps up to n. */
  ghost predicate ReadUpTo(data: Bytes, n: nat, ps: seq<Pair>, m: map<Bytes, Bytes>) {
    n <= |data| && AllShort(ps) && EncodePairs(ps) == data[..n] && m == LastWins(ps)
  }

  lemma ReadMore(data: Bytes, l: nat, n: nat, ps: seq<Pair>, m: map<Bytes, Bytes>)
    requires ReadUpTo(data, n, ps, m) && n <= l <= |data| && ParseOne(data[n..l]).Some?
    ensures var p := ParseOne(data[n..l]).value; ReadUpTo(data, n + Size(p), ps + [p], m[p.k := p.v])
  {
    var p := ParseOne(data[n..l]).value;
    EncodedOfParseOne(data[n..l]);
    EncodeSnoc(ps, p);
    SliceSlice(data, n, l, 0, Size(p));
    assert data[..n + Size(p)] == data[..n] + data[n..n + Size(p)];
    assert (ps + [p])[..|ps|] == ps;
  }

  lemma ReadFails(data: Bytes, l: nat, n: nat, ps: seq<Pair>, m: map<Bytes, Bytes>)
    requires ReadUpTo(data, n, ps, m) && n < l <= |data| && ParseOne(data[n..l]).None?
    ensures ParsePairs(data[..l]).None?
  {
    ParseAppend(ps, data[n..l]);
    assert data[..l] == data[..n] + data[n..l];
  }

  lemma ParseOneLonger(data: Bytes, n: nat, k: nat, l: nat)
    requires n <= k <= l <= |data| && ParseOne(data[n..k]).Some?
    ensures ParseOne(data[n..l]) == ParseOne(data[n..k])
  {
    ParseOneAt(data, k, n);
    ParseOneAt(data, l, n);
  }

  /** A panic point further on is not before the end of the pair at n. */
  lemma PointsAhead(data: Bytes, l: nat, n: nat, ps: seq<Pair>, m: map<Bytes, Bytes>, k: nat)
    requires ReadUpTo(data, n, ps, m) && PanicPoint(data, l, k) && n < k
    ensures ParseOne(data[n..l]).Some? && n + Size(ParseOne(data[n..l]).value) <= k
  {
    ParseAppend(ps, data[n..k]);
    assert data[..k] == data[..n] + data[n..k];
    ParseOneLonger(data, n, k, l);
  }

  /** The round at n decides, or leaves the panic points to later rounds. */
  lemma PointsAfter(data: Bytes, l: nat, n: nat, ps: seq<Pair>, m: map<Bytes, Bytes>, r: PairResult)
    requires ReadUpTo(data, n, ps, m) && n < l <= |data| && l < TWO_32
    requires forall k: nat :: PanicPoint(data, l, k) ==> n <= k
    requires r.Got? <==> ParseOne(data[n..l]).Some?
    requires r.Got? ==> r.p == ParseOne(data[n..l]).value && r.n == n + Size(r.p)
    requires r.PairPanics? <==> RoundPanics(data, l, n)
    ensures r.Got? ==> forall k: nat :: PanicPoint(data, l, k) ==> r.n <= k
    ensures !r.Got? ==> (MetaPanics(data, l) <==> r.PairPanics?)
  {
    ParseOfEncoded(ps);
    if r.PairPanics? { assert PanicPoint(data, l, n); }
    forall k: nat | PanicPoint(data, l, k) ensures r.Got? ==> r.n <= k
      ensures !r.Got? ==> k == n
    {
      if n < k { PointsAhead(data, l, n, ps, m, k); }
    }
  }

  /** decodeMetadata on a slice of length l and capacity |data|: it succeeds exactly if the l bytes
      are a list of complete pairs, and returns their last-wins map; otherwise it panics exactly if the
      first round that fails slices out of range. */
  method DecodeMetadata(l: nat, data: Bytes) returns (r: MetaResult)
    requires l <= |data| && l < TWO_32
    ensures r.Decoded? <==> ParsePairs(data[..l]).Some?
    ensures r.Decoded? ==> r.m == LastWins(ParsePairs(data[..l]).value)
    ensures r.Panics? <==> MetaPanics(data, l)
  {
    var m: map<Bytes, Bytes>, n := map[], 0;
    ghost var ps: seq<Pair> := [];
    while n < l
      invariant n <= l && ReadUpTo(data, n, ps, m)
      invariant forall k: nat :: PanicPoint(data, l, k) ==> n <= k
      decreases l - n
    {
      var one := DecodeOne(l, data, n);
      PointsAfter(data, l, n, ps, m, one);
      if !one.Got? {
        ReadFails(data, l, n, ps, m);
        return if one.PairMissing? then Missing else Panics;
      }
      ReadMore(data, l, n, ps, m);
      m := m[one.p.k := one.p.v];
      ps := ps + [one.p];
      n := one.n;
    }
    ParseOfEncoded(ps);
    r := Decoded(m);
  }

  // ---------------------------------------------------------------- encodeMetadata

  /** ps lists m: each key once, with its value. */
  ghost predicate Enumerates(ps: seq<Pair>, m: map<Bytes, Bytes>) {
    && (forall i :: 0 <= i < |ps| ==> ps[i].k in m && m[ps[i].k] == ps[i].v)
    && (forall i, j :: 0 <= i < j < |ps| ==> ps[i].k != ps[j].k)
    && (forall k :: k in m ==> exists i :: 0 <= i < |ps| && ps[i].k == k)
  }

  /** encodeMetadata: the pairs in whatever order the map is iterated. */
  method EncodeMetadata(m: map<Bytes, Bytes>) returns (bb: Bytes, ghost order: seq<Pair>)
    ensures Enumerates(order, m) && bb == EncodePairs(order)
  {
    bb, order := [], [];
    var left := m.Keys;
    while left != {}
      invariant left <= m.Keys && bb == EncodePairs(order)
      invariant forall i :: 0 <= i < |order| ==> order[i].k in m && order[i].k !in left && m[order[i].k] == order[i].v
      invariant forall i, j :: 0 <= i < j < |order| ==> order[i].k != order[j].k
      invariant forall k :: k in m && k !in left ==> exists i :: 0 <= i < |order| && order[i].k == k
      decreases |left|
    {
      var k :| k in left;
      EncodeSnoc(order, Pair(k, m[k]));
      bb := bb + (Prefixed(k) + Prefixed(m[k]));
      ghost var longer := order + [Pair(k, m[k])];
      assert longer[|order|].k == k;
      forall k' | k' in m && k' !in left - {k} ensures exists i :: 0 <= i < |longer| && longer[i].k == k' {
        if k' != k {
          var i :| 0 <= i < |order| && order[i].k == k';
          assert longer[i].k == k';
        }
      }
      order := longer;
      left := left - {k};
    }
  }

  /** Any listing of a map builds the map. */
  lemma {:induction false} LastWinsOfListing(ps: seq<Pair>, m: map<Bytes, Bytes>)
    requires Enumerates(ps, m)
    ensures LastWins(ps) == m
  {
    LastWinsKeys(ps);
    forall k | k in m ensures k in LastWins(ps) && LastWins(ps)[k] == m[k] {
      var i :| 0 <= i < |ps| && ps[i].k == k;
    }
    forall k | k in LastWins(ps) ensures k in m {
    }
  }

  /** With distinct keys, the map holds exactly the pairs. */
  lemma {:induction false} LastWinsKeys(ps: seq<Pair>)
    requires forall i, j :: 0 <= i < j < |ps| ==> ps[i].k != ps[j].k
    ensures forall i :: 0 <= i < |ps| ==> ps[i].k in LastWins(ps) && LastWins(ps)[ps[i].k] == ps[i].v
    ensures forall k :: k in LastWins(ps) ==> exists i :: 0 <= i < |ps| && ps[i].k == k
  {
    if ps != [] {
      var init := ps[..|ps| - 1];
      LastWinsKeys(init);
      assert forall i :: 0 <= i < |init| ==> init[i] == ps[i];
    }
  }
}
