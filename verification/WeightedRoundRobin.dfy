/**
 Smooth weighted round robin: how next moves the current weights, what a whole
 cycle does, and the ring of one cycle that Select walks around.
 */
module SmoothWeights {

  function Sum(s: seq<int>): int {
    if s == [] then 0 else Sum(s[..|s| - 1]) + s[|s| - 1]
  }

  /** f is the first place of the greatest entry, if some entry is positive, and 0 otherwise. */
  predicate FirstMax(v: seq<int>, f: nat) {
    && f < |v|
    && (|| (v[f] > 0 && (forall j :: 0 <= j < |v| ==> v[j] <= v[f]) && (forall j :: 0 <= j < f ==> v[j] < v[f]))
        || (f == 0 && forall j :: 0 <= j < |v| ==> v[j] <= 0))
  }

  lemma FirstMaxUnique(v: seq<int>, f: nat, f': nat)
    requires FirstMax(v, f) && FirstMax(v, f')
    ensures f == f'
  {
    assert v[f] <= v[f'] || v[f'] <= 0;
  }

  lemma {:induction false} FirstMaxExists(v: seq<int>) returns (f: nat)
    requires v != []
    ensures FirstMax(v, f)
  {
    var last := |v| - 1;
    f := 0;
    if last > 0 {
      f := FirstMaxExists(v[..last]);
      assert forall j :: 0 <= j < last ==> v[..last][j] == v[j];
      if v[last] > 0 && v[last] > v[f] { f := last; }
    }
  }

  ghost function Pick(v: seq<int>): (f: nat)
    requires v != []
    ensures FirstMax(v, f)
  {
    assert exists f :: FirstMax(v, f) by { var f := FirstMaxExists(v); }
    var f :| FirstMax(v, f);
    f
  }

  /** Every entry grows by its weight. */
  function Raised(w: seq<int>, cur: seq<int>): seq<int>
    requires |cur| == |w|
  {
    seq(|w|, i requires 0 <= i < |w| => cur[i] + w[i])
  }

  /** The entry picked pays the total. */
  function Paid(v: seq<int>, f: nat, total: int): (r: seq<int>)
    requires f < |v|
    ensures |r| == |v|
  {
    v[f := v[f] - total]
  }

  /** The current weights after one pick. */
  ghost function Step(w: seq<int>, cur: seq<int>): (r: seq<int>)
    requires |cur| == |w| > 0
  {
    Paid(Raised(w, cur), Pick(Raised(w, cur)), Sum(w))
  }

  function Zeros(n: nat): seq<int> {
    seq(n, _ => 0)
  }

  /** The current weights after t picks from zero, and the t-th pick. */
  ghost function Cur(w: seq<int>, t: nat): (r: seq<int>)
    requires w != []
    ensures |r| == |w|
  {
    if t == 0 then Zeros(|w|) else Step(w, Cur(w, t - 1))
  }

  ghost function PickAt(w: seq<int>, t: nat): (f: nat)
    requires w != []
    ensures f < |w|
  {
    Pick(Raised(w, Cur(w, t)))
  }

  /** How often i is picked among the first t. */
  ghost function Count(w: seq<int>, t: nat, i: nat): nat
    requires w != []
  {
    if t == 0 then 0 else Count(w, t - 1, i) + (if PickAt(w, t - 1) == i then 1 else 0)
  }

  // ---------------------------------------------------------------- sums

  lemma {:induction false} SumZeros(n: nat)
    ensures Sum(Zeros(n)) == 0
  {
    if n > 0 {
      assert Zeros(n)[..n - 1] == Zeros(n - 1);
      SumZeros(n - 1);
    }
  }

  lemma {:induction false} SumUpdate(s: seq<int>, i: nat, x: int)
    requires i < |s|
    ensures Sum(s[i := x]) == Sum(s) - s[i] + x
  {
    var last := |s| - 1;
    if i == last {
      assert s[i := x][..last] == s[..last];
    } else {
      assert s[i := x][..last] == s[..last][i := x];
      SumUpdate(s[..last], i, x);
    }
  }

  lemma {:induction false} SumRaised(w: seq<int>, cur: seq<int>)
    requires |cur| == |w|
    ensures Sum(Raised(w, cur)) == Sum(cur) + Sum(w)
  {
    if w != [] {
      var last := |w| - 1;
      assert Raised(w, cur)[..last] == Raised(w[..last], cur[..last]);
      SumRaised(w[..last], cur[..last]);
    }
  }

  lemma {:induction false} SumAtMost(s: seq<int>, b: int)
    requires forall i :: 0 <= i < |s| ==> s[i] <= b
    ensures Sum(s) <= |s| * b
  {
    if s != [] { SumAtMost(s[..|s| - 1], b); }
  }

  lemma {:induction false} SumAtLeast(s: seq<int>, b: int)
    requires forall i :: 0 <= i < |s| ==> b <= s[i]
    ensures |s| * b <= Sum(s)
  {
    if s != [] { SumAtLeast(s[..|s| - 1], b); }
  }

  lemma {:induction false} SumDominated(s: seq<int>, u: seq<int>)
    requires |s| == |u| && (forall i :: 0 <= i < |s| ==> s[i] <= u[i])
    ensures Sum(s) <= Sum(u)
    ensures Sum(s) == Sum(u) ==> s == u
  {
    if s != [] {
      var last := |s| - 1;
      SumDominated(s[..last], u[..last]);
      if Sum(s) == Sum(u) {
        assert s == s[..last] + [s[last]] && u == u[..last] + [u[last]];
      }
    }
  }

  ghost function Counts(w: seq<int>, t: nat): (r: seq<int>)
    requires w != []
  {
    seq(|w|, i requires 0 <= i < |w| => Count(w, t, i))
  }

  lemma CountsStep(w: seq<int>, t: nat)
    requires w != [] && t > 0
    ensures var f := PickAt(w, t - 1); Counts(w, t) == Counts(w, t - 1)[f := Counts(w, t - 1)[f] + 1]
  {
    forall i | 0 <= i < |w|
      ensures Count(w, t, i) == Count(w, t - 1, i) + (if PickAt(w, t - 1) == i then 1 else 0)
    {
    }
  }

  /** Every pick is counted once. */
  lemma {:induction false} CountsAddUp(w: seq<int>, t: nat)
    requires w != []
    ensures Sum(Counts(w, t)) == t
  {
    if t == 0 {
      assert Counts(w, 0) == Zeros(|w|);
      SumZeros(|w|);
    } else {
      CountsAddUp(w, t - 1);
      var f := PickAt(w, t - 1);
      CountsStep(w, t);
      SumUpdate(Counts(w, t - 1), f, Counts(w, t - 1)[f] + 1);
    }
  }

  // ---------------------------------------------------------------- the invariant of next

  lemma StepAt(w: seq<int>, cur: seq<int>, i: nat)
    requires |cur| == |w| && i < |w|
    ensures |Step(w, cur)| == |w|
    ensures Step(w, cur)[i] == cur[i] + w[i] - (if Pick(Raised(w, cur)) == i then Sum(w) else 0)
    ensures Sum(Step(w, cur)) == Sum(cur)
  {
    var v := Raised(w, cur);
    SumRaised(w, cur);
    SumUpdate(v, Pick(v), v[Pick(v)] - Sum(w));
  }

  /** The current weights add up to nothing, whatever the weights. */
  lemma {:induction false} CurSumsToZero(w: seq<int>, t: nat)
    requires w != []
    ensures Sum(Cur(w, t)) == 0
  {
    if t == 0 {
      SumZeros(|w|);
    } else {
      CurSumsToZero(w, t - 1);
      StepAt(w, Cur(w, t - 1), 0);
    }
  }

  /** A server's current weight is what it is owed: t times its weight less the picks it had.
      This holds for any weights, too. */
  lemma {:induction false} CurIsDebt(w: seq<int>, t: nat, i: nat)
    requires w != [] && i < |w|
    ensures Cur(w, t)[i] == t * w[i] - Sum(w) * Count(w, t, i)
  {
    if t > 0 {
      CurIsDebt(w, t - 1, i);
      StepAt(w, Cur(w, t - 1), i);
      DebtStep(t, w[i], Sum(w), Count(w, t - 1, i), PickAt(w, t - 1) == i);
    }
  }

  lemma DebtStep(t: nat, w: int, total: int, count: nat, picked: bool)
    requires t > 0
    ensures (t - 1) * w - total * count + w - (if picked then total else 0)
         == t * w - total * (count + (if picked then 1 else 0))
  {
  }

  ghost predicate Weights(w: seq<int>) {
    w != [] && (forall i :: 0 <= i < |w| ==> w[i] >= 0) && Sum(w) > 0
  }

  lemma PickIsPositive(v: seq<int>)
    requires v != [] && Sum(v) > 0
    ensures v[Pick(v)] > 0
  {
    if v[Pick(v)] <= 0 { SumAtMost(v, 0); }
  }

  lemma StepAbove(w: seq<int>, cur: seq<int>, i: nat)
    requires Weights(w) && |cur| == |w| && i < |w| && Sum(cur) == 0 && cur[i] > -Sum(w)
    ensures |Step(w, cur)| == |w| && Step(w, cur)[i] > -Sum(w)
  {
    SumRaised(w, cur);
    PickIsPositive(Raised(w, cur));
    StepAt(w, cur, i);
  }

  /** No server is ever a whole cycle behind. */
  lemma {:induction false} CurAbove(w: seq<int>, t: nat, i: nat)
    requires Weights(w) && i < |w|
    ensures Cur(w, t)[i] > -Sum(w)
  {
    if t > 0 {
      CurAbove(w, t - 1, i);
      CurSumsToZero(w, t - 1);
      StepAbove(w, Cur(w, t - 1), i);
    }
  }

  /** At every point no server runs a whole pick ahead of its fair share ... */
  lemma NeverAhead(w: seq<int>, t: nat, i: nat)
    requires Weights(w) && i < |w|
    ensures Count(w, t, i) * Sum(w) < t * w[i] + Sum(w)
  {
    CurAbove(w, t, i);
    CurIsDebt(w, t, i);
  }

  lemma OthersBound(c: seq<int>, i: nat, b: int)
    requires i < |c| && Sum(c) == 0 && (forall j :: 0 <= j < |c| ==> -b <= c[j])
    ensures c[i] <= (|c| - 1) * b
  {
    SumUpdate(c, i, -b);
    SumAtLeast(c[i := -b], -b);
    Spread(|c|, b, c[i]);
  }

  lemma Spread(n: nat, b: int, x: int)
    requires n * (-b) <= -x - b
    ensures x <= (n - 1) * b
  {
    assert n * (-b) == -(n * b) && (n - 1) * b == n * b - b;
  }

  lemma BehindBound(owed: int, total: int, count: nat, n: nat)
    requires n > 1 && total > 0 && owed - total * count <= (n - 1) * (total - 1)
    ensures owed < total * (count + n - 1)
  {
    assert (n - 1) * (total - 1) == (n - 1) * total - (n - 1);
    assert total * (count + (n - 1)) == total * count + (n - 1) * total;
  }

  /** ... and none is more than one pick per other server behind it. */
  lemma NeverFarBehind(w: seq<int>, t: nat, i: nat)
    requires Weights(w) && i < |w| && |w| > 1
    ensures t * w[i] < Sum(w) * (Count(w, t, i) + |w| - 1)
  {
    CurIsDebt(w, t, i);
    CurSumsToZero(w, t);
    forall j | 0 <= j < |w| ensures -(Sum(w) - 1) <= Cur(w, t)[j] { CurAbove(w, t, j); }
    OthersBound(Cur(w, t), i, Sum(w) - 1);
    BehindBound(t * w[i], Sum(w), Count(w, t, i), |w|);
  }

  /** A cycle of Sum(w) picks picks each server exactly its weight and ends where it began. */
  lemma CycleExact(w: seq<int>, i: nat)
    requires Weights(w) && i < |w|
    ensures Count(w, Sum(w), i) == w[i]
    ensures Cur(w, Sum(w)) == Zeros(|w|)
  {
    var total := Sum(w);
    forall j | 0 <= j < |w| ensures Count(w, total, j) <= w[j] {
      CurAbove(w, total, j);
      CurIsDebt(w, total, j);
      NoMoreThan(total, w[j], Count(w, total, j));
    }
    CountsAddUp(w, total);
    SumDominated(Counts(w, total), w);
    assert forall j :: 0 <= j < |w| ==> Counts(w, total)[j] == Count(w, total, j);
    forall j | 0 <= j < |w| ensures Cur(w, total)[j] == 0 { CurIsDebt(w, total, j); }
  }

  lemma NoMoreThan(total: int, w: int, count: nat)
    requires total > 0 && total * w - total * count > -total
    ensures count <= w
  {
    PositiveFactor(total, w - count + 1);
  }

  lemma PositiveFactor(a: int, b: int)
    requires a > 0 && a * b > 0
    ensures b > 0
  {
  }

  /** For a positive total, the cycle gives each server its weight exactly if no weight is negative. */
  lemma CycleExactIff(w: seq<int>)
    requires w != [] && Sum(w) > 0
    ensures (forall i :: 0 <= i < |w| ==> Count(w, Sum(w), i) == w[i]) <==> (forall i :: 0 <= i < |w| ==> w[i] >= 0)
  {
    if forall i :: 0 <= i < |w| ==> w[i] >= 0 {
      forall i | 0 <= i < |w| ensures Count(w, Sum(w), i) == w[i] { CycleExact(w, i); }
    } else {
      var i :| 0 <= i < |w| && w[i] < 0;
      assert Count(w, Sum(w), i) != w[i];
    }
  }
}

/** The selector object: its servers, the ring it built from them and its place in the ring. */
module WeightedSelector {
  import opened Wrappers
  import opened SmoothWeights

  datatype Weighted = Weighted(server: string, weight: int, currentWeight: int)

  /** What a Select comes to: a server, the empty string, or a nil dereference. */
  datatype Selection = Server(name: string) | NoServer | Panic

  function WeightsOf(ss: seq<Weighted>): (w: seq<int>)
    ensures |w| == |ss| && forall i :: 0 <= i < |ss| ==> w[i] == ss[i].weight
  {
    seq(|ss|, i requires 0 <= i < |ss| => ss[i].weight)
  }

  function CurrentOf(ss: seq<Weighted>): (c: seq<int>)
    ensures |c| == |ss| && forall i :: 0 <= i < |ss| ==> c[i] == ss[i].currentWeight
  {
    seq(|ss|, i requires 0 <= i < |ss| => ss[i].currentWeight)
  }

  function NamesOf(ss: seq<Weighted>): (n: seq<string>)
    ensures |n| == |ss| && forall i :: 0 <= i < |ss| ==> n[i] == ss[i].server
  {
    seq(|ss|, i requires 0 <= i < |ss| => ss[i].server)
  }

  predicate Distinct(names: seq<string>) {
    forall i, j :: 0 <= i < j < |names| ==> names[i] != names[j]
  }

  /** next on values: which server is picked and the current weights it leaves; a lone server is
      picked without looking at weights. */
  ghost function Choose(w: seq<int>, c: seq<int>): (f: nat)
    requires |c| == |w| > 0
    ensures f < |w|
  {
    if |w| == 1 then 0 else Pick(Raised(w, c))
  }

  ghost function Advanced(w: seq<int>, c: seq<int>): (c': seq<int>)
    requires |c| == |w| > 0
    ensures |c'| == |w|
  {
    if |w| == 1 then c else Step(w, c)
  }

  ghost function CurAfter(w: seq<int>, c: seq<int>, t: nat): (c': seq<int>)
    requires |c| == |w| > 0
    ensures |c'| == |w|
  {
    if t == 0 then c else Advanced(w, CurAfter(w, c, t - 1))
  }

  /** The names of the first t picks. */
  ghost function Picks(names: seq<string>, w: seq<int>, c: seq<int>, t: nat): (r: seq<string>)
    requires |names| == |c| == |w| > 0
    ensures |r| == t
  {
    if t == 0 then [] else Picks(names, w, c, t - 1) + [names[Choose(w, CurAfter(w, c, t - 1))]]
  }

  /** i picks from current weights c have made ring and left cur. */
  ghost predicate Progressed(names: seq<string>, w: seq<int>, c: seq<int>, i: nat, ring: seq<string>, cur: seq<int>) {
    |names| == |c| == |w| > 0 && ring == Picks(names, w, c, i) && cur == CurAfter(w, c, i)
  }

  /** The ring: one cycle of picks, or none if the total is not positive. */
  ghost function RingOf(names: seq<string>, w: seq<int>, c: seq<int>): (r: seq<string>)
    requires |names| == |c| == |w|
  {
    if Sum(w) <= 0 || w == [] then [] else Picks(names, w, c, Sum(w))
  }

  lemma ChooseIs(w: seq<int>, c: seq<int>)
    requires |c| == |w| > 1
    ensures var v := Raised(w, c); Choose(w, c) == Pick(v) && Advanced(w, c) == Paid(v, Pick(v), Sum(w))
  {
  }

  lemma PickIs(v: seq<int>, flag: nat)
    requires FirstMax(v, flag)
    ensures v != [] && Pick(v) == flag
  {
    FirstMaxUnique(v, flag, Pick(v));
  }

  lemma Lowered(ss: seq<Weighted>, f: nat, total: int)
    requires f < |ss|
    ensures var ss' := ss[f := ss[f].(currentWeight := ss[f].currentWeight - total)];
            && NamesOf(ss') == NamesOf(ss) && WeightsOf(ss') == WeightsOf(ss)
            && CurrentOf(ss') == Paid(CurrentOf(ss), f, total)
  {
  }

  class Selector {
    var servers: array<Weighted>
    var totalWeight: int
    var ring: seq<string>
    var pos: nat

    ghost predicate Valid()
      reads this
    {
      if ring == [] then pos == 0 else pos < |ring|
    }

    constructor (ss: array<Weighted>)
      modifies ss
      ensures Valid() && servers == ss && pos == 0
      ensures ring == RingOf(NamesOf(old(ss[..])), WeightsOf(old(ss[..])), CurrentOf(old(ss[..])))
      ensures NamesOf(ss[..]) == NamesOf(old(ss[..])) && WeightsOf(ss[..]) == WeightsOf(old(ss[..]))
    {
      servers, totalWeight, ring, pos := ss, 0, [], 0;
      new;
      BuildRing();
    }

    /** The loop of next: every current weight grows by its weight; the first greatest is found. */
    method Raise() returns (flag: nat)
      requires servers.Length > 0
      modifies servers
      ensures NamesOf(servers[..]) == NamesOf(old(servers[..])) && WeightsOf(servers[..]) == WeightsOf(old(servers[..]))
      ensures CurrentOf(servers[..]) == Raised(WeightsOf(servers[..]), CurrentOf(old(servers[..])))
      ensures FirstMax(CurrentOf(servers[..]), flag)
    {
      ghost var was := servers[..];
      var m := 0;
      flag := 0;
      for i := 0 to servers.Length
        invariant flag < servers.Length && m >= 0
        invariant forall j :: 0 <= j < i ==>
          servers[j] == was[j].(currentWeight := was[j].currentWeight + was[j].weight)
        invariant forall j :: i <= j < servers.Length ==> servers[j] == was[j]
        invariant forall j :: 0 <= j < i ==> servers[j].currentWeight <= m
        invariant if m == 0 then flag == 0 else flag < i && servers[flag].currentWeight == m
        invariant forall j :: 0 <= j < flag ==> servers[j].currentWeight < m
      {
        servers[i] := servers[i].(currentWeight := servers[i].currentWeight + servers[i].weight);
        if servers[i].currentWeight > m {
          m := servers[i].currentWeight;
          flag := i;
        }
      }
    }

    /** One pick of smooth weighted round robin; nil if there is no server. */
    method Next() returns (picked: Option<string>)
      requires totalWeight == Sum(WeightsOf(servers[..]))
      modifies servers
      ensures NamesOf(servers[..]) == NamesOf(old(servers[..])) && WeightsOf(servers[..]) == WeightsOf(old(servers[..]))
      ensures picked.None? <==> servers.Length == 0
      ensures servers.Length > 0 ==>
        && picked.value == NamesOf(servers[..])[Choose(WeightsOf(servers[..]), CurrentOf(old(servers[..])))]
        && CurrentOf(servers[..]) == Advanced(WeightsOf(servers[..]), CurrentOf(old(servers[..])))
    {
      if servers.Length == 0 { return None; }
      if servers.Length == 1 { return Some(servers[0].server); }
      var flag := Raise();
      PickIs(CurrentOf(servers[..]), flag);
      ChooseIs(WeightsOf(servers[..]), CurrentOf(old(servers[..])));
      Lower(flag);
      picked := Some(servers[flag].server);
    }

    /** The server picked pays the total. */
    method Lower(flag: nat)
      requires flag < servers.Length
      modifies servers
      ensures NamesOf(servers[..]) == NamesOf(old(servers[..])) && WeightsOf(servers[..]) == WeightsOf(old(servers[..]))
      ensures CurrentOf(servers[..]) == Paid(CurrentOf(old(servers[..])), flag, totalWeight)
    {
      ghost var raised := servers[..];
      servers[flag] := servers[flag].(currentWeight := servers[flag].currentWeight - totalWeight);
      Lowered(raised, flag, totalWeight);
      assert servers[..] == raised[flag := servers[flag]];
    }

    /** The sum of the weights. */
    method Total() returns (total: int)
      ensures total == Sum(WeightsOf(servers[..]))
    {
      ghost var w := WeightsOf(servers[..]);
      total := 0;
      for i := 0 to servers.Length
        invariant total == Sum(w[..i])
      {
        assert w[..i + 1][..i] == w[..i];
        total := total + servers[i].weight;
      }
      assert w[..servers.Length] == w;
    }

    /** Puts one pick into the ring. */
    method Place(ghost names: seq<string>, ghost w: seq<int>, ghost c: seq<int>)
      requires NamesOf(servers[..]) == names && WeightsOf(servers[..]) == w && totalWeight == Sum(w)
      requires Progressed(names, w, c, |ring|, ring, CurrentOf(servers[..]))
      modifies this`ring, servers
      ensures |ring| == old(|ring|) + 1
      ensures NamesOf(servers[..]) == names && WeightsOf(servers[..]) == w
      ensures Progressed(names, w, c, |ring|, ring, CurrentOf(servers[..]))
    {
      var n := Next();
      ring := ring + [n.value];
    }

    /** Fills a new ring with one cycle of picks; its last step leads back to its start. */
    method BuildRing()
      modifies this, servers
      ensures servers == old(servers) && totalWeight == Sum(WeightsOf(servers[..])) && pos == 0
      ensures NamesOf(servers[..]) == NamesOf(old(servers[..])) && WeightsOf(servers[..]) == WeightsOf(old(servers[..]))
      ensures ring == RingOf(NamesOf(servers[..]), WeightsOf(servers[..]), CurrentOf(old(servers[..])))
      ensures servers.Length > 0 ==>
                CurrentOf(servers[..]) == CurAfter(WeightsOf(servers[..]), CurrentOf(old(servers[..])), |ring|)
    {
      ghost var names, w, c := NamesOf(servers[..]), WeightsOf(servers[..]), CurrentOf(servers[..]);
      totalWeight := Total();
      ring, pos := [], 0;
      if servers.Length == 0 { return; }
      var i := 0;
      while i < totalWeight
        invariant i == |ring| && (i == 0 || i <= totalWeight)
        invariant servers == old(servers) && totalWeight == Sum(w) && pos == 0
        invariant NamesOf(servers[..]) == names && WeightsOf(servers[..]) == w
        invariant Progressed(names, w, c, |ring|, ring, CurrentOf(servers[..]))
      {
        Place(names, w, c);
        i := i + 1;
      }
    }

    method Select() returns (r: Selection)
      requires Valid()
      modifies this
      ensures Valid() && servers == old(servers) && totalWeight == old(totalWeight) && ring == old(ring)
      ensures r.NoServer? <==> servers.Length == 0
      ensures r.Panic? <==> servers.Length > 0 && ring == []
      ensures r.Server? ==> r.name == ring[old(pos)] && pos == (old(pos) + 1) % |ring|
      ensures !r.Server? ==> pos == old(pos)
    {
      if servers.Length == 0 { return NoServer; }
      if ring == [] { return Panic; }
      r := Server(ring[pos]);
      pos := (pos + 1) % |ring|;
    }

    /** The new list is installed, but the ring is the one of the list it replaces. */
    method UpdateServer(ss: array<Weighted>)
      requires Valid()
      modifies this, servers
      ensures Valid() && servers == ss && pos == 0
      ensures ring == RingOf(NamesOf(old(servers[..])), WeightsOf(old(servers[..])), CurrentOf(old(servers[..])))
    {
      BuildRing();
      servers := ss;
    }

    /** As many Selects as the ring has entries: one rotation of it, and back where they began. */
    method SelectCycle() returns (picked: seq<string>)
      requires Valid() && servers.Length > 0 && ring != []
      modifies this
      ensures Valid() && servers == old(servers) && ring == old(ring) && pos == old(pos)
      ensures picked == Rotation(ring, old(pos))
    {
      picked := [];
      for i := 0 to |ring|
        invariant Valid() && servers == old(servers) && ring == old(ring)
        invariant pos == (old(pos) + i) % |ring| && |picked| == i <= |ring|
        invariant forall k :: 0 <= k < i ==> picked[k] == ring[(old(pos) + k) % |ring|]
      {
        Wrap(old(pos) + i, |ring|);
        Wrap(old(pos) + i + 1, |ring|);
        Wrap(pos + 1, |ring|);
        var r := Select();
        picked := picked + [r.name];
      }
      Wrap(old(pos) + |ring|, |ring|);
    }

    /** A Select right after an update: it panics exactly if there are servers and the total weight of
        the list that was replaced is not positive, and otherwise serves that list. */
    method UpdateThenSelect(ss: array<Weighted>) returns (r: Selection)
      requires Valid()
      modifies this, servers
      ensures Valid() && servers == ss
      ensures r.NoServer? <==> ss.Length == 0
      ensures r.Panic? <==> ss.Length > 0 && Sum(WeightsOf(old(servers[..]))) <= 0
      ensures r.Server? ==> r.name in NamesOf(old(servers[..]))
    {
      ghost var names, w, c := NamesOf(servers[..]), WeightsOf(servers[..]), CurrentOf(servers[..]);
      RingServes(names, w, c);
      UpdateServer(ss);
      r := Select();
    }

    /** A list is served from the second update on: a Select after that panics exactly if there are
        servers and the list's own total weight is not positive, and otherwise serves it. */
    method UpdateTwiceThenSelect(ss: array<Weighted>, next: array<Weighted>) returns (r: Selection)
      requires Valid() && ss != servers
      modifies this, servers, ss
      ensures Valid() && servers == next
      ensures r.Panic? <==> next.Length > 0 && Sum(WeightsOf(old(ss[..]))) <= 0
      ensures r.Server? ==> r.name in NamesOf(old(ss[..]))
    {
      UpdateServer(ss);
      r := UpdateThenSelect(next);
    }
  }

  /** A ring is missing exactly if the total is not positive; it holds only the list's servers. */
  lemma RingServes(names: seq<string>, w: seq<int>, c: seq<int>)
    requires |names| == |w| == |c|
    ensures RingOf(names, w, c) == [] <==> Sum(w) <= 0
    ensures forall k :: 0 <= k < |RingOf(names, w, c)| ==> RingOf(names, w, c)[k] in names
  {
    if w != [] && Sum(w) > 0 { PicksAreNames(names, w, c, Sum(w)); }
  }

  lemma {:induction false} PicksAreNames(names: seq<string>, w: seq<int>, c: seq<int>, t: nat)
    requires |names| == |w| == |c| > 0
    ensures forall k :: 0 <= k < t ==> Picks(names, w, c, t)[k] in names
  {
    if t > 0 { PicksAreNames(names, w, c, t - 1); }
  }

  /** A selector that was made without servers dereferences nil at the first Select after an update. */
  method EmptyThenUpdated(name: string) returns (r: Selection)
    ensures r.Panic?
  {
    var none := new Weighted[0];
    var s := new Selector(none);
    var some := new Weighted[1](_ => Weighted(name, 1, 0));
    r := s.UpdateThenSelect(some);
  }

  // ---------------------------------------------------------------- a cycle of Selects

  /** What the next |ring| Selects return, starting at pos. */
  function Rotation(ring: seq<string>, pos: nat): (r: seq<string>)
    requires pos < |ring|
  {
    seq(|ring|, k requires 0 <= k => ring[(pos + k) % |ring|])
  }

  lemma RotationSplits(ring: seq<string>, pos: nat)
    requires pos < |ring|
    ensures Rotation(ring, pos) == ring[pos..] + ring[..pos]
  {
    forall k | 0 <= k < |ring| ensures Rotation(ring, pos)[k] == (ring[pos..] + ring[..pos])[k] {
      Wrap(pos + k, |ring|);
    }
  }

  lemma Wrap(x: nat, n: nat)
    requires 0 < n && x < 2 * n
    ensures x % n == if x < n then x else x - n
  {
  }

  lemma {:induction false} CurAfterZeros(w: seq<int>, t: nat)
    requires |w| > 1
    ensures CurAfter(w, Zeros(|w|), t) == Cur(w, t)
  {
    if t > 0 { CurAfterZeros(w, t - 1); }
  }

  lemma PicksStep(names: seq<string>, w: seq<int>, c: seq<int>, t: nat)
    requires |names| == |w| > 1 && c == Zeros(|w|)
    ensures Picks(names, w, c, t + 1) == Picks(names, w, c, t) + [names[PickAt(w, t)]]
  {
    CurAfterZeros(w, t);
  }

  lemma CountAppended(s: seq<string>, names: seq<string>, f: nat, i: nat)
    requires Distinct(names) && f < |names| && i < |names|
    ensures multiset(s + [names[f]])[names[i]] == multiset(s)[names[i]] + if f == i then 1 else 0
  {
  }

  /** ring grows by the name of each pick, count by one when i is picked. */
  ghost predicate Tallies(names: seq<string>, i: nat, pick: nat -> nat, ring: nat -> seq<string>, count: nat -> nat) {
    && ring(0) == [] && count(0) == 0
    && forall k: nat {:trigger pick(k)} ::
         && pick(k) < |names|
         && ring(k + 1) == ring(k) + [names[pick(k)]]
         && count(k + 1) == count(k) + if pick(k) == i then 1 else 0
  }

  lemma {:induction false} Tally(
    names: seq<string>, i: nat, pick: nat -> nat, ring: nat -> seq<string>, count: nat -> nat, t: nat)
    requires Distinct(names) && i < |names| && Tallies(names, i, pick, ring, count)
    ensures multiset(ring(t))[names[i]] == count(t)
  {
    if t > 0 {
      Tally(names, i, pick, ring, count, t - 1);
      assert pick(t - 1) < |names|;
      CountAppended(ring(t - 1), names, pick(t - 1), i);
    }
  }

  lemma PicksCount(names: seq<string>, w: seq<int>, t: nat, i: nat)
    requires Distinct(names) && |names| == |w| > 1 && i < |w|
    ensures multiset(Picks(names, w, Zeros(|w|), t))[names[i]] == Count(w, t, i)
  {
    var c := Zeros(|w|);
    var pick: nat -> nat := (k: nat) => PickAt(w, k);
    var ring: nat -> seq<string> := (k: nat) => Picks(names, w, c, k);
    var count: nat -> nat := (k: nat) => Count(w, k, i);
    forall k: nat ensures ring(k + 1) == ring(k) + [names[pick(k)]] { PicksStep(names, w, c, k); }
    Tally(names, i, pick, ring, count, t);
  }

  lemma {:induction false} LoneCounts(names: seq<string>, w: seq<int>, c: seq<int>, t: nat)
    requires |names| == |w| == |c| == 1
    ensures multiset(Picks(names, w, c, t))[names[0]] == t && CurAfter(w, c, t) == c
  {
    if t > 0 { LoneCounts(names, w, c, t - 1); }
  }

  /** The ring holds each server exactly as often as its weight, and leaves the current weights where
      it found them, so that the next ring is the same. */
  lemma RingExact(names: seq<string>, w: seq<int>, i: nat)
    requires Distinct(names) && |names| == |w| && Weights(w) && i < |w|
    ensures multiset(RingOf(names, w, Zeros(|w|)))[names[i]] == w[i]
    ensures CurAfter(w, Zeros(|w|), |RingOf(names, w, Zeros(|w|))|) == Zeros(|w|)
  {
    if |w| == 1 {
      assert Sum(w) == w[0] by { assert w[..0] == []; }
      LoneCounts(names, w, Zeros(1), Sum(w));
    } else {
      PicksCount(names, w, Sum(w), i);
      CurAfterZeros(w, Sum(w));
      CycleExact(w, i);
    }
  }

  /** Any Sum(w) consecutive Selects return each server exactly as often as its weight, wherever in
      the ring they start. */
  lemma AnyCycleIsExact(names: seq<string>, w: seq<int>, pos: nat, i: nat)
    requires Distinct(names) && |names| == |w| && Weights(w) && i < |w|
    requires pos < |RingOf(names, w, Zeros(|w|))|
    ensures multiset(Rotation(RingOf(names, w, Zeros(|w|)), pos))[names[i]] == w[i]
  {
    var ring := RingOf(names, w, Zeros(|w|));
    RotationSplits(ring, pos);
    assert ring == ring[..pos] + ring[pos..];
    RingExact(names, w, i);
  }

  /** The Selects themselves: a cycle of them on a ring built at rest returns each server exactly as
      often as its weight, wherever the selector stands, and leaves it there. */
  method ServeCycle(s: Selector, ghost names: seq<string>, ghost w: seq<int>) returns (picked: seq<string>)
    requires s.Valid() && s.servers.Length > 0 && Distinct(names) && |names| == |w| && Weights(w)
    requires s.ring == RingOf(names, w, Zeros(|w|))
    modifies s
    ensures forall i :: 0 <= i < |w| ==> multiset(picked)[names[i]] == w[i]
    ensures s.Valid() && s.ring == old(s.ring) && s.pos == old(s.pos)
  {
    RingServes(names, w, Zeros(|w|));
    picked := s.SelectCycle();
    forall i | 0 <= i < |w| ensures multiset(picked)[names[i]] == w[i] {
      AnyCycleIsExact(names, w, old(s.pos), i);
    }
  }

  /** A list at rest is served from the second update on, each of its servers exactly as often as its
      weight says. */
  method UpdateTwiceThenServe(s: Selector, ss: array<Weighted>, next: array<Weighted>) returns (picked: seq<string>)
    requires s.Valid() && ss != s.servers && next.Length > 0
    requires Distinct(NamesOf(ss[..])) && Weights(WeightsOf(ss[..])) && CurrentOf(ss[..]) == Zeros(ss.Length)
    modifies s, s.servers, ss
    ensures forall i :: 0 <= i < |old(ss[..])| ==> multiset(picked)[old(ss[i].server)] == old(ss[i].weight)
  {
    ghost var names, w := NamesOf(ss[..]), WeightsOf(ss[..]);
    s.UpdateServer(ss);
    s.UpdateServer(next);
    picked := ServeCycle(s, names, w);
  }
}
