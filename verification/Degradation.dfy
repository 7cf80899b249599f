/** Which workers of a fleet are degraded: the cut at the largest multiplicative gap
    between durations. The specification reads the fleet as a map; the program sorts. */
module Degradation {
  import opened Common

  const FACTOR: real := 2.0

  datatype Timing = Timing(worker: string, seconds: real)

  type Fleet = map<string, real>

  datatype Split = Split(healthy: set<string>, degraded: set<string>)

  // ----- the specification -----

  /** Two neighbouring durations of the fleet; a reading of zero or less starts no gap. */
  ghost predicate Gap(fleet: Fleet, a: real, b: real) {
    0.0 < a < b && a in fleet.Values && b in fleet.Values && forall c :: c in fleet.Values ==> !(a < c < b)
  }

  function Ratio(a: real, b: real): real
    requires a > 0.0
  {
    b / a
  }

  /** The widest gap, the lowest of them, when it is wide enough. */
  ghost predicate IsCut(fleet: Fleet, a: real, b: real) {
    && Gap(fleet, a, b) && Ratio(a, b) >= FACTOR
    && forall c, d :: Gap(fleet, c, d) ==> Ratio(c, d) <= Ratio(a, b) && (Ratio(c, d) == Ratio(a, b) ==> a <= c)
  }

  function SplitAt(fleet: Fleet, a: real): Split {
    Split(set w | w in fleet && fleet[w] <= a, set w | w in fleet && fleet[w] > a)
  }

  ghost function SplitOf(fleet: Fleet): Split {
    if a, b :| IsCut(fleet, a, b) then SplitAt(fleet, a) else Split(fleet.Keys, {})
  }

  lemma CutIsUnique(fleet: Fleet, a: real, b: real, c: real, d: real)
    requires IsCut(fleet, a, b) && IsCut(fleet, c, d)
    ensures a == c && b == d
  {
    assert Gap(fleet, a, b) && Gap(fleet, c, d);
  }

  lemma CutSplits(fleet: Fleet, a: real, b: real)
    requires IsCut(fleet, a, b)
    ensures SplitOf(fleet) == SplitAt(fleet, a)
  {
    forall c, d | IsCut(fleet, c, d) ensures a == c { CutIsUnique(fleet, a, b, c, d); }
  }

  lemma NoCutNoSplit(fleet: Fleet)
    requires forall a, b :: !IsCut(fleet, a, b)
    ensures SplitOf(fleet) == Split(fleet.Keys, {})
  {}

  /** The two groups cover the fleet, do not overlap, and every degraded duration is
      at least twice every healthy one. */
  lemma DegradedAreTwiceAsSlow(fleet: Fleet)
    ensures var s := SplitOf(fleet);
      && s.healthy + s.degraded == fleet.Keys && s.healthy !! s.degraded
      && (fleet.Keys != {} ==> s.healthy != {})
      && forall h, d :: h in s.healthy && d in s.degraded ==> fleet[d] >= FACTOR * fleet[h]
  {
    if a, b :| IsCut(fleet, a, b) {
      CutSplits(fleet, a, b);
      var w :| w in fleet && fleet[w] == a;
      assert w in SplitOf(fleet).healthy;
      RatioMeans(a, b, FACTOR);
      forall h, d | h in fleet && d in fleet && fleet[h] <= a && fleet[d] > a
        ensures fleet[d] >= FACTOR * fleet[h]
      {
        assert fleet[d] in fleet.Values;
      }
    }
  }

  lemma RatioMeans(a: real, b: real, k: real)
    requires a > 0.0
    ensures Ratio(a, b) >= k <==> b >= k * a
  {
    assert b == Ratio(a, b) * a;
  }

  // ----- scaling -----

  /** Keeps order, sign and ratios. */
  ghost predicate Similar(f: real -> real) {
    && (forall x, y :: x < y <==> f(x) < f(y))
    && (forall x :: x > 0.0 <==> f(x) > 0.0)
    && forall x, y :: x > 0.0 && f(x) > 0.0 ==> Ratio(f(x), f(y)) == Ratio(x, y)
  }

  function Mapped(fleet: Fleet, f: real -> real): Fleet { map w | w in fleet :: f(fleet[w]) }

  lemma InMapped(fleet: Fleet, f: real -> real, x: real)
    requires Similar(f)
    ensures f(x) in Mapped(fleet, f).Values <==> x in fleet.Values
  {
    var more := Mapped(fleet, f);
    if x in fleet.Values {
      var w :| w in fleet && fleet[w] == x;
      assert more[w] == f(x);
    }
    if f(x) in more.Values {
      var w :| w in more && more[w] == f(x);
      assert !(fleet[w] < x) && !(x < fleet[w]);
    }
  }

  lemma GapMaps(fleet: Fleet, f: real -> real, a: real, b: real)
    requires Similar(f)
    ensures Gap(Mapped(fleet, f), f(a), f(b)) <==> Gap(fleet, a, b)
  {
    InMapped(fleet, f, a);
    InMapped(fleet, f, b);
    if Gap(fleet, a, b) {
      forall y | y in Mapped(fleet, f).Values ensures !(f(a) < y < f(b)) {
        var w :| w in fleet && f(fleet[w]) == y;
        var x := fleet[w];
        assert x in fleet.Values && !(a < x < b);
        assert (f(a) < f(x) <==> a < x) && (f(x) < f(b) <==> x < b);
      }
    }
    if Gap(Mapped(fleet, f), f(a), f(b)) {
      forall x | x in fleet.Values ensures !(a < x < b) { InMapped(fleet, f, x); }
    }
  }

  lemma MappedGaps(fleet: Fleet, f: real -> real, c: real, d: real) returns (a: real, b: real)
    requires Similar(f) && Gap(Mapped(fleet, f), c, d)
    ensures c == f(a) && d == f(b) && Gap(fleet, a, b)
  {
    var v :| v in fleet && f(fleet[v]) == c;
    var w :| w in fleet && f(fleet[w]) == d;
    a, b := fleet[v], fleet[w];
    GapMaps(fleet, f, a, b);
  }

  lemma CutMaps(fleet: Fleet, f: real -> real, a: real, b: real)
    requires Similar(f)
    ensures IsCut(Mapped(fleet, f), f(a), f(b)) <==> IsCut(fleet, a, b)
  {
    GapMaps(fleet, f, a, b);
    if IsCut(fleet, a, b) {
      forall c, d | Gap(Mapped(fleet, f), c, d)
        ensures Ratio(c, d) <= Ratio(f(a), f(b)) && (Ratio(c, d) == Ratio(f(a), f(b)) ==> f(a) <= c)
      {
        var x, y := MappedGaps(fleet, f, c, d);
      }
    }
    if IsCut(Mapped(fleet, f), f(a), f(b)) {
      forall x, y | Gap(fleet, x, y)
        ensures Ratio(x, y) <= Ratio(a, b) && (Ratio(x, y) == Ratio(a, b) ==> a <= x)
      {
        GapMaps(fleet, f, x, y);
      }
    }
  }

  lemma SplitMaps(fleet: Fleet, f: real -> real, a: real)
    requires Similar(f)
    ensures SplitAt(Mapped(fleet, f), f(a)) == SplitAt(fleet, a)
  {
    var more := Mapped(fleet, f);
    forall w | w in fleet ensures fleet[w] > a <==> more[w] > f(a) { assert more[w] == f(fleet[w]); }
  }

  lemma NoCutMaps(fleet: Fleet, f: real -> real, c: real, d: real)
    requires Similar(f) && IsCut(Mapped(fleet, f), c, d)
    ensures exists a, b :: IsCut(fleet, a, b)
  {
    var a, b := MappedGaps(fleet, f, c, d);
    CutMaps(fleet, f, a, b);
  }

  lemma SimilarKeepsSplit(fleet: Fleet, f: real -> real)
    requires Similar(f)
    ensures SplitOf(Mapped(fleet, f)) == SplitOf(fleet)
  {
    var more := Mapped(fleet, f);
    if a, b :| IsCut(fleet, a, b) {
      CutMaps(fleet, f, a, b);
      CutSplits(fleet, a, b);
      CutSplits(more, f(a), f(b));
      SplitMaps(fleet, f, a);
    } else {
      forall c, d ensures !IsCut(more, c, d) { if IsCut(more, c, d) { NoCutMaps(fleet, f, c, d); } }
    }
  }

  lemma ProductRatio(k: real, x: real, y: real)
    requires k > 0.0 && x > 0.0
    ensures k * x > 0.0 && Ratio(k * x, k * y) == Ratio(x, y)
  {
    var r := y / x;
    assert r * x == y;
    assert r * (k * x) == k * y;
  }

  lemma ProductOrder(k: real, x: real, y: real)
    requires k > 0.0
    ensures x < y <==> k * x < k * y
  {
    if x < y { assert k * (y - x) > 0.0; } else { assert k * (x - y) >= 0.0; }
  }

  function Times(k: real): real -> real { x => k * x }

  lemma TimesSimilar(k: real)
    requires k > 0.0
    ensures Similar(Times(k))
  {
    var f := Times(k);
    forall x, y ensures x < y <==> f(x) < f(y) { ProductOrder(k, x, y); }
    forall x ensures x > 0.0 <==> f(x) > 0.0 { ProductOrder(k, 0.0, x); }
    forall x, y | x > 0.0 && f(x) > 0.0 ensures Ratio(f(x), f(y)) == Ratio(x, y) { ProductRatio(k, x, y); assert f(x) == k * x && f(y) == k * y; }
  }

  /** Measuring in other units changes nothing. */
  lemma ScalingKeepsSplit(fleet: Fleet, k: real)
    requires k > 0.0
    ensures SplitOf(Mapped(fleet, Times(k))) == SplitOf(fleet)
  {
    TimesSimilar(k);
    SimilarKeepsSplit(fleet, Times(k));
  }

  // ----- recognising two groups -----

  /** All durations of a group lie in a positive band. */
  predicate Band(fleet: Fleet, group: set<string>, lo: real, hi: real) {
    group <= fleet.Keys && 0.0 < lo <= hi && forall w :: w in group ==> lo <= fleet[w] <= hi
  }

  /** A quotient in a band is at most the band's. */
  lemma RatioInBand(lo: real, hi: real, a: real, b: real)
    requires 0.0 < lo <= a && b <= hi
    ensures b > 0.0 ==> Ratio(a, b) <= Ratio(lo, hi)
  {
    if b > 0.0 {
      var r := hi / lo;
      assert r * lo == hi;
      var q := b / a;
      assert q * a == b;
      if q > r { assert q * a > r * a >= r * lo; }
    }
  }

  /** For two non-empty groups in bands, the quotient between the bands at least the
      factor and above both bands' own: the split is exactly these groups. */
  lemma TwoGroupsRecognised(fleet: Fleet, slow: set<string>, l0: real, h0: real, l1: real, h1: real)
    requires var fast := fleet.Keys - slow;
      fast != {} && slow != {} && Band(fleet, fast, l0, h0) && Band(fleet, slow, l1, h1) && h0 < l1
    requires Ratio(h0, l1) >= FACTOR && Ratio(h0, l1) > Ratio(l0, h0) && Ratio(h0, l1) > Ratio(l1, h1)
    ensures SplitOf(fleet) == Split(fleet.Keys - slow, slow)
  {
    var fast := fleet.Keys - slow;
    var a := Largest(fleet, fast);
    var b := Smallest(fleet, slow);
    var x :| x in fast && fleet[x] == a;
    var y :| y in slow && fleet[y] == b;
    assert a in fleet.Values && b in fleet.Values;
    assert Gap(fleet, a, b);
    RatioInBand(a, b, h0, l1);
    forall c, d | Gap(fleet, c, d)
      ensures Ratio(c, d) <= Ratio(a, b) && (Ratio(c, d) == Ratio(a, b) ==> a <= c)
    {
      var v :| v in fleet && fleet[v] == c;
      var w :| w in fleet && fleet[w] == d;
      if w in fast { RatioInBand(l0, h0, c, d); }
      else if v in slow { RatioInBand(l1, h1, c, d); }
    }
    assert IsCut(fleet, a, b);
    CutSplits(fleet, a, b);
    assert forall w | w in fleet :: fleet[w] <= a <==> w in fast;
  }

  lemma {:induction false} Largest(fleet: Fleet, group: set<string>) returns (m: real)
    requires group != {} && group <= fleet.Keys
    ensures (exists w :: w in group && fleet[w] == m) && forall w :: w in group ==> fleet[w] <= m
    decreases |group|
  {
    var w :| w in group;
    m := fleet[w];
    if group - {w} == {} {
      forall v | v in group ensures v == w { assert v !in group - {w}; }
    } else {
      var rest := Largest(fleet, group - {w});
      if rest > m { m := rest; }
    }
  }

  lemma {:induction false} Smallest(fleet: Fleet, group: set<string>) returns (m: real)
    requires group != {} && group <= fleet.Keys
    ensures (exists w :: w in group && fleet[w] == m) && forall w :: w in group ==> m <= fleet[w]
    decreases |group|
  {
    var w :| w in group;
    m := fleet[w];
    if group - {w} == {} {
      forall v | v in group ensures v == w { assert v !in group - {w}; }
    } else {
      var rest := Smallest(fleet, group - {w});
      if rest < m { m := rest; }
    }
  }

  /** A fleet within one band narrower than the factor has nothing degraded. */
  lemma OneBandIsHealthy(fleet: Fleet, lo: real, hi: real)
    requires Band(fleet, fleet.Keys, lo, hi) && Ratio(lo, hi) < FACTOR
    ensures SplitOf(fleet) == Split(fleet.Keys, {})
  {
    forall a, b ensures !IsCut(fleet, a, b) {
      if Gap(fleet, a, b) {
        var v :| v in fleet && fleet[v] == a;
        var w :| w in fleet && fleet[w] == b;
        RatioInBand(lo, hi, a, b);
      }
    }
    NoCutNoSplit(fleet);
  }
}
