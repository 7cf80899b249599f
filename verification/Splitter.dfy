/** `split_degraded` and `values_by_worker` as the program runs them. */
module Splitter {
  import opened Common
  import opened Degradation

  // ----- sorting -----

  predicate Distinct(items: seq<Timing>) {
    forall i, j :: 0 <= i < j < |items| ==> items[i].worker != items[j].worker
  }

  predicate Ordered(items: seq<Timing>) {
    forall i, j :: 0 <= i < j < |items| ==> items[i].seconds <= items[j].seconds
  }

  function Names(items: seq<Timing>): set<string> { set t | t in items :: t.worker }

  function FleetOf(items: seq<Timing>): Fleet
    requires Distinct(items)
  {
    map t | t in items :: t.worker := t.seconds
  }

  /** In front of the first entry that is not smaller: equal entries keep their order. */
  function Insert(t: Timing, items: seq<Timing>): seq<Timing> {
    if items == [] || t.seconds <= items[0].seconds then [t] + items else [items[0]] + Insert(t, items[1..])
  }

  function Sorted(items: seq<Timing>): seq<Timing> {
    if items == [] then [] else Insert(items[0], Sorted(items[1..]))
  }

  lemma {:induction false} InsertMembers(t: Timing, items: seq<Timing>)
    ensures var s := Insert(t, items); |s| == |items| + 1 && forall x :: x in s <==> x == t || x in items
  {
    if items != [] && t.seconds > items[0].seconds {
      InsertMembers(t, items[1..]);
      assert items == [items[0]] + items[1..];
    }
  }

  lemma {:induction false} InsertOrdered(t: Timing, items: seq<Timing>)
    requires Ordered(items)
    ensures Ordered(Insert(t, items))
  {
    if items != [] && t.seconds > items[0].seconds {
      InsertOrdered(t, items[1..]);
      InsertMembers(t, items[1..]);
      PutInFront(items[0], Insert(t, items[1..]));
    } else if items != [] {
      PutInFront(t, items);
    }
  }

  lemma PutInFront(t: Timing, items: seq<Timing>)
    requires Ordered(items) && forall x :: x in items ==> t.seconds <= x.seconds
    ensures Ordered([t] + items)
  {}

  lemma {:induction false} InsertDistinct(t: Timing, items: seq<Timing>)
    requires Distinct(items) && forall x :: x in items ==> x.worker != t.worker
    ensures Distinct(Insert(t, items))
  {
    if items != [] && t.seconds > items[0].seconds {
      var rest := Insert(t, items[1..]);
      InsertDistinct(t, items[1..]);
      InsertMembers(t, items[1..]);
      forall x | x in rest ensures x.worker != items[0].worker {
        if x != t { var k :| 0 <= k < |items| - 1 && items[1..][k] == x; assert items[k + 1] == x; }
      }
    }
  }

  lemma {:induction false} SortedMembers(items: seq<Timing>)
    ensures |Sorted(items)| == |items| && forall x :: x in Sorted(items) <==> x in items
  {
    if items != [] {
      SortedMembers(items[1..]);
      InsertMembers(items[0], Sorted(items[1..]));
      assert items == [items[0]] + items[1..];
    }
  }

  lemma {:induction false} SortedOrdered(items: seq<Timing>)
    ensures Ordered(Sorted(items))
  {
    if items != [] {
      SortedOrdered(items[1..]);
      InsertOrdered(items[0], Sorted(items[1..]));
    }
  }

  lemma {:induction false} SortedDistinct(items: seq<Timing>)
    requires Distinct(items)
    ensures Distinct(Sorted(items))
  {
    if items != [] {
      SortedDistinct(items[1..]);
      SortedMembers(items[1..]);
      InsertDistinct(items[0], Sorted(items[1..]));
    }
  }

  lemma NamesAreKeys(items: seq<Timing>)
    requires Distinct(items)
    ensures FleetOf(items).Keys == Names(items)
  {}

  /** The sorted listing is a listing of the same fleet. */
  lemma SortedLists(items: seq<Timing>)
    requires Distinct(items)
    ensures var s := Sorted(items); |s| == |items| && Ordered(s) && Distinct(s) && FleetOf(s) == FleetOf(items) && FleetOf(s).Keys == Names(items)
  {
    SortedMembers(items);
    SortedOrdered(items);
    SortedDistinct(items);
    NamesAreKeys(items);
  }

  // ----- the listing's neighbours are the fleet's gaps -----

  lemma ListedValues(items: seq<Timing>, x: real)
    requires Distinct(items)
    ensures x in FleetOf(items).Values <==> exists k :: 0 <= k < |items| && items[k].seconds == x
  {
    var fleet := FleetOf(items);
    if x in fleet.Values {
      var w :| w in fleet && fleet[w] == x;
      var t :| t in items && t.worker == w;
    }
    if k :| 0 <= k < |items| && items[k].seconds == x {
      assert items[k] in items && fleet[items[k].worker] == x;
    }
  }

  lemma NeighboursGap(items: seq<Timing>, i: nat)
    requires Distinct(items) && Ordered(items) && i + 1 < |items| && 0.0 < items[i].seconds < items[i + 1].seconds
    ensures Gap(FleetOf(items), items[i].seconds, items[i + 1].seconds)
  {
    var a, b := items[i].seconds, items[i + 1].seconds;
    ListedValues(items, a);
    ListedValues(items, b);
    forall c | c in FleetOf(items).Values ensures !(a < c < b) {
      ListedValues(items, c);
      var k :| 0 <= k < |items| && items[k].seconds == c;
      assert k <= i || i + 1 <= k;
    }
  }

  lemma IndexOf(items: seq<Timing>, x: real) returns (k: nat)
    requires Distinct(items) && x in FleetOf(items).Values
    ensures k < |items| && items[k].seconds == x
  {
    ListedValues(items, x);
    k :| 0 <= k < |items| && items[k].seconds == x;
  }

  lemma NotInGap(items: seq<Timing>, a: real, b: real, j: nat)
    requires Distinct(items) && Gap(FleetOf(items), a, b) && j < |items|
    ensures !(a < items[j].seconds < b)
  {
    ListedValues(items, items[j].seconds);
  }

  lemma GapNeighbours(items: seq<Timing>, a: real, b: real) returns (i: nat)
    requires Distinct(items) && Ordered(items) && Gap(FleetOf(items), a, b)
    ensures i + 1 < |items| && items[i].seconds == a && items[i + 1].seconds == b
  {
    var k := IndexOf(items, a);
    var m := IndexOf(items, b);
    forall j | 0 <= j < |items| ensures !(a < items[j].seconds < b) { NotInGap(items, a, b, j); }
    i := Climb(items, a, b, k, m);
  }

  lemma {:induction false} Climb(items: seq<Timing>, a: real, b: real, k: nat, m: nat) returns (i: nat)
    requires Ordered(items) && k < |items| && m < |items| && items[k].seconds == a < b == items[m].seconds
    requires forall j :: 0 <= j < |items| ==> !(a < items[j].seconds < b)
    ensures i + 1 < |items| && items[i].seconds == a && items[i + 1].seconds == b
    decreases |items| - k
  {
    assert k < m;
    if items[k + 1].seconds == a { i := Climb(items, a, b, k + 1, m); } else { i := k; assert !(a < items[k + 1].seconds < b); }
  }

  // ----- the program -----

  /** The cut the scan over the first `k` neighbours remembers. */
  ghost predicate Best(ordered: seq<Timing>, k: nat, best: real, at: Option<nat>)
    requires k < |ordered|
  {
    && (at.None? ==> best == 1.0)
    && (at.Some? ==>
          && at.value < k && ordered[at.value].seconds > 0.0
          && best == Ratio(ordered[at.value].seconds, ordered[at.value + 1].seconds) > 1.0)
    && forall j :: 0 <= j < k ==> NotBetter(ordered, j, best, at)
  }

  predicate NotBetter(ordered: seq<Timing>, j: nat, best: real, at: Option<nat>)
    requires j + 1 < |ordered|
  {
    ordered[j].seconds > 0.0 ==>
      var r := Ratio(ordered[j].seconds, ordered[j + 1].seconds);
      r <= best && (at.Some? && j < at.value ==> r < best)
  }

  lemma AboveOne(a: real, b: real)
    requires a > 0.0
    ensures a < b <==> Ratio(a, b) > 1.0
  {
    assert Ratio(a, b) * a == b;
  }

  /** No gap of the fleet beats the remembered one. */
  lemma BestBeatsGaps(ordered: seq<Timing>, best: real, at: Option<nat>, c: real, d: real)
    requires Distinct(ordered) && Ordered(ordered) && |ordered| > 0 && Best(ordered, |ordered| - 1, best, at)
    requires Gap(FleetOf(ordered), c, d)
    ensures Ratio(c, d) <= best && (at.Some? && Ratio(c, d) == best ==> ordered[at.value].seconds <= c)
  {
    var j := GapNeighbours(ordered, c, d);
    assert NotBetter(ordered, j, best, at);
    AboveOne(c, d);
    if at.Some? && j > at.value { assert ordered[at.value].seconds <= ordered[j].seconds; }
  }

  lemma BestIsCut(ordered: seq<Timing>, best: real, at: Option<nat>)
    requires Distinct(ordered) && Ordered(ordered) && |ordered| > 0 && Best(ordered, |ordered| - 1, best, at)
    ensures at.Some? && best >= FACTOR ==> IsCut(FleetOf(ordered), ordered[at.value].seconds, ordered[at.value + 1].seconds)
    ensures at.None? || best < FACTOR ==> SplitOf(FleetOf(ordered)) == Split(FleetOf(ordered).Keys, {})
  {
    var fleet := FleetOf(ordered);
    forall c, d | Gap(fleet, c, d)
      ensures Ratio(c, d) <= best && (at.Some? && Ratio(c, d) == best ==> ordered[at.value].seconds <= c)
    { BestBeatsGaps(ordered, best, at, c, d); }
    if at.Some? && best >= FACTOR {
      AboveOne(ordered[at.value].seconds, ordered[at.value + 1].seconds);
      NeighboursGap(ordered, at.value);
    } else {
      forall a, b ensures !IsCut(fleet, a, b) { assert Gap(fleet, a, b) ==> Ratio(a, b) <= best; }
      NoCutNoSplit(fleet);
    }
  }

  lemma FrontNames(ordered: seq<Timing>, i: nat, w: string)
    requires Distinct(ordered) && Ordered(ordered) && i + 1 < |ordered| && ordered[i].seconds < ordered[i + 1].seconds
    ensures w in Names(ordered[..i + 1]) <==> w in FleetOf(ordered) && FleetOf(ordered)[w] <= ordered[i].seconds
  {
    if t :| t in ordered[..i + 1] && t.worker == w {
      var k :| 0 <= k < i + 1 && ordered[..i + 1][k] == t;
      assert ordered[k] == t;
    }
    if w in FleetOf(ordered) && FleetOf(ordered)[w] <= ordered[i].seconds {
      var t :| t in ordered && t.worker == w;
      var k :| 0 <= k < |ordered| && ordered[k] == t;
      assert ordered[..i + 1][k] == t;
    }
  }

  lemma BackNames(ordered: seq<Timing>, i: nat, w: string)
    requires Distinct(ordered) && Ordered(ordered) && i + 1 < |ordered| && ordered[i].seconds < ordered[i + 1].seconds
    ensures w in Names(ordered[i + 1..]) <==> w in FleetOf(ordered) && FleetOf(ordered)[w] > ordered[i].seconds
  {
    if t :| t in ordered[i + 1..] && t.worker == w {
      var k :| 0 <= k < |ordered| - i - 1 && ordered[i + 1..][k] == t;
      assert ordered[k + i + 1] == t;
    }
    if w in FleetOf(ordered) && FleetOf(ordered)[w] > ordered[i].seconds {
      var t :| t in ordered && t.worker == w;
      var k :| 0 <= k < |ordered| && ordered[k] == t;
      assert ordered[i + 1..][k - i - 1] == t;
    }
  }

  lemma SlicesAreSplit(ordered: seq<Timing>, i: nat)
    requires Distinct(ordered) && Ordered(ordered) && i + 1 < |ordered| && ordered[i].seconds < ordered[i + 1].seconds
    ensures SplitAt(FleetOf(ordered), ordered[i].seconds) == Split(Names(ordered[..i + 1]), Names(ordered[i + 1..]))
  {
    var s := SplitAt(FleetOf(ordered), ordered[i].seconds);
    forall w ensures w in s.healthy <==> w in Names(ordered[..i + 1]) { FrontNames(ordered, i, w); }
    forall w ensures w in s.degraded <==> w in Names(ordered[i + 1..]) { BackNames(ordered, i, w); }
  }

  /** What the remembered cut means for the fleet. */
  lemma CutGives(ordered: seq<Timing>, best: real, at: Option<nat>)
    requires Distinct(ordered) && Ordered(ordered) && |ordered| > 0 && Best(ordered, |ordered| - 1, best, at)
    ensures SplitOf(FleetOf(ordered)) == if at.None? || best < FACTOR then Split(FleetOf(ordered).Keys, {})
      else Split(Names(ordered[..at.value + 1]), Names(ordered[at.value + 1..]))
  {
    BestIsCut(ordered, best, at);
    if at.Some? && best >= FACTOR {
      var a, b := ordered[at.value].seconds, ordered[at.value + 1].seconds;
      CutSplits(FleetOf(ordered), a, b);
      SlicesAreSplit(ordered, at.value);
    }
  }

  /** The scan for the widest gap. */
  method FindCut(ordered: seq<Timing>) returns (best: real, at: Option<nat>)
    requires |ordered| > 0
    ensures Best(ordered, |ordered| - 1, best, at)
  {
    best, at := 1.0, None;
    for i := 0 to |ordered| - 1
      invariant Best(ordered, i, best, at)
    {
      var lower, upper := ordered[i].seconds, ordered[i + 1].seconds;
      if lower > 0.0 {
        var ratio := upper / lower;
        if ratio > best {
          forall j | 0 <= j < i ensures NotBetter(ordered, j, ratio, Some(i)) { assert NotBetter(ordered, j, best, at); }
          best, at := ratio, Some(i);
        }
      }
    }
  }

  /** Whatever order the dictionary lists its workers in, the result is the fleet's split. */
  method SplitDegraded(items: seq<Timing>) returns (r: Split)
    requires Distinct(items)
    ensures r == SplitOf(FleetOf(items))
  {
    if |items| < 2 {
      SingleHasNoCut(items);
      return Split(Names(items), {});
    }
    SortedLists(items);
    var ordered := Sorted(items);
    var best, at := FindCut(ordered);
    CutGives(ordered, best, at);
    if at.None? || best < FACTOR {
      return Split(Names(items), {});
    }
    var cut := at.value + 1;
    r := Split(Names(ordered[..cut]), Names(ordered[cut..]));
  }

  lemma SingleHasNoCut(items: seq<Timing>)
    requires Distinct(items) && |items| < 2
    ensures SplitOf(FleetOf(items)) == Split(Names(items), {})
  {
    NamesAreKeys(items);
    forall a, b ensures !IsCut(FleetOf(items), a, b) { ListedValues(items, a); ListedValues(items, b); }
    NoCutNoSplit(FleetOf(items));
  }

  /** Two listings of one fleet, in any orders, split alike. */
  method SplitBoth(items: seq<Timing>, others: seq<Timing>) returns (r: Split, q: Split)
    requires Distinct(items) && Distinct(others) && FleetOf(items) == FleetOf(others)
    ensures r == q
  {
    r := SplitDegraded(items);
    q := SplitDegraded(others);
  }
}
