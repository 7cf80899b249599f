/** The masker object: masking passes append spans, restoring puts them back. */
module Maskers {
  import opened Masking
  import opened Restoring

  /** After `i` cuts: the spans stored, and the text made so far. */
  ghost predicate Along(cuts: seq<Cut>, last: Doc, before: seq<string>, i: nat, spans: seq<string>, text: string) {
    && i <= |cuts|
    && spans == before + Rendered(Takes(cuts))[..i]
    && text + Render(Masked(cuts[i..], last, |spans|)) == Render(Masked(cuts, last, |before|))
  }

  lemma AlongStarts(cuts: seq<Cut>, last: Doc, before: seq<string>)
    ensures Along(cuts, last, before, 0, before, "")
  {
    assert cuts[0..] == cuts;
  }

  lemma AlongEnds(cuts: seq<Cut>, last: Doc, before: seq<string>, spans: seq<string>, text: string)
    requires Along(cuts, last, before, |cuts|, spans, text)
    ensures spans == before + Rendered(Takes(cuts))
    ensures text + Render(last) == Render(Masked(cuts, last, |before|))
  {
    assert cuts[|cuts|..] == [];
    assert Rendered(Takes(cuts))[..|cuts|] == Rendered(Takes(cuts));
  }

  lemma AlongSteps(cuts: seq<Cut>, last: Doc, before: seq<string>, i: nat, spans: seq<string>, text: string)
    requires Along(cuts, last, before, i, spans, text) && i < |cuts|
    ensures Along(cuts, last, before, i + 1, spans + [Render(cuts[i].take)], text + (Render(cuts[i].keep) + KeyText(|spans|)))
  {
    var c, more := cuts[i], Masked(cuts[i + 1..], last, |spans| + 1);
    assert cuts[i..][0] == c && cuts[i..][1..] == cuts[i + 1..];
    RenderJoin(c.keep, Hole("", |spans|, more));
    assert Render(Hole("", |spans|, more)) == KeyText(|spans|) + Render(more);
    SpanStep(before, Takes(cuts), i);
    Reassociate(text, Render(c.keep), KeyText(|spans|), Render(more));
  }

  lemma Reassociate(a: string, b: string, c: string, d: string)
    ensures a + (b + (c + d)) == (a + (b + c)) + d
  {}

  lemma SpanStep(spans: seq<string>, held: seq<Doc>, i: nat)
    requires i < |held|
    ensures (spans + Rendered(held)[..i]) + [Render(held[i])] == spans + Rendered(held)[..i + 1]
  {}

  lemma RenderedJoins(a: seq<Doc>, b: seq<Doc>)
    ensures Rendered(a + b) == Rendered(a) + Rendered(b)
  {}

  class Masker {
    var spans: seq<string>        // the text behind placeholder i
    ghost var held: seq<Doc>      // the same text, with its own placeholders told apart

    ghost predicate Valid()
      reads this
    {
      Layered(held) && spans == Rendered(held)
    }

    constructor ()
      ensures Valid() && held == []
    {
      spans, held := [], [];
    }

    /** `re.sub` with a callback that stores each match. */
    method Substitute(cuts: seq<Cut>, last: Doc) returns (text: string)
      modifies this`spans
      ensures spans == old(spans) + Rendered(Takes(cuts))
      ensures text == Render(Masked(cuts, last, |old(spans)|))
    {
      text := "";
      AlongStarts(cuts, last, spans);
      for i := 0 to |cuts|
        invariant Along(cuts, last, old(spans), i, spans, text)
      {
        AlongSteps(cuts, last, old(spans), i, spans, text);
        text := text + (Render(cuts[i].keep) + KeyText(|spans|));
        spans := spans + [Render(cuts[i].take)];
      }
      AlongEnds(cuts, last, old(spans), spans, text);
      text := text + Render(last);
    }

    /** One masking pass: the cuts are the matches, in order. */
    method Mask(cuts: seq<Cut>, last: Doc) returns (text: string)
      requires Valid() && Fits(cuts, last, |held|)
      modifies this
      ensures Valid() && held == old(held) + Takes(cuts)
      ensures text == Render(Masked(cuts, last, |old(held)|))
      ensures KeysBelow(Whole(cuts, last), |held|) && KeysBelow(Masked(cuts, last, |old(held)|), |held|)
      ensures Expand(held, |held|, Masked(cuts, last, |old(held)|)) == Expand(held, |held|, Whole(cuts, last))
    {
      ghost var start := |held|;
      TakesLayered(held, cuts, last);
      RenderedJoins(held, Takes(cuts));
      text := Substitute(cuts, last);
      held := held + Takes(cuts);
      MaskingKeeps(held, cuts, last, start);
    }

    /** Newest placeholders first, then the clean-up loop; `rounds` bounds the rounds
        the loop takes, whose end nothing else guarantees. */
    method Restore(masked: string, ghost rounds: nat) returns (text: string)
      requires Settles(spans, Backward(spans, masked, |spans|), rounds)
      ensures text == CleanedUp(spans, Backward(spans, masked, |spans|), rounds)
    {
      text := masked;
      var i := |spans|;
      while i > 0
        invariant 0 <= i <= |spans| && Backward(spans, text, i) == Backward(spans, masked, |spans|)
      {
        i := i - 1;
        text := Replace(text, KeyText(i), spans[i]);
      }
      text := CleanUp(text, rounds);
    }

    /** Repeats the forward pass while a NUL is left and the text still changes. */
    method CleanUp(masked: string, ghost rounds: nat) returns (text: string)
      requires Settles(spans, masked, rounds)
      ensures text == CleanedUp(spans, masked, rounds)
      ensures NUL !in text || Forward(spans, text, 0) == text
    {
      text := masked;
      ghost var left: nat := rounds;
      while NUL in text
        invariant Settles(spans, text, left) && CleanedUp(spans, text, left) == CleanedUp(spans, masked, rounds)
        decreases left
      {
        var before := text;
        text := ForwardPass(text);
        if text == before { break; }
        left := left - 1;
      }
    }

    method ForwardPass(masked: string) returns (text: string)
      ensures text == Forward(spans, masked, 0)
    {
      text := masked;
      for i := 0 to |spans|
        invariant Forward(spans, text, i) == Forward(spans, masked, 0)
      {
        text := Replace(text, KeyText(i), spans[i]);
      }
    }
  }

  // ----- any number of passes -----

  datatype Pass = Pass(cuts: seq<Cut>, last: Doc)

  /** Each pass cuts up the text the pass before it left. */
  predicate Chain(held: seq<Doc>, d: Doc, passes: seq<Pass>)
    decreases |passes|
  {
    passes != [] ==>
      && Fits(passes[0].cuts, passes[0].last, |held|)
      && Whole(passes[0].cuts, passes[0].last) == d
      && Chain(held + Takes(passes[0].cuts), Masked(passes[0].cuts, passes[0].last, |held|), passes[1..])
  }

  function Spans(held: seq<Doc>, passes: seq<Pass>): seq<Doc>
    decreases |passes|
  {
    if passes == [] then held else Spans(held + Takes(passes[0].cuts), passes[1..])
  }

  function Text(held: seq<Doc>, d: Doc, passes: seq<Pass>): Doc
    decreases |passes|
  {
    if passes == [] then d
    else Text(held + Takes(passes[0].cuts), Masked(passes[0].cuts, passes[0].last, |held|), passes[1..])
  }

  lemma PassKeeps(held: seq<Doc>, p: Pass)
    requires Layered(held) && Fits(p.cuts, p.last, |held|)
    ensures var d, grown, e := Whole(p.cuts, p.last), held + Takes(p.cuts), Masked(p.cuts, p.last, |held|);
      && Layered(grown) && KeysBelow(d, |held|) && KeysBelow(e, |grown|) && Clean(e)
      && Expand(grown, |grown|, e) == Expand(held, |held|, d)
  {
    var d, grown := Whole(p.cuts, p.last), held + Takes(p.cuts);
    TakesLayered(held, p.cuts, p.last);
    WholeFits(p.cuts, p.last, |held|);
    MaskingKeeps(grown, p.cuts, p.last, |held|);
    ExpandGrown(held, Takes(p.cuts), |held|, d);
    ExpandBound(grown, |held|, |grown|, d);
  }

  /** After any sequence of passes over nested spans the text still stands for the original. */
  lemma {:induction false} PassesKeep(held: seq<Doc>, d: Doc, passes: seq<Pass>)
    requires Layered(held) && KeysBelow(d, |held|) && Clean(d) && Chain(held, d, passes)
    ensures var h, e := Spans(held, passes), Text(held, d, passes);
      Layered(h) && KeysBelow(e, |h|) && Clean(e) && Expand(h, |h|, e) == Expand(held, |held|, d)
    decreases |passes|
  {
    if passes != [] {
      var p := passes[0];
      PassKeeps(held, p);
      PassesKeep(held + Takes(p.cuts), Masked(p.cuts, p.last, |held|), passes[1..]);
    }
  }

  /** Every match begins and ends with a character that is no digit. */
  predicate GuardedPasses(passes: seq<Pass>) {
    forall i, j :: 0 <= i < |passes| && 0 <= j < |passes[i].cuts| ==> Guarded(passes[i].cuts[j].take)
  }

  lemma {:induction false} SpansGuarded(held: seq<Doc>, passes: seq<Pass>)
    requires AllGuarded(held) && GuardedPasses(passes)
    ensures AllGuarded(Spans(held, passes))
    decreases |passes|
  {
    if passes != [] {
      var grown, rest := held + Takes(passes[0].cuts), passes[1..];
      forall i, j | 0 <= i < |rest| && 0 <= j < |rest[i].cuts|
        ensures Guarded(rest[i].cuts[j].take)
      {
        assert rest[i] == passes[i + 1];
      }
      SpansGuarded(grown, rest);
    }
  }

  /** Masking a NUL-free query any number of times and restoring gives the query back
      if and only if the masked text is readable; then no clean-up is needed. */
  lemma MaskingUndone(query: string, passes: seq<Pass>, rounds: nat)
    requires NUL !in query && Chain([], Tail(query), passes) && GuardedPasses(passes)
    ensures var h, e := Spans([], passes), Text([], Tail(query), passes);
      Layered(h) && KeysBelow(e, |h|) && Expand(h, |h|, e) == query
    ensures var h, e := Spans([], passes), Text([], Tail(query), passes);
      var spans := Rendered(h);
      var back := Backward(spans, Render(e), |h|);
      && (Readable(h, |h|, e) ==> Settles(spans, back, 0))
      && (Settles(spans, back, rounds) ==> (CleanedUp(spans, back, rounds) == query <==> Readable(h, |h|, e)))
  {
    PassesKeep([], Tail(query), passes);
    SpansGuarded([], passes);
    var h, e := Spans([], passes), Text([], Tail(query), passes);
    RestoredExactly(h, e, rounds);
    RestoredExactly(h, e, 0);
  }

  // ----- one pass over the string literals -----

  /** A match with plain text in front of it. */
  predicate Literal(c: Cut) {
    c.keep.Tail? && c.take.Tail? && Clean(c.keep) && Clean(c.take) && Guarded(c.take)
  }

  predicate Literals(cuts: seq<Cut>) { forall c :: c in cuts ==> Literal(c) }

  /** No number stands alone between two literals that is the index of the second of
      them or of a later literal; `next` is the index of the first. */
  predicate NumbersApart(cuts: seq<Cut>, next: nat) {
    |cuts| > 1 ==> IsNoNumber(cuts[1].keep.raw, next + 1, next + |cuts|) && NumbersApart(cuts[1..], next + 1)
  }

  lemma {:induction false} OnePassReadable(held: seq<Doc>, cuts: seq<Cut>, last: string, next: nat)
    requires Layered(held) && next + |cuts| == |held| && Literals(cuts)
    requires forall i :: 0 <= i < |cuts| ==> held[next + i] == cuts[i].take
    ensures KeysBelow(Masked(cuts, Tail(last), next), |held|)
    ensures Readable(held, |held|, Masked(cuts, Tail(last), next)) <==> NumbersApart(cuts, next)
  {
    if cuts != [] {
      var rest := cuts[1..];
      assert cuts[0] in cuts && held[next] == cuts[0].take;
      forall i | 0 <= i < |rest|
        ensures held[next + 1 + i] == rest[i].take
      {
        assert held[next + (i + 1)] == cuts[i + 1].take;
      }
      OnePassReadable(held, rest, last, next + 1);
      FirstHole(cuts, last, next);
      if |cuts| > 1 {
        assert rest[0] == cuts[1] && rest[0] in cuts;
        FirstHole(rest, last, next + 1);
      }
    }
  }

  lemma FirstHole(cuts: seq<Cut>, last: string, next: nat)
    requires cuts != [] && Literal(cuts[0])
    ensures Masked(cuts, Tail(last), next) == Hole(cuts[0].keep.raw, next, Masked(cuts[1..], Tail(last), next + 1))
  {}

  function Nuls(text: string): nat {
    if text == "" then 0 else (if text[0] == NUL then 1 else 0) + Nuls(text[1..])
  }

  lemma {:induction false} NulsJoin(a: string, b: string)
    ensures Nuls(a + b) == Nuls(a) + Nuls(b)
  {
    if a == "" {
      assert a + b == b;
    } else {
      NulsJoin(a[1..], b);
      assert (a + b)[1..] == a[1..] + b;
    }
  }

  lemma {:induction false} NoNuls(a: string)
    ensures Nuls(a) == 0 <==> NUL !in a
  {
    if a != "" { NoNuls(a[1..]); }
  }

  /** Putting back a plain span takes NULs away or changes nothing. */
  lemma {:induction false} ReplaceTakesNuls(text: string, key: nat, span: string)
    requires NUL !in span
    ensures var out := Replace(text, KeyText(key), span); out == text || Nuls(out) < Nuls(text)
  {
    var k := KeyText(key);
    if |text| < |k| {
    } else if text[..|k|] == k {
      var more := text[|k|..];
      ReplaceTakesNuls(more, key, span);
      NulsJoin(span, Replace(more, k, span));
      NoNuls(span);
      assert text == k + more && text[0] == NUL;
      NulsJoin(k, more);
      assert Nuls(k) > 0;
    } else {
      ReplaceTakesNuls(text[1..], key, span);
      var out := [text[0]] + Replace(text[1..], k, span);
      assert out[1..] == Replace(text[1..], k, span);
      assert text == [text[0]] + text[1..];
    }
  }

  predicate PlainSpans(spans: seq<string>) { forall i :: 0 <= i < |spans| ==> NUL !in spans[i] }

  lemma {:induction false} ForwardTakesNuls(spans: seq<string>, text: string, i: nat)
    requires i <= |spans| && PlainSpans(spans)
    ensures var out := Forward(spans, text, i); out == text || Nuls(out) < Nuls(text)
    decreases |spans| - i
  {
    if i < |spans| {
      ReplaceTakesNuls(text, i, spans[i]);
      ForwardTakesNuls(spans, Replace(text, KeyText(i), spans[i]), i + 1);
    }
  }

  /** With literals alone the clean-up loop ends on every text. */
  lemma {:induction false} PlainSpansSettle(spans: seq<string>, text: string, rounds: nat)
    requires PlainSpans(spans) && rounds >= Nuls(text)
    ensures Settles(spans, text, rounds)
    decreases rounds
  {
    if NUL in text {
      NoNuls(text);
      ForwardTakesNuls(spans, text, 0);
      if Forward(spans, text, 0) != text { PlainSpansSettle(spans, Forward(spans, text, 0), rounds - 1); }
    }
  }

  lemma LiteralsLayered(cuts: seq<Cut>, last: string)
    requires Literals(cuts) && NUL !in last
    ensures Layered(Takes(cuts)) && AllGuarded(Takes(cuts)) && PlainSpans(Rendered(Takes(cuts)))
    ensures Fits(cuts, Tail(last), 0)
  {
    var held := Takes(cuts);
    TakesLayered([], cuts, Tail(last));
    assert [] + held == held;
    forall i | 0 <= i < |held|
      ensures Guarded(held[i]) && held[i].Tail? && Clean(held[i])
    {
      assert cuts[i] in cuts;
    }
  }

  lemma LiteralsMasked(cuts: seq<Cut>, last: string)
    requires Literals(cuts) && NUL !in last
    ensures var held, masked := Takes(cuts), Masked(cuts, Tail(last), 0);
      && Layered(held) && Clean(masked) && KeysBelow(masked, |held|)
      && Expand(held, |held|, masked) == Render(Whole(cuts, Tail(last)))
      && (Readable(held, |held|, masked) <==> NumbersApart(cuts, 0))
  {
    var held := Takes(cuts);
    LiteralsLayered(cuts, last);
    MaskingKeeps(held, cuts, Tail(last), 0);
    OnePassReadable(held, cuts, last, 0);
    WholePlain(held, cuts, last);
  }

  /** One pass over the literals of any query, then restoring: the loop ends, and the
      query is back if and only if its numbers keep apart from its literals. */
  lemma LiteralsRestored(cuts: seq<Cut>, last: string)
    requires Literals(cuts) && NUL !in last
    ensures var spans := Rendered(Takes(cuts));
      var back := Backward(spans, Render(Masked(cuts, Tail(last), 0)), |cuts|);
      && Settles(spans, back, Nuls(back))
      && (CleanedUp(spans, back, Nuls(back)) == Render(Whole(cuts, Tail(last))) <==> NumbersApart(cuts, 0))
  {
    var spans, masked := Rendered(Takes(cuts)), Masked(cuts, Tail(last), 0);
    var back := Backward(spans, Render(masked), |cuts|);
    LiteralsLayered(cuts, last);
    LiteralsMasked(cuts, last);
    PlainSpansSettle(spans, back, Nuls(back));
    RestoredExactly(Takes(cuts), masked, Nuls(back));
  }

  lemma {:induction false} WholePlain(held: seq<Doc>, cuts: seq<Cut>, last: string)
    requires Literals(cuts) && Layered(held)
    ensures Whole(cuts, Tail(last)).Tail? && Expand(held, |held|, Whole(cuts, Tail(last))) == Render(Whole(cuts, Tail(last)))
  {
    if cuts != [] {
      assert cuts[0] in cuts;
      WholePlain(held, cuts[1..], last);
    }
  }

  // ----- where it fails -----

  /** Opening placeholder 1 finds the digit between the two placeholders first. */
  lemma DigitsMisread(span: string)
    ensures Replace([NUL, '0', NUL, '1', NUL, '1', NUL], KeyText(1), span) == [NUL, '0'] + (span + ['1', NUL])
  {
    var key := KeyText(1);
    assert Digits(1) == ['1'] && key == [NUL, '1', NUL];
    var text := [NUL, '0', NUL, '1', NUL, '1', NUL];
    var second := ['0', NUL, '1', NUL, '1', NUL];
    var third := [NUL, '1', NUL, '1', NUL];
    assert text[1..] == second && second[1..] == third;
    assert text[..3][1] != key[1] && second[..3][0] != key[0];
    NoMatch(text, key, span);
    NoMatch(second, key, span);
    assert third[..3] == key && third[3..] == ['1', NUL];
    assert Replace(third, key, span) == span + Replace(['1', NUL], key, span);
  }

  function LostFirst(b: string): string { [NUL] + ((['0'] + b + ['1']) + ([NUL] + "")) }

  /** A guarded text between two NULs is no key. */
  lemma NothingToOpen(b: string, key: nat, span: string)
    requires NUL !in b && !AllDigits(b) && NUL !in span
    ensures Replace(LostFirst(b), KeyText(key), span) == LostFirst(b)
  {
    var middle := ['0'] + b + ['1'];
    var p := Nul("", Nul(middle, Last("")));
    NotDigits(['0'], b, ['1']);
    ReplaceSwaps(p, key, Tail(span));
    assert Swap(p, key, Tail(span)) == p;
    assert Flat(p.rest) == middle + ([NUL] + "");
    assert "" + ([NUL] + Flat(p.rest)) == LostFirst(b);
  }

  lemma TwoLiterals(a: string, b: string)
    ensures var cuts := [Cut(Tail(""), Tail(a)), Cut(Tail("1"), Tail(b))];
      && Render(Whole(cuts, Tail(""))) == a + (['1'] + b)
      && Render(Masked(cuts, Tail(""), 0)) == [NUL, '0', NUL, '1', NUL, '1', NUL]
  {
    var cuts := [Cut(Tail(""), Tail(a)), Cut(Tail("1"), Tail(b))];
    assert Digits(0) == ['0'] && Digits(1) == ['1'];
    assert cuts[1..] == [cuts[1]] && cuts[1..][1..] == [];
    assert Masked(cuts[1..], Tail(""), 1) == Hole("1", 1, Tail(""));
    assert Masked(cuts, Tail(""), 0) == Hole("", 0, Hole("1", 1, Tail("")));
    assert Whole(cuts[1..], Tail("")) == Tail(['1'] + b);
    assert Whole(cuts, Tail("")) == Tail(a + (['1'] + b));
    assert Render(Hole("1", 1, Tail(""))) == ['1', NUL, '1', NUL];
  }

  /** A query with the number 1 alone between its first two literals comes back with
      the first literal lost: its number stays and the second literal is in its place. */
  lemma DigitsBetweenBreakRestoring(a: string, b: string)
    requires Clean(Tail(a)) && Clean(Tail(b)) && Guarded(Tail(b))
    ensures var cuts := [Cut(Tail(""), Tail(a)), Cut(Tail("1"), Tail(b))];
      var back := Backward([a, b], Render(Masked(cuts, Tail(""), 0)), 2);
      && Settles([a, b], back, 1)
      && CleanedUp([a, b], back, 1) == LostFirst(b) != Render(Whole(cuts, Tail("")))
  {
    TwoLiterals(a, b);
    FirstLost(a, b);
    assert NUL !in a + (['1'] + b) && LostFirst(b)[0] == NUL;
  }

  lemma FirstLost(a: string, b: string)
    requires NUL !in a && NUL !in b && Guarded(Tail(b))
    ensures var masked := [NUL, '0', NUL, '1', NUL, '1', NUL];
      var out := Backward([a, b], masked, 2);
      out == LostFirst(b) && Settles([a, b], out, 1) && CleanedUp([a, b], out, 1) == out
  {
    DigitsMisread(b);
    assert [NUL, '0'] + (b + ['1', NUL]) == LostFirst(b);
    NothingToOpen(b, 0, a);
    NothingToOpen(b, 1, b);
    NothingMoves([a, b], LostFirst(b));
  }

  lemma NothingMoves(spans: seq<string>, text: string)
    requires |spans| == 2
    requires Replace(text, KeyText(0), spans[0]) == text && Replace(text, KeyText(1), spans[1]) == text
    ensures Settles(spans, text, 1) && CleanedUp(spans, text, 1) == text
    ensures Backward(spans, text, 1) == text
  {
    assert Forward(spans, text, 1) == Forward(spans, text, 2);
    assert Backward(spans, text, 0) == text;
  }
}
