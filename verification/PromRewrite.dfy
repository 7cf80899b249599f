/** The text rewriter as a whole: what it returns for every query of the
    fragment, and what a second rewrite does. */
module PromRewrite {
  import opened Common
  import opened QueryTokens
  import opened PromPasses
  import opened PromChunks

  lemma {:induction false} EditsCompose(scope: Scope, ps: Phrases)
    ensures EditAll(Add(scope), EditAll(CutTrailing, EditAll(CutLeading, EditAll(Remove(Labels(scope)), ps))))
         == EditAll(Rescope(scope), ps)
    ensures AllTidied(EditAll(CutTrailing, EditAll(CutLeading, EditAll(Remove(Labels(scope)), ps))))
  {
    if ps.Cons? {
      EditsCompose(scope, ps.tail);
      if ps.head.Sel? && ps.head.body.Some? {
        TrimTidied(StripBody(Labels(scope), ps.head.body.value));
      }
    }
  }

  lemma TrimTidied(b: Body)
    ensures Tidied(DropTrailing(EatComma(b)))
  {
    NoTrailingLeft(EatComma(b));
  }

  lemma NoTrailingLeft(b: Body)
    ensures NoTrailing(DropTrailing(b))
  {}

  /** All the passes together, on every query of the fragment: each label set
      loses its scope matchers and gains the scope in front, each bare metric gains
      a label set, and nothing else in the text changes. */
  lemma RewriteRefines(given: Scope, ps: Phrases)
    requires Linked(ps) && LabelNames(Effective(given))
    ensures InjectScope(Print(ps), given)
         == if Effective(given) == [] then Print(ps) else Print(ScopePhrases(Effective(given), ps))
  {
    var scope := Effective(given);
    if ps.Cons? && scope != [] {
      assert Print(ps).Cons?;
      StripAllOver(scope, ps);
      var p1 := EditAll(Remove(Labels(scope)), ps);
      EditLinked(Remove(Labels(scope)), ps);
      TidyOpenOver(p1);
      var p2 := EditAll(CutLeading, p1);
      EditLinked(CutLeading, p1);
      TidyCloseOver(p2);
      var p3 := EditAll(CutTrailing, p2);
      EditLinked(CutTrailing, p2);
      TidyPairsOver(p3);
      MaskGroupsOver(p3);
      EditsCompose(scope, ps);
      AddToBracesOver(scope, p3);
      var p4 := EditAll(Add(scope), p3);
      EditLinked(Add(scope), p3);
      MaskBracesOver(p4);
      AddToBareOver(scope, p4);
    }
  }

  // ----- rewriting twice -----

  lemma {:induction false} StripPrepended(scope: Scope, gone: set<string>, b: Body)
    requires Labels(scope) <= gone && Tidied(b)
    ensures StripBody(gone, Prepend(scope, b)) == StripBody(gone, b)
    ensures StripBody(gone, WithComma(Prepend(scope, b))) == StripBody(gone, if scope == [] then WithComma(b) else b)
  {
    if scope != [] {
      StripPrepended(scope[1..], gone, b);
      assert EatComma(WithComma(b)) == b;
      var rest := WithComma(Prepend(scope[1..], b));
      assert EatComma(rest) == Prepend(scope[1..], b) by { PrependTidied(scope[1..], b); }
      assert scope[0].name in gone;
    }
  }

  lemma {:induction false} PrependTidied(scope: Scope, b: Body)
    requires Tidied(b)
    ensures Tidied(Prepend(scope, b))
  {
    if scope != [] { PrependTidied(scope[1..], b); }
  }

  /** A stripped label set has nothing left to strip. */
  lemma {:induction false} StripStable(gone: set<string>, b: Body)
    ensures StripBody(gone, StripBody(gone, b)) == StripBody(gone, b)
  {
    StripTwice(gone, gone, b);
    assert gone + gone == gone;
  }

  lemma {:induction false} StripTrim(gone: set<string>, b: Body)
    ensures StripBody(gone, DropTrailing(b)) == DropTrailing(StripBody(gone, b))
    decreases BodySize(b)
  {
    if b.Item? {
      StripTrim(gone, b.rest);
      if b.m.name in gone {
        StripTrim(gone, EatComma(b.rest));
        DropThenEat(gone, b.rest);
      }
    }
  }

  lemma DropThenEat(gone: set<string>, b: Body)
    ensures EatComma(DropTrailing(b)) == DropTrailing(EatComma(b))
  {}

  /** The later scope decides, whatever was written before: no condition on the label set. */
  lemma RescopeTwice(s1: Scope, s2: Scope, b: Body)
    requires Labels(s1) == Labels(s2)
    ensures ScopeBody(s2, ScopeBody(s1, b)) == ScopeBody(s2, b)
  {
    var gone := Labels(s1);
    var core := DropTrailing(EatComma(StripBody(gone, b)));
    TrimTidied(StripBody(gone, b));
    StripPrepended(s1, gone, core);
    StripTrim(gone, EatComma(StripBody(gone, b)));
    StripEat(gone, StripBody(gone, b));
    StripStable(gone, b);
    assert StripBody(gone, core) == core;
    TrimStable(core);
  }

  lemma {:induction false} TrimStable(b: Body)
    requires Tidied(b)
    ensures DropTrailing(EatComma(b)) == b
  {
    TrimStableRest(b);
  }

  lemma TrimStableRest(b: Body)
    requires NoTrailing(b)
    ensures DropTrailing(b) == b
  {}

  lemma RescopeScopeOnly(s1: Scope, s2: Scope)
    requires Labels(s1) == Labels(s2)
    ensures ScopeBody(s2, Prepend(s1, End(false))) == Prepend(s2, End(false))
  {
    StripPrepended(s1, Labels(s2), End(false));
  }

  lemma {:induction false} ScopeTwice(s1: Scope, s2: Scope, ps: Phrases)
    requires Labels(s1) == Labels(s2)
    ensures ScopePhrases(s2, ScopePhrases(s1, ps)) == ScopePhrases(s2, ps)
  {
    if ps.Cons? {
      ScopeTwice(s1, s2, ps.tail);
      if ps.head.Sel? {
        if ps.head.body.Some? { RescopeTwice(s1, s2, ps.head.body.value); } else { RescopeScopeOnly(s1, s2); }
      }
    }
  }

  lemma {:induction false} FillLinked(scope: Scope, ps: Phrases)
    requires Linked(ps) && LabelNames(scope)
    ensures Linked(FillBare(scope, ps))
  {
    if ps.Cons? {
      FillLinked(scope, ps.tail);
      PrependGood(scope, End(false));
    }
  }

  /** Whatever scope a query was already rewritten under, the last rewrite decides. */
  lemma LastScopeWins(s1: Scope, s2: Scope, ps: Phrases)
    requires Linked(ps) && Labels(Effective(s1)) == Labels(Effective(s2)) && LabelNames(Effective(s1))
    ensures InjectScope(InjectScope(Print(ps), s1), s2) == InjectScope(Print(ps), s2)
  {
    var e1, e2 := Effective(s1), Effective(s2);
    NoLabels(e1);
    NoLabels(e2);
    SameNames(e1, e2);
    RewriteRefines(s1, ps);
    RewriteRefines(s2, ps);
    if e1 != [] {
      var once := ScopePhrases(e1, ps);
      EditLinked(Rescope(e1), ps);
      FillLinked(e1, EditAll(Rescope(e1), ps));
      RewriteRefines(s2, once);
      ScopeTwice(e1, e2, ps);
    }
  }

  lemma SameNames(s1: Scope, s2: Scope)
    requires Labels(s1) == Labels(s2) && LabelNames(s1)
    ensures LabelNames(s2)
  {
    forall b | b in s2 ensures LabelShaped(b.name) { assert b.name in Labels(s1); }
  }

  lemma NoLabels(scope: Scope)
    ensures Labels(scope) == {} <==> scope == []
  {
    if scope != [] { assert scope[0].name in Labels(scope); }
  }

  /** Rewriting an already rewritten query changes nothing. */
  lemma Idempotent(scope: Scope, ps: Phrases)
    requires Linked(ps) && LabelNames(Effective(scope))
    ensures InjectScope(InjectScope(Print(ps), scope), scope) == InjectScope(Print(ps), scope)
  {
    LastScopeWins(scope, scope, ps);
  }
}
