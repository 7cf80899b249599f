/** The recency wrapper: which rewritten queries it wraps, and what happens when a
    wrapped query is rewritten again. */
module PromRecency {
  import opened Common
  import opened QueryTokens
  import opened PromPasses
  import opened PromChunks
  import opened PromRewrite
  import opened PromTree
  import opened PromScope

  predicate NoBraces(s: string) { '{' !in s && '}' !in s }

  predicate FreeBody(b: Body) {
    b.Item? ==> NoBraces(b.m.value) && FreeBody(b.rest)
  }

  predicate PlainScope(scope: Scope) {
    forall b :: b in scope ==> NoBraces(b.value)
  }

  /** A lone name, or a name and one label set with no curly bracket in its values. */
  predicate BarePhrases(ps: Phrases) {
    && ps.Cons?
    && match ps.head
       case Keyword(_) =>
         ps.tail.Cons? ==> ps.tail.head.Sel? && ps.tail.head.metric.None? && ps.tail.tail.Nil?
                           && (ps.tail.head.body.Some? ==> FreeBody(ps.tail.head.body.value))
       case Sel(metric, body) => metric.Some? && ps.tail.Nil? && (body.Some? ==> FreeBody(body.value))
       case _ => false
  }

  lemma {:induction false} FreeIff(b: Body)
    ensures BraceFree(EmitBody(b, Nil)) <==> FreeBody(b)
  {
    if b.Item? {
      FreeIff(b.rest);
      var value := Cons(Str(b.m.value), EmitBody(b.rest, Nil));
      assert BraceFree(value) <==> NoBraces(b.m.value) && FreeBody(b.rest);
      var term := Cons(Word(b.m.name), Cons(Op(b.m.op), value));
      assert BraceFree(term) <==> BraceFree(value);
    } else if b.trailing {
      assert BraceFree(Cons(Comma, Nil));
    }
  }

  lemma PrintsHead(p: Phrase, tail: Phrases)
    requires Linked(Cons(p, tail))
    ensures var ts := Print(Cons(p, tail)); ts.Cons? && (ts.head.LBrace? <==> p.Sel? && p.metric.None?)
  {}

  lemma PrintsSomething(ps: Phrases)
    requires Linked(ps)
    ensures Print(ps).Nil? <==> ps.Nil?
    ensures Print(ps).Cons? && Print(ps).head.LBrace? <==> ps.Cons? && ps.head.Sel? && ps.head.metric.None?
  {
    if ps.Cons? { PrintsHead(ps.head, ps.tail); }
  }

  /** A name with one label set. */
  lemma BareWithBody(name: string, b: Body, tail: Phrases)
    requires Linked(tail)
    ensures IsBareSelector(Cons(Word(name), EmitBraces(b, Print(tail)))) <==> FreeBody(b) && tail.Nil?
  {
    BodySpan(b, Print(tail));
    FreeIff(b);
    PrintsSomething(tail);
  }

  /** A name with something else behind it. */
  lemma BareWithoutBody(name: string, tail: Phrases)
    requires Linked(tail) && (tail.Cons? ==> !(tail.head.Sel? && tail.head.metric.None?))
    ensures IsBareSelector(Cons(Word(name), Print(tail))) <==> tail.Nil?
  {
    PrintsSomething(tail);
  }

  lemma BareIff(ps: Phrases)
    requires Linked(ps)
    ensures IsBareSelector(Print(ps)) <==> BarePhrases(ps)
  {
    if ps.Cons? {
      var tail := ps.tail;
      match ps.head {
        case Mark(_) =>
        case Func(_) =>
        case Group(_, _, _) =>
        case Keyword(word) =>
          if tail.Cons? && tail.head.Sel? && tail.head.metric.None? {
            assert Print(tail) == EmitBraces(tail.head.body.value, Print(tail.tail));
            BareWithBody(word, tail.head.body.value, tail.tail);
          } else {
            BareWithoutBody(word, tail);
          }
        case Sel(metric, body) =>
          if metric.Some? {
            if body.Some? { BareWithBody(metric.value, body.value, tail); } else { BareWithoutBody(metric.value, tail); }
          }
      }
    }
  }

  // ----- the wrapper as phrases -----

  function Window(): Phrases {
    Cons(Mark(LBracket), Cons(Mark(Lit(WINDOW)), Cons(Mark(RBracket), Cons(Mark(RParen), Nil))))
  }

  function Wrap(ps: Phrases): Phrases { Cons(Func("last_over_time"), Append(ps, Window())) }

  lemma {:induction false} PrintAppend(ps: Phrases, qs: Phrases)
    ensures Print(Append(ps, qs)) == Append(Print(ps), Print(qs))
  {
    if ps.Cons? {
      PrintAppend(ps.tail, qs);
      var mid, rest := Print(ps.tail), Print(qs);
      match ps.head {
        case Mark(_) =>
        case Keyword(_) =>
        case Func(_) =>
          assert Append(Cons(LParen(false), mid), rest) == Cons(LParen(false), Append(mid, rest));
        case Group(word, far, names) =>
          AppendNames(names, Cons(RParen, mid), rest);
          var open := EmitNames(names, Cons(RParen, mid));
          assert Append(Cons(LParen(far), open), rest) == Cons(LParen(far), Append(open, rest));
        case Sel(metric, body) =>
          if body.Some? {
            AppendBody(body.value, Cons(RBrace, mid), rest);
            var braces := EmitBraces(body.value, mid);
            assert Append(braces, rest) == EmitBraces(body.value, Append(mid, rest));
          }
      }
    }
  }

  lemma PrintWindow()
    ensures Print(Window()) == Cons(LBracket, Cons(Lit(WINDOW), Cons(RBracket, Cons(RParen, Nil))))
  {
    assert Print(Cons(Mark(RParen), Nil)) == Cons(RParen, Nil);
    assert Print(Cons(Mark(RBracket), Cons(Mark(RParen), Nil))) == Cons(RBracket, Cons(RParen, Nil));
  }

  lemma WrapPrints(ps: Phrases)
    requires Linked(ps)
    ensures EnforceRecency(Print(ps)) == if BarePhrases(ps) then Print(Wrap(ps)) else Print(ps)
  {
    BareIff(ps);
    PrintAppend(ps, Window());
    PrintWindow();
  }

  lemma WrapperName()
    ensures LabelShaped("last_over_time") && !Grouping("last_over_time")
  {
    assert |Lower("last_over_time")| == 14;
  }

  lemma WindowGood()
    ensures Linked(Window())
  {
    assert Linked(Cons(Mark(RBracket), Cons(Mark(RParen), Nil)));
    assert NumberLike(WINDOW);
  }

  lemma {:induction false} WindowLinked(ps: Phrases)
    requires Linked(ps)
    ensures Linked(Append(ps, Window()))
  {
    if ps.Nil? { WindowGood(); } else { WindowLinked(ps.tail); }
  }

  lemma CalledGood(name: string, ps: Phrases)
    requires LabelShaped(name) && !Grouping(name) && Linked(ps)
    ensures Linked(Cons(Func(name), ps)) && !BarePhrases(Cons(Func(name), ps))
  {}

  lemma WrapLinked(ps: Phrases)
    requires Linked(ps)
    ensures Linked(Wrap(ps)) && !BarePhrases(Wrap(ps))
  {
    WrapperName();
    WindowLinked(ps);
    CalledGood("last_over_time", Append(ps, Window()));
  }

  lemma {:induction false} ScopeAppend(scope: Scope, ps: Phrases)
    ensures ScopePhrases(scope, Append(ps, Window())) == Append(ScopePhrases(scope, ps), Window())
  {
    if ps.Nil? {
      ScopeCons(scope, Mark(RBracket), Cons(Mark(RParen), Nil));
      ScopeCons(scope, Mark(Lit(WINDOW)), Cons(Mark(RBracket), Cons(Mark(RParen), Nil)));
      ScopeCons(scope, Mark(LBracket), Window().tail);
    } else {
      ScopeAppend(scope, ps.tail);
      ScopeCons(scope, ps.head, Append(ps.tail, Window()));
    }
  }

  lemma ScopeWrap(scope: Scope, ps: Phrases)
    ensures ScopePhrases(scope, Wrap(ps)) == Wrap(ScopePhrases(scope, ps))
  {
    ScopeAppend(scope, ps);
    ScopeCons(scope, Func("last_over_time"), Append(ps, Window()));
  }

  // ----- the last scope wins, wrapper included -----

  lemma {:induction false} FreePrepend(scope: Scope, b: Body)
    requires b.Item? ==> !b.comma
    ensures FreeBody(Prepend(scope, b)) <==> FreeBody(b) && PlainScope(scope)
  {
    if scope != [] {
      FreePrepend(scope[1..], b);
      assert FreeBody(WithComma(Prepend(scope[1..], b))) <==> FreeBody(Prepend(scope[1..], b));
      assert PlainScope(scope) <==> NoBraces(scope[0].value) && PlainScope(scope[1..]);
    }
  }

  lemma BareAcross(s1: Scope, s2: Scope, ps: Phrases)
    requires Labels(s1) == Labels(s2) && PlainScope(s2)
    requires BarePhrases(ScopePhrases(s1, ps))
    ensures BarePhrases(ScopePhrases(s2, ps))
  {
    ScopeCons(s1, ps.head, ps.tail);
    ScopeCons(s2, ps.head, ps.tail);
    BareBody(s1, s2, ps.head);
    if ps.tail.Cons? {
      ScopeCons(s1, ps.tail.head, ps.tail.tail);
      ScopeCons(s2, ps.tail.head, ps.tail.tail);
      BareBody(s1, s2, ps.tail.head);
    }
  }

  lemma BareBody(s1: Scope, s2: Scope, p: Phrase)
    requires Labels(s1) == Labels(s2) && PlainScope(s2)
    ensures p.Sel? ==>
      (FreeBody(ScopePhrase(s1, p).body.value) ==> FreeBody(ScopePhrase(s2, p).body.value))
  {
    if p.Sel? {
      var core := if p.body.Some? then DropTrailing(EatComma(StripBody(Labels(s1), p.body.value))) else End(false);
      if p.body.Some? { TrimTidied(StripBody(Labels(s1), p.body.value)); }
      FreePrepend(s1, core);
      FreePrepend(s2, core);
    }
  }

  lemma {:induction false} CountAppend(a: Tokens, b: Tokens)
    ensures Count(Append(a, b)) == Count(a) + Count(b)
  {
    if a.Cons? { CountAppend(a.tail, b); }
  }

  lemma WrapIsLonger(ps: Phrases)
    ensures Count(Print(Wrap(ps))) > Count(Print(ps))
  {
    PrintAppend(ps, Window());
    CountAppend(Print(ps), Print(Window()));
    assert Print(Wrap(ps)).tail.tail == Append(Print(ps), Print(Window()));
    assert Count(Print(Wrap(ps))) == 1 + Count(Print(Wrap(ps)).tail);
  }

  /** Rewriting for one scope and then for another gives what the second alone
      gives, wrapper included, exactly when the second alone wraps whatever the first
      wraps; it does when no value of its own holds a curly bracket. */
  lemma LastScopeWinsWrapped(s1: Scope, s2: Scope, ps: Phrases)
    requires Linked(ps) && Labels(Effective(s1)) == Labels(Effective(s2)) && LabelNames(Effective(s1))
    ensures RewriteQuery(RewriteQuery(Print(ps), s1), s2) == RewriteQuery(Print(ps), s2)
       <==> (BarePhrases(ScopePhrases(Effective(s1), ps)) ==> BarePhrases(ScopePhrases(Effective(s2), ps)))
    ensures PlainScope(Effective(s2)) ==> RewriteQuery(RewriteQuery(Print(ps), s1), s2) == RewriteQuery(Print(ps), s2)
  {
    var e1, e2 := Effective(s1), Effective(s2);
    NoLabels(e1);
    NoLabels(e2);
    SameNames(e1, e2);
    RewriteRefines(s1, ps);
    RewriteRefines(s2, ps);
    LastScopeWins(s1, s2, ps);
    if e1 == [] {
      WrapPrints(ps);
      WrapLinked(ps);
      WrapPrints(Wrap(ps));
    } else {
      var once, twice := ScopePhrases(e1, ps), ScopePhrases(e2, ps);
      EditLinked(Rescope(e1), ps);
      FillLinked(e1, EditAll(Rescope(e1), ps));
      EditLinked(Rescope(e2), ps);
      FillLinked(e2, EditAll(Rescope(e2), ps));
      WrapPrints(once);
      WrapPrints(twice);
      if BarePhrases(once) {
        if PlainScope(e2) { BareAcross(e1, e2, ps); }
        WrapIsLonger(twice);
        WrapLinked(once);
        WrapLinked(twice);
        RewriteRefines(s2, Wrap(once));
        ScopeWrap(e2, once);
        ScopeTwice(e1, e2, ps);
        WrapPrints(Wrap(twice));
      }
    }
  }

  // ----- on trees -----

  predicate FreeMatchers(ms: List<Matcher>) {
    ms.Cons? ==> NoBraces(ms.head.value) && FreeMatchers(ms.tail)
  }

  /** An instant selector on a named metric. */
  predicate IsInstant(e: Expr) {
    e.Select? && e.metric.Some? && e.range.None? && e.offset.None?
  }

  /** A number that is a word, alone: to the recency pattern it is a metric. */
  predicate IsLoneWord(e: Expr) { e.Number? && Infinite(e.text) }

  function Recent(e: Expr): Expr {
    if IsInstant(e) && FreeMatchers(OwnMatchers(e)) then
      Call("last_over_time", false, Cons(Sub(e.(range := Some(WINDOW))), Nil))
    else e
  }

  lemma {:induction false} FreeToBody(ms: List<Matcher>, comma: bool, trailing: bool)
    ensures FreeBody(ToBody(ms, comma, trailing)) <==> FreeMatchers(ms)
  {
    if ms.Cons? { FreeToBody(ms.tail, true, trailing); }
  }

  /** Anything longer than an instant selector does not look like one. */
  lemma {:induction false} BareTree(e: Expr, rest: Phrases)
    requires WellFormed(e) && (rest.Cons? ==> !(rest.head.Sel? && rest.head.metric.None?))
    ensures BarePhrases(Phrased(e, rest)) <==> rest.Nil? && ((IsInstant(e) && FreeMatchers(OwnMatchers(e))) || IsLoneWord(e))
    decreases e
  {
    match e {
      case Select(_, matchers, trailing, range, offset) =>
        if matchers.Some? { FreeToBody(matchers.value, false, trailing); }
      case Subquery(inner, _, _, _, _) => BareTree(inner, AfterSubquery(e, rest));
      case Binary(left, sym, asBool, on, many, right) =>
        BareTree(left, Operator(sym, Operand(asBool, on, many, Phrased(right, rest))));
      case _ =>
    }
  }

  lemma RecentWraps(q: Expr)
    requires IsInstant(q) && FreeMatchers(OwnMatchers(q))
    ensures Phrased(Recent(q), Nil) == Wrap(Phrased(q, Nil))
  {
    var ranged := q.(range := Some(WINDOW));
    var close: Phrases := Cons(Mark(RParen), Nil);
    assert Phrased(ranged, close) == Cons(Selector(q), Window());
    assert PhrasedArgs(Cons(Sub(ranged), Nil), close) == Phrased(ranged, close);
    assert Append(Phrased(q, Nil), Window()) == Cons(Selector(q), Append(Nil, Window()));
  }

  /** The query sent upstream is the printed scoped tree, restricted to live series when
      it is an instant selector and left alone otherwise, exactly when the query is not
      `Inf` or `NaN` alone, which gets the wrapper too. */
  lemma RewriteQueryIsScoped(e: Expr, given: Scope)
    requires WellFormed(e) && Effective(given) != [] && LabelNames(Effective(given))
    requires Rewritable(Labels(Effective(given)), e)
    ensures RewriteQuery(PrintExpr(e), given) == PrintExpr(Recent(Scoped(Effective(given), e))) <==> !IsLoneWord(e)
  {
    var q := Scoped(Effective(given), e);
    RewriteIsScoped(e, given);
    ScopedWellFormed(Effective(given), e);
    PrintsLinked(q, Nil);
    WrapPrints(Phrased(q, Nil));
    BareTree(q, Nil);
    if IsLoneWord(e) { WrapIsLonger(Phrased(q, Nil)); }
    else if BarePhrases(Phrased(q, Nil)) { RecentWraps(q); }
  }
  lemma {:induction false} ScopedWellFormed(scope: Scope, e: Expr)
    requires WellFormed(e) && LabelNames(scope)
    ensures WellFormed(Scoped(scope, e))
    decreases e, 0
  {
    match e {
      case Number(_) =>
      case Select(_, _, _, _, _) => KeptGood(scope, OwnMatchers(e));
      case Subquery(inner, _, _, _, _) => ScopedWellFormed(scope, inner);
      case Call(_, _, args) => ScopedArgsWellFormed(scope, args);
      case Aggregate(_, _, _, _, args) => ScopedArgsWellFormed(scope, args);
      case Binary(left, _, _, _, _, right) => ScopedWellFormed(scope, left); ScopedWellFormed(scope, right);
      case Negate(inner) => ScopedWellFormed(scope, inner);
      case Paren(_, inner) => ScopedWellFormed(scope, inner);
    }
  }

  lemma {:induction false} ScopedArgsWellFormed(scope: Scope, args: List<Arg>)
    requires WellFormedArgs(args) && LabelNames(scope)
    ensures WellFormedArgs(ScopedArgs(scope, args))
    decreases args, 1
  {
    if args.Cons? {
      ScopedArgsWellFormed(scope, args.tail);
      if args.head.Sub? { ScopedWellFormed(scope, args.head.e); }
    }
  }

  lemma KeptGood(scope: Scope, ms: List<Matcher>)
    requires GoodMatchers(ms) && LabelNames(scope)
    ensures GoodMatchers(ScopeMatchers(scope, Kept(Labels(scope), ms)))
  {
    KeptMatchersGood(Labels(scope), ms);
    AddedMatchersGood(scope, Kept(Labels(scope), ms));
  }

  lemma KeptMatchersGood(gone: set<string>, ms: List<Matcher>)
    requires GoodMatchers(ms)
    ensures GoodMatchers(Kept(gone, ms))
  {}

  lemma AddedMatchersGood(scope: Scope, ms: List<Matcher>)
    requires GoodMatchers(ms) && LabelNames(scope)
    ensures GoodMatchers(ScopeMatchers(scope, ms))
  {}
}
