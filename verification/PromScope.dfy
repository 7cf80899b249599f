/** The rewriter against the tree transformer: for which trees the text that
    comes out is the printed scoped tree, and what the recency wrapper adds. */
module PromScope {
  import opened Common
  import opened QueryTokens
  import opened PromPasses
  import opened PromChunks
  import opened PromRewrite
  import opened PromTree

  // ----- text that differs only in commas -----

  function BodyMatchers(b: Body): List<Matcher> {
    match b
    case End(_) => Nil
    case Item(_, m, rest) => Cons(m, BodyMatchers(rest))
  }

  predicate SamePhrase(p: Phrase, q: Phrase) {
    || p == q
    || (&& p.Sel? && q.Sel? && p.metric == q.metric && p.body.Some? && q.body.Some?
        && BodyMatchers(p.body.value) == BodyMatchers(q.body.value)
        && NoTrailing(p.body.value) && NoTrailing(q.body.value))
  }

  /** A bare name on one side that has got a label set on the other. */
  predicate Overread(p: Phrase, qs: Phrases) {
    && p.Sel? && p.metric.Some? && p.body.Some? && qs.Cons? && qs.head == Sel(p.metric, None)
    && (Print(qs.tail).Cons? ==> !Print(qs.tail).head.LBrace?)
  }

  predicate SameShape(ps: Phrases, qs: Phrases) {
    match ps
    case Nil => qs.Nil?
    case Cons(p, more) => qs.Cons? && (SamePhrase(p, qs.head) || Overread(p, qs)) && SameShape(more, qs.tail)
  }

  lemma {:induction false} BodyReadable(b: Body, c: Body, r: Tokens, s: Tokens)
    requires b == c || (BodyMatchers(b) == BodyMatchers(c) && NoTrailing(b) && NoTrailing(c))
    requires EmitBody(b, Cons(RBrace, r)) == EmitBody(c, Cons(RBrace, s))
    ensures b == c && r == s
  {
    if b.Item? {
      assert b.comma == c.comma;
      BodyReadable(b.rest, c.rest, r, s);
    }
  }

  lemma {:induction false} NamesReadable(names: seq<string>, r: Tokens, s: Tokens)
    requires EmitNames(names, r) == EmitNames(names, s)
    ensures r == s
  {
    if |names| > 1 { NamesReadable(names[1..], r, s); }
  }

  /** Two queries of one shape that print alike are the same query. */
  lemma {:induction false} ShapeReadable(ps: Phrases, qs: Phrases)
    requires SameShape(ps, qs) && Print(ps) == Print(qs)
    ensures ps == qs
  {
    if ps.Cons? {
      var r, s := Print(ps.tail), Print(qs.tail);
      assert !Overread(ps.head, qs);
      match ps.head {
        case Mark(_) =>
        case Keyword(_) =>
        case Func(_) =>
        case Group(word, far, names) => NamesReadable(names, Cons(RParen, r), Cons(RParen, s));
        case Sel(metric, body) =>
          if body.Some? { BodyReadable(body.value, qs.head.body.value, r, s); }
      }
      assert r == s;
      ShapeReadable(ps.tail, qs.tail);
    }
  }

  // ----- tree against phrases -----

  function ScopePhrase(scope: Scope, p: Phrase): Phrase {
    if p.Sel? then
      Sel(p.metric, Some(if p.body.Some? then ScopeBody(scope, p.body.value) else Prepend(scope, End(false))))
    else p
  }

  lemma ScopeCons(scope: Scope, p: Phrase, more: Phrases)
    ensures ScopePhrases(scope, Cons(p, more)) == Cons(ScopePhrase(scope, p), ScopePhrases(scope, more))
  {}

  lemma {:induction false} StripMatchers(gone: set<string>, ms: List<Matcher>, comma: bool)
    ensures BodyMatchers(StripBody(gone, ToBody(ms, comma, false))) == Kept(gone, ms)
  {
    if ms.Cons? {
      assert EatComma(ToBody(ms.tail, true, false)) == ToBody(ms.tail, false, false);
      StripMatchers(gone, ms.tail, false);
      StripMatchers(gone, ms.tail, true);
    }
  }

  lemma {:induction false} PrependedMatchers(scope: Scope, b: Body)
    requires NoTrailing(b)
    ensures BodyMatchers(Prepend(scope, b)) == ScopeMatchers(scope, BodyMatchers(b)) && NoTrailing(Prepend(scope, b))
  {
    if scope != [] { PrependedMatchers(scope[1..], b); }
  }

  lemma {:induction false} PlainBody(ms: List<Matcher>, comma: bool)
    ensures BodyMatchers(ToBody(ms, comma, false)) == ms && NoTrailing(ToBody(ms, comma, false))
  {
    if ms.Cons? { PlainBody(ms.tail, true); }
  }

  lemma {:induction false} EatKeeps(b: Body)
    ensures BodyMatchers(EatComma(b)) == BodyMatchers(b)
    ensures BodyMatchers(DropTrailing(b)) == BodyMatchers(b)
  {
    if b.Item? { EatKeeps(b.rest); }
  }

  /** On a selector the two always agree on the matchers, and on the commas
      exactly when the old scope matchers were at the ends. */
  lemma SelectorIff(scope: Scope, e: Expr)
    requires e.Select?
    ensures SamePhrase(ScopePhrase(scope, Selector(e)), Selector(Scoped(scope, e)))
    ensures ScopePhrase(scope, Selector(e)) == Selector(Scoped(scope, e)) <==> AtEnds(Labels(scope), OwnMatchers(e))
  {
    var gone := Labels(scope);
    var kept := Kept(gone, OwnMatchers(e));
    PlainBody(ScopeMatchers(scope, kept), false);
    if e.matchers.Some? {
      var ms := e.matchers.value;
      ScopedBody(scope, ms, e.trailing);
      var b := StripBody(gone, ToBody(ms, false, e.trailing));
      StripTrim(gone, ToBody(ms, false, e.trailing));
      TrailingDropped(ms, false, e.trailing);
      StripMatchers(gone, ms, false);
      EatKeeps(b);
      EatKeeps(EatComma(b));
      NoTrailingLeft(EatComma(b));
      PrependedMatchers(scope, DropTrailing(EatComma(b)));
    } else {
      PrependedMatchers(scope, End(false));
      PrependMatchers(scope, End(false), Nil);
    }
  }

  lemma SkipGroup(scope: Scope, c: Option<Clause>, r: Phrases)
    ensures ScopePhrases(scope, OptGroup(c, r)) == OptGroup(c, ScopePhrases(scope, r))
  {}

  lemma SkipMoved(scope: Scope, offset: Option<string>, r: Phrases)
    ensures ScopePhrases(scope, Moved(offset, r)) == Moved(offset, ScopePhrases(scope, r))
  {
    if offset.Some? {
      ScopeCons(scope, Keyword("offset"), Cons(Mark(Lit(offset.value)), r));
      ScopeCons(scope, Mark(Lit(offset.value)), r);
    }
  }

  lemma SkipAfterSelector(scope: Scope, e: Expr, r: Phrases)
    requires e.Select?
    ensures ScopePhrases(scope, AfterSelector(e, r)) == AfterSelector(Scoped(scope, e), ScopePhrases(scope, r))
  {
    var moved := Moved(e.offset, r);
    SkipMoved(scope, e.offset, r);
    if e.range.Some? {
      ScopeCons(scope, Mark(LBracket), Cons(Mark(Lit(e.range.value)), Cons(Mark(RBracket), moved)));
      ScopeCons(scope, Mark(Lit(e.range.value)), Cons(Mark(RBracket), moved));
      ScopeCons(scope, Mark(RBracket), moved);
    }
  }

  lemma SkipOperand(scope: Scope, asBool: bool, on: Option<Clause>, many: Option<Clause>, r: Phrases)
    ensures ScopePhrases(scope, Operand(asBool, on, many, r)) == Operand(asBool, on, many, ScopePhrases(scope, r))
  {
    SkipGroup(scope, many, r);
    SkipGroup(scope, on, OptGroup(many, r));
    if asBool { ScopeCons(scope, Keyword("bool"), OptGroup(on, OptGroup(many, r))); }
  }

  lemma MovedShape(offset: Option<string>, ps: Phrases, qs: Phrases)
    ensures SameShape(Moved(offset, ps), Moved(offset, qs)) <==> SameShape(ps, qs)
    ensures Moved(offset, ps) == Moved(offset, qs) <==> ps == qs
  {
    if offset.Some? {
      assert SameShape(Cons(Mark(Lit(offset.value)), ps), Cons(Mark(Lit(offset.value)), qs)) <==> SameShape(ps, qs);
    }
  }

  lemma {:induction false} AfterShape(scope: Scope, e: Expr, ps: Phrases, qs: Phrases)
    requires e.Select?
    ensures SameShape(AfterSelector(Scoped(scope, e), ps), AfterSelector(Scoped(scope, e), qs)) <==> SameShape(ps, qs)
    ensures AfterSelector(Scoped(scope, e), ps) == AfterSelector(Scoped(scope, e), qs) <==> ps == qs
  {
    var s := Scoped(scope, e);
    var mp, mq := Moved(s.offset, ps), Moved(s.offset, qs);
    MovedShape(s.offset, ps, qs);
    if s.range.Some? {
      assert SameShape(Cons(Mark(RBracket), mp), Cons(Mark(RBracket), mq)) <==> SameShape(mp, mq);
      var lp := Cons(Mark(Lit(s.range.value)), Cons(Mark(RBracket), mp));
      var lq := Cons(Mark(Lit(s.range.value)), Cons(Mark(RBracket), mq));
      assert SameShape(lp, lq) <==> SameShape(mp, mq);
    }
  }

  lemma MarkShape(scope: Scope, t: Token, r: Phrases, s: Phrases)
    requires SameShape(ScopePhrases(scope, r), s)
    ensures SameShape(ScopePhrases(scope, Cons(Mark(t), r)), Cons(Mark(t), s))
    ensures ScopePhrases(scope, Cons(Mark(t), r)) == Cons(Mark(t), s) <==> ScopePhrases(scope, r) == s
  {
    ScopeCons(scope, Mark(t), r);
  }

  /** A name that reads as a metric gets a label set where none is meant. */
  lemma NameShape(scope: Scope, name: string, r: Phrases, s: Phrases)
    requires SameShape(ScopePhrases(scope, r), s) && (Print(s).Cons? ==> !Print(s).head.LBrace?)
    ensures SameShape(ScopePhrases(scope, Cons(Sel(Some(name), None), r)), Cons(Sel(Some(name), None), s))
    ensures ScopePhrases(scope, Cons(Sel(Some(name), None), r)) != Cons(Sel(Some(name), None), s)
  {
    ScopeCons(scope, Sel(Some(name), None), r);
    assert Overread(ScopePhrase(scope, Sel(Some(name), None)), Cons(Sel(Some(name), None), s));
  }

  lemma SteppedShape(scope: Scope, step: Option<string>, attached: bool, r: Phrases, s: Phrases)
    requires SameShape(ScopePhrases(scope, r), s) && s.Cons? && s.head == Mark(RBracket)
    ensures SameShape(ScopePhrases(scope, Stepped(step, attached, r)), Stepped(step, attached, s))
    ensures ScopePhrases(scope, Stepped(step, attached, r)) == Stepped(step, attached, s)
       <==> !(step.Some? && attached) && ScopePhrases(scope, r) == s
  {
    if step.None? {
      MarkShape(scope, Lit(":"), r, s);
    } else if attached {
      NameShape(scope, ":" + step.value, r, s);
    } else {
      MarkShape(scope, Lit(step.value), r, s);
      MarkShape(scope, Lit(":"), Cons(Mark(Lit(step.value)), r), Cons(Mark(Lit(step.value)), s));
    }
  }

  lemma SubqueryShape(scope: Scope, e: Expr, r: Phrases, s: Phrases)
    requires e.Subquery? && SameShape(ScopePhrases(scope, r), s)
    ensures SameShape(ScopePhrases(scope, AfterSubquery(e, r)), AfterSubquery(Scoped(scope, e), s))
    ensures ScopePhrases(scope, AfterSubquery(e, r)) == AfterSubquery(Scoped(scope, e), s)
       <==> !(e.step.Some? && e.attached) && ScopePhrases(scope, r) == s
  {
    var mr, ms := Moved(e.offset, r), Moved(e.offset, s);
    SkipMoved(scope, e.offset, r);
    MovedShape(e.offset, ScopePhrases(scope, r), s);
    MarkShape(scope, RBracket, mr, ms);
    var cr, cs := Cons(Mark(RBracket), mr), Cons(Mark(RBracket), ms);
    SteppedShape(scope, e.step, e.attached, cr, cs);
    var tr, ts := Stepped(e.step, e.attached, cr), Stepped(e.step, e.attached, cs);
    MarkShape(scope, Lit(e.length), tr, ts);
    MarkShape(scope, LBracket, Cons(Mark(Lit(e.length)), tr), Cons(Mark(Lit(e.length)), ts));
  }

  lemma CalledShape(scope: Scope, name: string, far: bool, r: Phrases, s: Phrases)
    requires SameShape(ScopePhrases(scope, r), s)
    ensures SameShape(ScopePhrases(scope, Called(name, far, r)), Called(name, far, s))
    ensures ScopePhrases(scope, Called(name, far, r)) == Called(name, far, s) <==> KeptName(name, far) && ScopePhrases(scope, r) == s
  {
    if !far {
      ScopeCons(scope, Func(name), r);
    } else {
      var pr, ps := Cons(Mark(LParen(true)), r), Cons(Mark(LParen(true)), s);
      MarkShape(scope, LParen(true), r, s);
      if Reserved(name) { ScopeCons(scope, Keyword(name), pr); } else { NameShape(scope, name, pr, ps); }
    }
  }

  lemma GroupShape(c: Option<Clause>, ps: Phrases, qs: Phrases)
    ensures SameShape(OptGroup(c, ps), OptGroup(c, qs)) <==> SameShape(ps, qs)
    ensures OptGroup(c, ps) == OptGroup(c, qs) <==> ps == qs
  {}

  lemma OperandShape(asBool: bool, on: Option<Clause>, many: Option<Clause>, ps: Phrases, qs: Phrases)
    ensures SameShape(Operand(asBool, on, many, ps), Operand(asBool, on, many, qs)) <==> SameShape(ps, qs)
    ensures Operand(asBool, on, many, ps) == Operand(asBool, on, many, qs) <==> ps == qs
  {
    GroupShape(many, ps, qs);
    GroupShape(on, OptGroup(many, ps), OptGroup(many, qs));
  }

  /** The phrases start with a label set, or with a parenthesis right behind what comes before. */
  predicate Bracketed(ps: Phrases) {
    ps.Cons? && ((ps.head.Sel? && ps.head.metric.None?) || ps.head == Mark(LParen(false)))
  }

  /** What an operand may start with. */
  predicate Starts(ps: Phrases) {
    && ps.Cons? && (ps.head.Mark? ==> !ps.head.t.LBrace?)
    && (ps.head.Sel? ==> ps.head.metric.Some? || ps.head.body.Some?)
  }

  lemma {:induction false} TreeStarts(e: Expr, rest: Phrases)
    requires WellFormed(e)
    ensures Starts(Phrased(e, rest)) && (Bracketed(Phrased(e, rest)) <==> OpensBracket(e))
    decreases e
  {
    match e
    case Subquery(inner, _, _, _, _) => TreeStarts(inner, AfterSubquery(e, rest));
    case Binary(left, sym, asBool, on, many, right) =>
      TreeStarts(left, Operator(sym, Operand(asBool, on, many, Phrased(right, rest))));
    case _ =>
  }

  lemma OperandStarts(asBool: bool, on: Option<Clause>, many: Option<Clause>, right: Phrases)
    requires Starts(right)
    ensures var ps := Operand(asBool, on, many, right);
      Starts(ps) && (Bracketed(ps) <==> !asBool && on.None? && many.None? && Bracketed(right))
  {}

  /** A word the rewriter does not know keeps its text exactly in front of a bracket. */
  lemma GluedShape(scope: Scope, word: string, ps: Phrases, qs: Phrases)
    requires Starts(ps) && Starts(qs) && SameShape(ScopePhrases(scope, ps), qs)
    ensures SameShape(ScopePhrases(scope, Glued(word, ps)), Glued(word, qs))
    ensures ScopePhrases(scope, Glued(word, ps)) == Glued(word, qs) <==> Bracketed(ps) && ScopePhrases(scope, ps) == qs
  {
    ScopeCons(scope, ps.head, ps.tail);
    if ps.head.Sel? && ps.head.metric.None? {
      ScopeCons(scope, Sel(Some(word), ps.head.body), ps.tail);
    } else if ps.head == Mark(LParen(false)) {
      ScopeCons(scope, Func(word), ps.tail);
    } else {
      assert Print(qs).Cons? ==> !Print(qs).head.LBrace?;
      NameShape(scope, word, ps, qs);
    }
  }

  lemma OperatorShape(scope: Scope, sym: string, ps: Phrases, qs: Phrases)
    requires Starts(ps) && Starts(qs) && SameShape(ScopePhrases(scope, ps), qs)
    ensures SameShape(ScopePhrases(scope, Operator(sym, ps)), Operator(sym, qs))
    ensures ScopePhrases(scope, Operator(sym, ps)) == Operator(sym, qs)
       <==> (Reserved(sym) || Symbolic(sym) || Bracketed(ps)) && ScopePhrases(scope, ps) == qs
  {
    if Reserved(sym) { ScopeCons(scope, Keyword(sym), ps); }
    else if Symbolic(sym) { ScopeCons(scope, Mark(Op(sym)), ps); }
    else { GluedShape(scope, sym, ps, qs); }
  }

  lemma {:induction false} TreeShape(scope: Scope, e: Expr, r: Phrases, s: Phrases)
    requires WellFormed(e) && SameShape(ScopePhrases(scope, r), s)
    ensures SameShape(ScopePhrases(scope, Phrased(e, r)), Phrased(Scoped(scope, e), s))
    ensures ScopePhrases(scope, Phrased(e, r)) == Phrased(Scoped(scope, e), s)
       <==> Rewritable(Labels(scope), e) && ScopePhrases(scope, r) == s
    decreases e, 0
  {
    match e
    case Number(text) => ScopeCons(scope, if Infinite(text) then Keyword(text) else Mark(Lit(text)), r);
    case Select(_, _, _, _, _) =>
      SelectorIff(scope, e);
      ScopeCons(scope, Selector(e), AfterSelector(e, r));
      SkipAfterSelector(scope, e, r);
      AfterShape(scope, e, ScopePhrases(scope, r), s);
    case Subquery(inner, _, _, _, _) =>
      SubqueryShape(scope, e, r, s);
      TreeShape(scope, inner, AfterSubquery(e, r), AfterSubquery(Scoped(scope, e), s));
    case Call(name, far, args) =>
      var close, closed := Cons(Mark(RParen), r), Cons(Mark(RParen), s);
      ArgsShape(scope, args, close, closed);
      CalledShape(scope, name, far, PhrasedArgs(args, close), PhrasedArgs(ScopedArgs(scope, args), closed));
    case Aggregate(_, _, _, _, _) => AggregateShape(scope, e, r, s);
    case Binary(left, _, _, _, _, _) =>
      RightShape(scope, e, r, s);
      var scoped := Scoped(scope, e);
      TreeShape(scope, left, Behind(e, r), Behind(scoped, s));
    case Negate(inner) => TreeShape(scope, inner, r, s);
    case Paren(_, inner) => TreeShape(scope, inner, Cons(Mark(RParen), r), Cons(Mark(RParen), s));
  }

  lemma {:induction false} AggregateShape(scope: Scope, e: Expr, r: Phrases, s: Phrases)
    requires e.Aggregate? && WellFormed(e) && SameShape(ScopePhrases(scope, r), s)
    ensures SameShape(ScopePhrases(scope, Phrased(e, r)), Phrased(Scoped(scope, e), s))
    ensures ScopePhrases(scope, Phrased(e, r)) == Phrased(Scoped(scope, e), s)
       <==> ArgsRewritable(Labels(scope), e.args) && ScopePhrases(scope, r) == s
    decreases e.args, 2
  {
    var scoped := ScopedArgs(scope, e.args);
    if e.clauseFirst && e.clause.Some? {
      ArgsShape(scope, e.args, Cons(Mark(RParen), r), Cons(Mark(RParen), s));
      var before := PhrasedArgs(e.args, Cons(Mark(RParen), r));
      var after := PhrasedArgs(scoped, Cons(Mark(RParen), s));
      MarkShape(scope, LParen(e.far), before, after);
      before, after := Cons(Mark(LParen(e.far)), before), Cons(Mark(LParen(e.far)), after);
      SkipGroup(scope, e.clause, before);
      GroupShape(e.clause, ScopePhrases(scope, before), after);
      ScopeCons(scope, Keyword(e.op), OptGroup(e.clause, before));
    } else {
      SkipGroup(scope, e.clause, r);
      GroupShape(e.clause, ScopePhrases(scope, r), s);
      var close, closed := Cons(Mark(RParen), OptGroup(e.clause, r)), Cons(Mark(RParen), OptGroup(e.clause, s));
      ArgsShape(scope, e.args, close, closed);
      CalledShape(scope, e.op, e.far, PhrasedArgs(e.args, close), PhrasedArgs(scoped, closed));
    }
  }

  /** The operator of a binary expression and everything behind it. */
  function Behind(e: Expr, r: Phrases): Phrases
    requires e.Binary?
  {
    Operator(e.sym, Operand(e.asBool, e.on, e.many, Phrased(e.right, r)))
  }

  lemma {:induction false} RightShape(scope: Scope, e: Expr, r: Phrases, s: Phrases)
    requires e.Binary? && WellFormed(e) && SameShape(ScopePhrases(scope, r), s)
    ensures SameShape(ScopePhrases(scope, Behind(e, r)), Behind(Scoped(scope, e), s))
    ensures ScopePhrases(scope, Behind(e, r)) == Behind(Scoped(scope, e), s)
      <==> Rewritable(Labels(scope), e.right) && KeptOperator(e) && ScopePhrases(scope, r) == s
    decreases e.right, 1
  {
    var (asBool, on, many) := (e.asBool, e.on, e.many);
    var before, after := Phrased(e.right, r), Phrased(Scoped(scope, e.right), s);
    TreeShape(scope, e.right, r, s);
    TreeStarts(e.right, r);
    ScopedStarts(scope, e.right, s);
    SkipOperand(scope, asBool, on, many, before);
    OperandShape(asBool, on, many, ScopePhrases(scope, before), after);
    OperandStarts(asBool, on, many, before);
    OperandStarts(asBool, on, many, after);
    OperatorShape(scope, e.sym, Operand(asBool, on, many, before), Operand(asBool, on, many, after));
  }

  lemma {:induction false} ScopedStarts(scope: Scope, e: Expr, rest: Phrases)
    requires WellFormed(e)
    ensures Starts(Phrased(Scoped(scope, e), rest))
    decreases e
  {
    match e
    case Subquery(inner, _, _, _, _) => ScopedStarts(scope, inner, AfterSubquery(Scoped(scope, e), rest));
    case Binary(left, sym, asBool, on, many, right) =>
      ScopedStarts(scope, left, Operator(sym, Operand(asBool, on, many, Phrased(Scoped(scope, right), rest))));
    case _ =>
  }

  lemma {:induction false} ArgsShape(scope: Scope, args: List<Arg>, r: Phrases, s: Phrases)
    requires WellFormedArgs(args) && SameShape(ScopePhrases(scope, r), s)
    ensures SameShape(ScopePhrases(scope, PhrasedArgs(args, r)), PhrasedArgs(ScopedArgs(scope, args), s))
    ensures ScopePhrases(scope, PhrasedArgs(args, r)) == PhrasedArgs(ScopedArgs(scope, args), s)
       <==> ArgsRewritable(Labels(scope), args) && ScopePhrases(scope, r) == s
    decreases args, 1
  {
    if args.Cons? {
      ArgsShape(scope, args.tail, r, s);
      var before := if args.tail.Nil? then r else Cons(Mark(Comma), PhrasedArgs(args.tail, r));
      var after := if args.tail.Nil? then s else Cons(Mark(Comma), PhrasedArgs(ScopedArgs(scope, args.tail), s));
      ScopeCons(scope, Mark(Comma), PhrasedArgs(args.tail, r));
      assert SameShape(ScopePhrases(scope, before), after);
      var clean := ArgsRewritable(Labels(scope), args.tail) && ScopePhrases(scope, r) == s;
      assert ScopePhrases(scope, before) == after <==> clean;
      ArgShape(scope, args.head, before, after);
    }
  }

  lemma {:induction false} ArgShape(scope: Scope, a: Arg, r: Phrases, s: Phrases)
    requires (a.Sub? ==> WellFormed(a.e)) && SameShape(ScopePhrases(scope, r), s)
    ensures var b := if a.Sub? then Sub(Scoped(scope, a.e)) else a;
      && SameShape(ScopePhrases(scope, PhrasedArg(a, r)), PhrasedArg(b, s))
      && (ScopePhrases(scope, PhrasedArg(a, r)) == PhrasedArg(b, s)
          <==> (a.Sub? ==> Rewritable(Labels(scope), a.e)) && ScopePhrases(scope, r) == s)
    decreases a, 1
  {
    if a.Sub? { TreeShape(scope, a.e, r, s); } else { ScopeCons(scope, Mark(Str(a.value)), r); }
  }

  /** The text rewriter is the tree transformer "put every selector under the
      scope" exactly on the trees whose own scope matchers stand at the ends of
      their label sets, whose subquery steps do not follow the length at once, whose
      function names are followed by their parenthesis at once, and whose operator
      words are reserved or stand right in front of a bracket. */
  lemma RewriteIsScoped(e: Expr, given: Scope)
    requires WellFormed(e) && Effective(given) != [] && LabelNames(Effective(given))
    ensures InjectScope(PrintExpr(e), given) == PrintExpr(Scoped(Effective(given), e))
       <==> Rewritable(Labels(Effective(given)), e)
  {
    var scope := Effective(given);
    var ps, qs := Phrased(e, Nil), Phrased(Scoped(scope, e), Nil);
    PrintsLinked(e, Nil);
    RewriteRefines(given, ps);
    TreeShape(scope, e, Nil, Nil);
    if Print(ScopePhrases(scope, ps)) == Print(qs) { ShapeReadable(ScopePhrases(scope, ps), qs); }
  }

  const TENANT := Binding("tenant_id", "t01")

  const FUSING := Cons(Matcher("a", "=", "1"), Cons(Matcher("tenant_id", "=", "t07"), Cons(Matcher("b", "=", "2"), Nil)))

  lemma FusedBody()
    ensures Labels([TENANT]) == {"tenant_id"} && Effective([TENANT]) == [TENANT]
    ensures ScopeBody([TENANT], ToBody(FUSING, false, false))
         == Item(false, Matcher("tenant_id", "=", "t01"),
              Item(true, Matcher("a", "=", "1"), Item(false, Matcher("b", "=", "2"), End(false))))
  {
    var a, t, b := Matcher("a", "=", "1"), Matcher("tenant_id", "=", "t07"), Matcher("b", "=", "2");
    var gone := {"tenant_id"};
    assert Labels([TENANT]) == gone;
    assert Effective([TENANT][1..]) == [];
    var last := Item(false, b, End(false));
    assert StripBody(gone, last) == last;
    assert StripBody(gone, Item(true, t, Item(true, b, End(false)))) == last;
    var core := Item(false, a, last);
    assert StripBody(gone, ToBody(FUSING, false, false)) == core;
    assert DropTrailing(last) == last;
    assert Prepend([TENANT][1..], core) == core;
  }

  lemma OneLetter(name: string)
    requires |name| == 1
    ensures !Reserved(name)
  {
    assert forall w | w in RESERVED :: |w| >= 2;
    assert |Lower(name)| == 1;
  }

  lemma FusingGood()
    ensures LabelShaped("a") && LabelShaped("b") && LabelShaped("tenant_id") && GoodMatchers(FUSING)
  {
    assert GoodMatchers(FUSING.tail.tail);
    assert GoodMatchers(FUSING.tail);
  }

  lemma FusingInside()
    ensures !AtEnds({"tenant_id"}, FUSING)
  {
    var gone := {"tenant_id"};
    assert FUSING.head.name !in gone && FUSING.tail.head.name in gone && FUSING.tail.tail.head.name !in gone;
    assert !AllGone(gone, FUSING.tail.tail);
    assert !RunThenGone(gone, FUSING.tail);
  }

  lemma FusingTree()
    ensures var e := Select(Some("m"), Some(FUSING), false, None, None);
      WellFormed(e) && !AtEnds({"tenant_id"}, OwnMatchers(e)) && !Rewritable({"tenant_id"}, e)
  {
    OneLetter("m");
    FusingGood();
    FusingInside();
  }

  /** A scope matcher between two others takes both commas with it: what is left
      reads `a="1"b="2"`. */
  lemma InteriorMatcherFuses()
    ensures
      var e := Select(Some("m"), Some(FUSING), false, None, None);
      && WellFormed(e) && !Rewritable(Labels([TENANT]), e)
      && InjectScope(PrintExpr(e), [TENANT]) ==
           Cons(Word("m"), Cons(LBrace,
             Cons(Word("tenant_id"), Cons(Op("="), Cons(Str("t01"), Cons(Comma,
             Cons(Word("a"), Cons(Op("="), Cons(Str("1"),
             Cons(Word("b"), Cons(Op("="), Cons(Str("2"), Cons(RBrace, Nil)))))))))))))
  {
    var e := Select(Some("m"), Some(FUSING), false, None, None);
    FusedBody();
    FusingTree();
    PrintsLinked(e, Nil);
    var ps := Phrased(e, Nil);
    RewriteRefines([TENANT], ps);
    ScopeCons([TENANT], Selector(e), Nil);
    var last := Item(false, Matcher("b", "=", "2"), End(false));
    var close: Tokens := Cons(RBrace, Nil);
    var tail := Cons(Word("b"), Cons(Op("="), Cons(Str("2"), close)));
    assert EmitBody(last, close) == tail;
    assert EmitBody(Item(true, Matcher("a", "=", "1"), last), close)
        == Cons(Comma, Cons(Word("a"), Cons(Op("="), Cons(Str("1"), tail))));
  }

  function Metric(name: string): Expr { Select(Some(name), None, false, None, None) }

  lemma LoneMetric(name: string)
    requires |name| == 1 && NameStart(name[0])
    ensures WellFormed(Metric(name)) && forall gone :: Rewritable(gone, Metric(name))
  {
    OneLetter(name);
  }

  lemma Atan2IsUnknown()
    ensures LabelShaped("atan2") && !Reserved("atan2") && GoodOperator("atan2") && !Symbolic("atan2")
  {
    assert Lower("atan2")[4] == '2' && forall w | w in RESERVED :: |w| < 5 || w[4] != '2';
    UnknownWord("atan2");
  }

  lemma UnknownWord(word: string)
    requires LabelShaped(word) && !Reserved(word)
    ensures GoodOperator(word) && !Symbolic(word) && !Grouping(word)
  {
    assert word[0] in word;
  }

  /** `a atan2 b`: the operator is taken for a metric and gets a label set of its own. */
  lemma UnknownOperatorReadAsMetric()
    ensures
      var e := Binary(Metric("a"), "atan2", false, None, None, Metric("b"));
      && WellFormed(e) && !Rewritable(Labels([TENANT]), e)
      && PrintExpr(e) == Cons(Word("a"), Cons(Word("atan2"), Cons(Word("b"), Nil)))
      && InjectScope(PrintExpr(e), [TENANT]) ==
           Cons(Word("a"), Braced([TENANT], Nil, Cons(Word("atan2"), Braced([TENANT], Nil, Cons(Word("b"), Braced([TENANT], Nil, Nil))))))
  {
    var own, e := [TENANT], Binary(Metric("a"), "atan2", false, None, None, Metric("b"));
    LoneMetric("a");
    LoneMetric("b");
    Atan2IsUnknown();
    FusedBody();
    FusingGood();
    var third := Cons(Sel(Some("b"), None), Nil);
    var second := Cons(Sel(Some("atan2"), None), third);
    var ps := Cons(Sel(Some("a"), None), second);
    assert Operator("atan2", third) == second;
    assert Phrased(e, Nil) == ps;
    PrintsLinked(e, Nil);
    RewriteRefines(own, ps);
    ScopeCons(own, ps.head, second);
    ScopeCons(own, second.head, third);
    ScopeCons(own, third.head, Nil);
    BareText(own, "b", Nil);
    BareText(own, "atan2", Print(ScopePhrases(own, third)));
    BareText(own, "a", Print(ScopePhrases(own, second)));
  }

  /** The phrases of `[5m:1m]`, and their text once rewritten. */
  function StepBracket(): Phrases {
    Cons(Mark(LBracket), Cons(Mark(Lit("5m")), Cons(Sel(Some(":1m"), None), Cons(Mark(RBracket), Nil))))
  }

  lemma StepTree()
    ensures var e := Subquery(Metric("m"), "5m", Some("1m"), true, None);
      && WellFormed(e) && (forall gone :: !Rewritable(gone, e))
      && Phrased(e, Nil) == Cons(Sel(Some("m"), None), StepBracket())
  {
    LoneMetric("m");
    assert ":" + "1m" == ":1m";
    var e := Subquery(Metric("m"), "5m", Some("1m"), true, None);
    assert AfterSubquery(e, Nil) == StepBracket();
  }

  lemma StepText(own: Scope)
    requires own != []
    ensures Print(StepBracket()) == Cons(LBracket, Cons(Lit("5m"), Cons(Word(":1m"), Cons(RBracket, Nil))))
    ensures Print(ScopePhrases(own, StepBracket()))
         == Cons(LBracket, Cons(Lit("5m"), Cons(Word(":1m"), Braced(own, Nil, Cons(RBracket, Nil)))))
  {
    var close := Cons(Mark(RBracket), Nil);
    var step := Cons(Sel(Some(":1m"), None), close);
    ScopeCons(own, Mark(LBracket), Cons(Mark(Lit("5m")), step));
    ScopeCons(own, Mark(Lit("5m")), step);
    ScopeCons(own, Sel(Some(":1m"), None), close);
    ScopeCons(own, Mark(RBracket), Nil);
    assert Print(close) == Cons(RBracket, Nil) && Print(step) == Cons(Word(":1m"), Print(close));
    assert Print(Cons(Mark(Lit("5m")), step)) == Cons(Lit("5m"), Print(step));
    BareText(own, ":1m", Print(close));
    assert ScopePhrases(own, close) == close;
    var after := ScopePhrases(own, step);
    assert Print(after) == Cons(Word(":1m"), Braced(own, Nil, Print(close)));
    assert Print(Cons(Mark(Lit("5m")), after)) == Cons(Lit("5m"), Print(after));
  }

  /** A bare name with the scope's label set. */
  lemma BareText(own: Scope, name: string, rest: Tokens)
    requires own != []
    ensures EmitPhrase(ScopePhrase(own, Sel(Some(name), None)), false, false, rest) == Cons(Word(name), Braced(own, Nil, rest))
  {
    BracedBody(own, End(false), rest);
    assert EmitBody(End(false), Nil) == Nil;
  }

  /** `m[5m:1m]`: the step of a subquery is taken for a metric and gets a label set. */
  lemma StepReadAsMetric()
    ensures
      var e := Subquery(Metric("m"), "5m", Some("1m"), true, None);
      && WellFormed(e) && !Rewritable(Labels([TENANT]), e)
      && PrintExpr(e) == Cons(Word("m"), Cons(LBracket, Cons(Lit("5m"), Cons(Word(":1m"), Cons(RBracket, Nil)))))
      && InjectScope(PrintExpr(e), [TENANT]) ==
           Cons(Word("m"), Braced([TENANT], Nil, Cons(LBracket, Cons(Lit("5m"), Cons(Word(":1m"),
             Braced([TENANT], Nil, Cons(RBracket, Nil)))))))
  {
    var own, ps := [TENANT], Cons(Sel(Some("m"), None), StepBracket());
    StepTree();
    FusedBody();
    FusingGood();
    PrintsLinked(Subquery(Metric("m"), "5m", Some("1m"), true, None), Nil);
    RewriteRefines(own, ps);
    ScopeCons(own, ps.head, ps.tail);
    StepText(own);
    BareText(own, "m", Print(ScopePhrases(own, StepBracket())));
  }

  lemma SpacedOperator(word: string, far: bool, gone: set<string>)
    requires LabelShaped(word) && !Reserved(word)
    ensures var e := Binary(Metric("a"), word, false, None, None, Paren(far, Metric("b")));
      WellFormed(e) && (Rewritable(gone, e) <==> !far)
  {
    LoneMetric("a");
    LoneMetric("b");
    UnknownWord(word);
    var right := Paren(far, Metric("b"));
    assert WellFormed(right) && Rewritable(gone, right) && Rewritable(gone, Metric("a"));
    assert KeptOperator(Binary(Metric("a"), word, false, None, None, right)) <==> !far;
  }

  lemma SpacedFunction(word: string, far: bool, gone: set<string>)
    requires LabelShaped(word) && !Reserved(word)
    ensures var e := Call(word, far, Cons(Sub(Metric("b")), Nil));
      WellFormed(e) && (Rewritable(gone, e) <==> !far)
  {
    LoneMetric("b");
    UnknownWord(word);
    var args: List<Arg> := Cons(Sub(Metric("b")), Nil);
    assert WellFormedArgs(args.tail) && ArgsRewritable(gone, args.tail);
    assert Rewritable(gone, Metric("b"));
    assert WellFormedArgs(args) && ArgsRewritable(gone, args);
  }

  /** Whatever word the rewriter does not know: as an operator in front of a parenthesis it
      is left alone exactly when the parenthesis follows at once. */
  lemma OperatorSpaceDecides(given: Scope, word: string, far: bool)
    requires Effective(given) != [] && LabelNames(Effective(given)) && LabelShaped(word) && !Reserved(word)
    ensures
      var e := Binary(Metric("a"), word, false, None, None, Paren(far, Metric("b")));
      WellFormed(e) && (InjectScope(PrintExpr(e), given) == PrintExpr(Scoped(Effective(given), e)) <==> !far)
  {
    SpacedOperator(word, far, Labels(Effective(given)));
    RewriteIsScoped(Binary(Metric("a"), word, false, None, None, Paren(far, Metric("b"))), given);
  }

  /** The same of functions. */
  lemma FunctionSpaceDecides(given: Scope, word: string, far: bool)
    requires Effective(given) != [] && LabelNames(Effective(given)) && LabelShaped(word) && !Reserved(word)
    ensures
      var e := Call(word, far, Cons(Sub(Metric("b")), Nil));
      WellFormed(e) && (InjectScope(PrintExpr(e), given) == PrintExpr(Scoped(Effective(given), e)) <==> !far)
  {
    SpacedFunction(word, far, Labels(Effective(given)));
    RewriteIsScoped(Call(word, far, Cons(Sub(Metric("b")), Nil)), given);
  }
}
