/** PromQL expression trees, how they print, and the tree transformer the text
    rewriter is measured against: put every selector under the scope. */
module PromTree {
  import opened Common
  import opened QueryTokens
  import opened PromPasses
  import opened PromChunks
  import opened PromRewrite

  /** `far` says whether a space stands in front of the opening parenthesis, here and below. */
  datatype Clause = Clause(word: string, far: bool, names: seq<string>)

  datatype Expr =
    | Number(text: string)
    | Select(metric: Option<string>, matchers: Option<List<Matcher>>, trailing: bool,
             range: Option<string>, offset: Option<string>)
    | Subquery(e: Expr, length: string, step: Option<string>, attached: bool, offset: Option<string>)
    | Call(name: string, far: bool, args: List<Arg>)
    | Aggregate(op: string, clause: Option<Clause>, clauseFirst: bool, far: bool, args: List<Arg>)
    | Binary(left: Expr, sym: string, asBool: bool, on: Option<Clause>, many: Option<Clause>, right: Expr)
    | Negate(e: Expr)
    | Paren(far: bool, e: Expr)

  datatype Arg = Text(value: string) | Sub(e: Expr)

  // ----- printing -----

  function ToBody(ms: List<Matcher>, comma: bool, trailing: bool): Body {
    match ms
    case Nil => End(trailing)
    case Cons(m, more) => Item(comma, m, ToBody(more, true, trailing))
  }

  function OptGroup(c: Option<Clause>, rest: Phrases): Phrases {
    if c.Some? then Cons(Group(c.value.word, c.value.far, c.value.names), rest) else rest
  }

  function Selector(e: Expr): Phrase
    requires e.Select?
  {
    Sel(e.metric, if e.matchers.Some? then Some(ToBody(e.matchers.value, false, e.trailing)) else None)
  }

  function Moved(offset: Option<string>, rest: Phrases): Phrases {
    if offset.Some? then Cons(Keyword("offset"), Cons(Mark(Lit(offset.value)), rest)) else rest
  }

  function Bracket(inner: Phrases): Phrases { Cons(Mark(LBracket), inner) }

  function AfterSelector(e: Expr, rest: Phrases): Phrases
    requires e.Select?
  {
    var moved := Moved(e.offset, rest);
    if e.range.Some? then Bracket(Cons(Mark(Lit(e.range.value)), Cons(Mark(RBracket), moved))) else moved
  }

  /** The step of a subquery. Right behind the length its colon starts an identifier. */
  function Stepped(step: Option<string>, attached: bool, rest: Phrases): Phrases {
    if step.None? then Cons(Mark(Lit(":")), rest)
    else if attached then Cons(Sel(Some(":" + step.value), None), rest)
    else Cons(Mark(Lit(":")), Cons(Mark(Lit(step.value)), rest))
  }

  function AfterSubquery(e: Expr, rest: Phrases): Phrases
    requires e.Subquery?
  {
    Bracket(Cons(Mark(Lit(e.length)), Stepped(e.step, e.attached, Cons(Mark(RBracket), Moved(e.offset, rest)))))
  }

  /** A name and the opening parenthesis of its arguments: a call only when nothing stands
      between them. */
  function Called(name: string, far: bool, rest: Phrases): Phrases {
    if !far then Cons(Func(name), rest)
    else Cons(if Reserved(name) then Keyword(name) else Sel(Some(name), None), Cons(Mark(LParen(true)), rest))
  }

  /** How a word that is not reserved reads in front of an operand: as the name of its
      label set, as a function, or as a metric of its own. */
  function Glued(word: string, operand: Phrases): Phrases {
    if operand.Cons? && operand.head.Sel? && operand.head.metric.None? then Cons(Sel(Some(word), operand.head.body), operand.tail)
    else if operand.Cons? && operand.head == Mark(LParen(false)) then Cons(Func(word), operand.tail)
    else Cons(Sel(Some(word), None), operand)
  }

  function Operand(asBool: bool, on: Option<Clause>, many: Option<Clause>, right: Phrases): Phrases {
    var grouped := OptGroup(on, OptGroup(many, right));
    if asBool then Cons(Keyword("bool"), grouped) else grouped
  }

  /** An operator that is a word prints as a word, `atan2` as well as `and`. */
  function Operator(sym: string, operand: Phrases): Phrases {
    if Reserved(sym) then Cons(Keyword(sym), operand)
    else if Symbolic(sym) then Cons(Mark(Op(sym)), operand)
    else Glued(sym, operand)
  }

  /** The numbers that are words. */
  predicate Infinite(text: string) { Lower(text) in {"inf", "nan"} }

  /** The phrases of `e` in front of `rest`. */
  function Phrased(e: Expr, rest: Phrases): Phrases
    decreases e, 0
  {
    match e
    case Number(text) => Cons(if Infinite(text) then Keyword(text) else Mark(Lit(text)), rest)
    case Select(_, _, _, _, _) => Cons(Selector(e), AfterSelector(e, rest))
    case Subquery(inner, _, _, _, _) => Phrased(inner, AfterSubquery(e, rest))
    case Call(name, far, args) => Called(name, far, PhrasedArgs(args, Cons(Mark(RParen), rest)))
    case Aggregate(op, clause, clauseFirst, far, args) =>
      if clauseFirst && clause.Some? then
        Cons(Keyword(op), OptGroup(clause, Cons(Mark(LParen(far)), PhrasedArgs(args, Cons(Mark(RParen), rest)))))
      else
        Called(op, far, PhrasedArgs(args, Cons(Mark(RParen), OptGroup(clause, rest))))
    case Binary(left, sym, asBool, on, many, right) =>
      Phrased(left, Operator(sym, Operand(asBool, on, many, Phrased(right, rest))))
    case Negate(inner) => Cons(Mark(Op("-")), Phrased(inner, rest))
    case Paren(far, inner) => Cons(Mark(LParen(far)), Phrased(inner, Cons(Mark(RParen), rest)))
  }

  function PhrasedArgs(args: List<Arg>, rest: Phrases): Phrases
    decreases args, 1
  {
    match args
    case Nil => rest
    case Cons(a, more) => PhrasedArg(a, if more.Nil? then rest else Cons(Mark(Comma), PhrasedArgs(more, rest)))
  }

  function PhrasedArg(a: Arg, rest: Phrases): Phrases
    decreases a, 1
  {
    match a
    case Text(value) => Cons(Mark(Str(value)), rest)
    case Sub(e) => Phrased(e, rest)
  }

  function PrintExpr(e: Expr): Tokens { Print(Phrased(e, Nil)) }

  // ----- the fragment -----

  predicate GoodClause(c: Option<Clause>) { c.Some? ==> Grouping(c.value.word) && GoodNames(c.value.names) }

  predicate GoodMatchers(ms: List<Matcher>) {
    ms.Cons? ==> IsMatcherOp(ms.head.op) && LabelShaped(ms.head.name) && GoodMatchers(ms.tail)
  }

  predicate GoodSpan(text: Option<string>) { text.Some? ==> NumberLike(text.value) }

  /** Names and operators are what the lexer makes of them, metric names are not reserved,
      functions are not named like clauses, and selectors are not empty. */
  predicate WellFormed(e: Expr) {
    match e
    case Number(text) => NumberLike(text) || Infinite(text)
    case Select(metric, matchers, _, range, offset) =>
      && GoodSpan(range) && GoodSpan(offset)
      && (metric.Some? || matchers.Some?)
      && (metric.Some? ==> WordShaped(metric.value) && !Reserved(metric.value))
      && (matchers.Some? ==> GoodMatchers(matchers.value))
    case Subquery(inner, length, step, _, offset) =>
      && WellFormed(inner) && NumberLike(length) && GoodSpan(step) && GoodSpan(offset)
      && (step.Some? ==> forall c :: c in step.value ==> WordChar(c))
    case Call(name, _, args) => LabelShaped(name) && !Grouping(name) && WellFormedArgs(args)
    case Aggregate(op, clause, _, _, args) =>
      Reserved(op) && LabelShaped(op) && !Grouping(op) && GoodClause(clause) && WellFormedArgs(args)
    case Binary(left, sym, _, on, many, right) =>
      && WellFormed(left) && GoodOperator(sym) && GoodClause(on) && GoodClause(many) && WellFormed(right)
    case Negate(inner) => WellFormed(inner)
    case Paren(_, inner) => WellFormed(inner)
  }

  /** Words the rewriter does not know are operators too. */
  predicate GoodOperator(sym: string) { !Grouping(sym) && (Symbolic(sym) || LabelShaped(sym)) }

  predicate WellFormedArgs(args: List<Arg>) {
    match args
    case Nil => true
    case Cons(a, more) => (a.Sub? ==> WellFormed(a.e)) && WellFormedArgs(more)
  }

  /** What may stand directly after an expression. */
  predicate Follows(rest: Phrases) {
    rest.Cons? ==>
      || rest.head.Keyword? || rest.head.Func? || (rest.head.Sel? && rest.head.metric.Some?)
      || (rest.head.Mark? && (rest.head.t.RParen? || rest.head.t.Comma? || rest.head.t.Op? || rest.head.t.LBracket?))
  }

  predicate Opens(ps: Phrases) {
    && ps.Cons?
    && !ps.head.Group?
    && (ps.head.Mark? ==> ps.head.t.Lit? || ps.head.t.LParen? || ps.head.t.Op?)
  }

  lemma {:induction false} MatchersGood(ms: List<Matcher>, comma: bool, trailing: bool)
    requires GoodMatchers(ms)
    ensures GoodBody(ToBody(ms, comma, trailing))
  {
    if ms.Cons? { MatchersGood(ms.tail, true, trailing); }
  }

  lemma OwnKeywords()
    ensures Reserved("offset") && !Grouping("offset") && Reserved("bool") && !Grouping("bool")
  {
    assert Lower("offset") == "offset";
    assert Lower("bool") == "bool";
  }

  lemma LabelIsWord(name: string)
    requires LabelShaped(name)
    ensures WordShaped(name)
  {
    assert name[|name| - 1] in name;
  }

  lemma InfiniteIsReserved(text: string)
    requires Infinite(text)
    ensures Reserved(text) && !Grouping(text)
  {}

  lemma StepIsWord(step: string)
    requires step != "" && forall c :: c in step ==> WordChar(c)
    ensures StepShaped(":" + step) && !Reserved(":" + step)
  {
    var word := ":" + step;
    assert word[1..] == step;
    assert Lower(word)[0] == ':';
  }

  lemma MovedLinked(offset: Option<string>, rest: Phrases)
    requires Linked(rest) && Follows(rest) && GoodSpan(offset)
    ensures Linked(Moved(offset, rest)) && Follows(Moved(offset, rest))
  {
    OwnKeywords();
    if offset.Some? { assert Linked(Cons(Mark(Lit(offset.value)), rest)); }
  }

  lemma RangedLinked(range: Option<string>, moved: Phrases)
    requires Linked(moved) && Follows(moved) && GoodSpan(range)
    ensures var ranged := if range.Some? then Bracket(Cons(Mark(Lit(range.value)), Cons(Mark(RBracket), moved))) else moved;
      Linked(ranged) && Follows(ranged)
  {
    if range.Some? {
      assert Linked(Cons(Mark(RBracket), moved));
      assert Linked(Cons(Mark(Lit(range.value)), Cons(Mark(RBracket), moved)));
    }
  }

  lemma SelectLinked(e: Expr, rest: Phrases)
    requires e.Select? && WellFormed(e) && Linked(rest) && Follows(rest)
    ensures Linked(Cons(Selector(e), AfterSelector(e, rest)))
  {
    if e.matchers.Some? { MatchersGood(e.matchers.value, false, e.trailing); }
    MovedLinked(e.offset, rest);
    RangedLinked(e.range, Moved(e.offset, rest));
  }

  lemma SteppedLinked(step: Option<string>, attached: bool, rest: Phrases)
    requires Linked(rest) && rest.Cons? && rest.head == Mark(RBracket) && GoodSpan(step)
    requires step.Some? ==> forall c :: c in step.value ==> WordChar(c)
    ensures Linked(Stepped(step, attached, rest))
  {
    if step.Some? {
      StepIsWord(step.value);
      assert Linked(Cons(Mark(Lit(step.value)), rest));
    }
  }

  lemma SubqueryLinked(e: Expr, rest: Phrases)
    requires e.Subquery? && WellFormed(e) && Linked(rest) && Follows(rest)
    ensures Linked(AfterSubquery(e, rest)) && Follows(AfterSubquery(e, rest))
  {
    MovedLinked(e.offset, rest);
    var close := Cons(Mark(RBracket), Moved(e.offset, rest));
    SteppedLinked(e.step, e.attached, close);
    assert Linked(Cons(Mark(Lit(e.length)), Stepped(e.step, e.attached, close)));
  }

  lemma CalledLinked(name: string, far: bool, rest: Phrases)
    requires LabelShaped(name) && !Grouping(name) && Linked(rest)
    requires rest.Cons? ==> !(rest.head.Mark? && rest.head.t.Comma?)
    ensures Linked(Called(name, far, rest)) && Opens(Called(name, far, rest))
  {
    LabelIsWord(name);
    if far { assert Linked(Cons(Mark(LParen(true)), rest)); }
  }

  lemma OperandLinked(asBool: bool, on: Option<Clause>, many: Option<Clause>, right: Phrases)
    requires GoodClause(on) && GoodClause(many) && Linked(right) && Opens(right)
    ensures var ps := Operand(asBool, on, many, right); Linked(ps) && ps.Cons? && (ps.head.Mark? ==> Opens(ps))
  {
    OwnKeywords();
    var one := OptGroup(many, right);
    assert Linked(one) && one.Cons?;
    var grouped := OptGroup(on, one);
    assert Linked(grouped) && grouped.Cons?;
  }

  lemma OperatorLinked(sym: string, operand: Phrases)
    requires GoodOperator(sym) && Linked(operand) && operand.Cons? && (operand.head.Mark? ==> Opens(operand))
    ensures var ps := Operator(sym, operand); Linked(ps) && Follows(ps)
  {
    if !Symbolic(sym) { LabelIsWord(sym); }
  }

  /** Every well-formed tree prints inside the rewriter's fragment. */
  lemma {:induction false} PrintsLinked(e: Expr, rest: Phrases)
    requires WellFormed(e) && Linked(rest) && Follows(rest)
    ensures Linked(Phrased(e, rest)) && Opens(Phrased(e, rest))
    decreases e, 0
  {
    match e
    case Number(text) =>
      if Infinite(text) { InfiniteIsReserved(text); }
    case Select(_, _, _, _, _) => SelectLinked(e, rest);
    case Subquery(inner, _, _, _, _) =>
      SubqueryLinked(e, rest);
      PrintsLinked(inner, AfterSubquery(e, rest));
    case Call(name, far, args) =>
      ArgsLinked(args, rest);
      CalledLinked(name, far, PhrasedArgs(args, Cons(Mark(RParen), rest)));
    case Aggregate(_, _, _, _, _) => AggregateLinked(e, rest);
    case Binary(left, sym, asBool, on, many, right) =>
      PrintsLinked(right, rest);
      var operand := Operand(asBool, on, many, Phrased(right, rest));
      OperandLinked(asBool, on, many, Phrased(right, rest));
      OperatorLinked(sym, operand);
      PrintsLinked(left, Operator(sym, operand));
    case Negate(inner) => PrintsLinked(inner, rest);
    case Paren(_, inner) => PrintsLinked(inner, Cons(Mark(RParen), rest));
  }

  lemma {:induction false} AggregateLinked(e: Expr, rest: Phrases)
    requires e.Aggregate? && WellFormed(e) && Linked(rest) && Follows(rest)
    ensures Linked(Phrased(e, rest)) && Opens(Phrased(e, rest))
    decreases e.args, 3
  {
    if e.clauseFirst && e.clause.Some? {
      ArgsLinked(e.args, rest);
      var inner := Cons(Mark(LParen(e.far)), PhrasedArgs(e.args, Cons(Mark(RParen), rest)));
      assert Linked(inner);
      assert Linked(OptGroup(e.clause, inner));
    } else {
      ArgsLinkedThenGroup(e.args, e.clause, rest);
      CalledLinked(e.op, e.far, PhrasedArgs(e.args, Cons(Mark(RParen), OptGroup(e.clause, rest))));
    }
  }

  lemma {:induction false} ArgsLinkedThenGroup(args: List<Arg>, clause: Option<Clause>, rest: Phrases)
    requires WellFormedArgs(args) && GoodClause(clause) && Linked(rest) && Follows(rest)
    ensures var ps := PhrasedArgs(args, Cons(Mark(RParen), OptGroup(clause, rest)));
      Linked(ps) && ps.Cons? && !(ps.head.Mark? && ps.head.t.Comma?)
    decreases args, 2
  {
    ArgsLinkedBefore(args, Cons(Mark(RParen), OptGroup(clause, rest)));
  }

  lemma {:induction false} ArgsLinked(args: List<Arg>, rest: Phrases)
    requires WellFormedArgs(args) && Linked(rest) && Follows(rest)
    ensures var ps := PhrasedArgs(args, Cons(Mark(RParen), rest));
      Linked(ps) && ps.Cons? && !(ps.head.Mark? && ps.head.t.Comma?)
    decreases args, 2
  {
    ArgsLinkedBefore(args, Cons(Mark(RParen), rest));
  }

  lemma {:induction false} ArgsLinkedBefore(args: List<Arg>, rest: Phrases)
    requires WellFormedArgs(args) && Linked(rest) && rest.Cons? && rest.head == Mark(RParen)
    ensures var ps := PhrasedArgs(args, rest);
      Linked(ps) && ps.Cons? && !(ps.head.Mark? && ps.head.t.Comma?)
    decreases args, 1
  {
    if args.Cons? {
      if args.tail.Cons? { ArgsLinkedBefore(args.tail, rest); }
      var after := if args.tail.Nil? then rest else Cons(Mark(Comma), PhrasedArgs(args.tail, rest));
      if args.head.Sub? { PrintsLinked(args.head.e, after); }
    }
  }

  // ----- the tree transformer -----

  function Kept(gone: set<string>, ms: List<Matcher>): List<Matcher> {
    match ms
    case Nil => Nil
    case Cons(m, more) => if m.name in gone then Kept(gone, more) else Cons(m, Kept(gone, more))
  }

  function ScopeMatchers(scope: Scope, after: List<Matcher>): List<Matcher> {
    if scope == [] then after
    else Cons(Matcher(scope[0].name, "=", scope[0].value), ScopeMatchers(scope[1..], after))
  }

  function OwnMatchers(e: Expr): List<Matcher>
    requires e.Select?
  {
    if e.matchers.Some? then e.matchers.value else Nil
  }

  /** Every selector loses its own scope matchers and gains the scope in front. */
  function Scoped(scope: Scope, e: Expr): Expr
    decreases e, 0
  {
    match e
    case Number(_) => e
    case Select(metric, _, _, range, offset) =>
      Select(metric, Some(ScopeMatchers(scope, Kept(Labels(scope), OwnMatchers(e)))), false, range, offset)
    case Subquery(inner, length, step, attached, offset) => Subquery(Scoped(scope, inner), length, step, attached, offset)
    case Call(name, far, args) => Call(name, far, ScopedArgs(scope, args))
    case Aggregate(op, clause, clauseFirst, far, args) => Aggregate(op, clause, clauseFirst, far, ScopedArgs(scope, args))
    case Binary(left, sym, asBool, on, many, right) =>
      Binary(Scoped(scope, left), sym, asBool, on, many, Scoped(scope, right))
    case Negate(inner) => Negate(Scoped(scope, inner))
    case Paren(far, inner) => Paren(far, Scoped(scope, inner))
  }

  function ScopedArgs(scope: Scope, args: List<Arg>): List<Arg>
    decreases args, 1
  {
    match args
    case Nil => Nil
    case Cons(a, more) => Cons(if a.Sub? then Sub(Scoped(scope, a.e)) else a, ScopedArgs(scope, more))
  }

  // ----- when the two agree -----

  predicate AllGone(gone: set<string>, ms: List<Matcher>) {
    ms.Cons? ==> ms.head.name in gone && AllGone(gone, ms.tail)
  }

  /** Kept matchers, then only scope matchers. */
  predicate RunThenGone(gone: set<string>, ms: List<Matcher>) {
    ms.Cons? ==> if ms.head.name in gone then AllGone(gone, ms) else RunThenGone(gone, ms.tail)
  }

  /** The scope matchers already present stand at the ends of the label set. */
  predicate AtEnds(gone: set<string>, ms: List<Matcher>) {
    ms.Cons? ==> if ms.head.name in gone then AtEnds(gone, ms.tail) else RunThenGone(gone, ms)
  }

  /** The expression's text starts with a label set, or with a parenthesis right behind
      what comes before. */
  predicate OpensBracket(e: Expr) {
    match e
    case Select(metric, _, _, _, _) => metric.None?
    case Subquery(inner, _, _, _, _) => OpensBracket(inner)
    case Binary(left, _, _, _, _, _) => OpensBracket(left)
    case Paren(far, _) => !far
    case _ => false
  }

  /** The word of a binary operator keeps its text: it is no word, a word the rewriter
      knows, or directly in front of a bracket. */
  predicate KeptOperator(e: Expr)
    requires e.Binary?
  {
    Reserved(e.sym) || Symbolic(e.sym) || (!e.asBool && e.on.None? && e.many.None? && OpensBracket(e.right))
  }

  /** The word of a call keeps its text. */
  predicate KeptName(name: string, far: bool) { !far || Reserved(name) }

  /** Scope matchers stand at the ends of their label sets, no subquery's step is right
      behind its length, no function has a space behind its name, and operators keep
      their text. */
  predicate Rewritable(gone: set<string>, e: Expr) {
    match e
    case Number(_) => true
    case Select(_, _, _, _, _) => AtEnds(gone, OwnMatchers(e))
    case Subquery(inner, _, step, attached, _) => Rewritable(gone, inner) && !(step.Some? && attached)
    case Call(name, far, args) => KeptName(name, far) && ArgsRewritable(gone, args)
    case Aggregate(_, _, _, _, args) => ArgsRewritable(gone, args)
    case Binary(left, _, _, _, _, right) => Rewritable(gone, left) && Rewritable(gone, right) && KeptOperator(e)
    case Negate(inner) => Rewritable(gone, inner)
    case Paren(_, inner) => Rewritable(gone, inner)
  }

  predicate ArgsRewritable(gone: set<string>, args: List<Arg>) {
    match args
    case Nil => true
    case Cons(a, more) => (a.Sub? ==> Rewritable(gone, a.e)) && ArgsRewritable(gone, more)
  }

  lemma {:induction false} KeptNone(gone: set<string>, ms: List<Matcher>)
    ensures Kept(gone, ms).Nil? <==> AllGone(gone, ms)
  {
    if ms.Cons? { KeptNone(gone, ms.tail); }
  }

  /** After a removed matcher, the next survivor has lost its comma. */
  lemma {:induction false} StripNoComma(gone: set<string>, ms: List<Matcher>)
    ensures var b := StripBody(gone, ToBody(ms, false, false));
      EatComma(b) == b && DropTrailing(b) == b && (b.Item? <==> Kept(gone, ms).Cons?)
  {
    if ms.Cons? {
      assert EatComma(ToBody(ms.tail, true, false)) == ToBody(ms.tail, false, false);
      StripNoComma(gone, ms.tail);
      StripTrim(gone, ToBody(ms.tail, true, false));
      DropNone(ms.tail, true);
    }
  }

  lemma {:induction false} DropNone(ms: List<Matcher>, comma: bool)
    ensures DropTrailing(ToBody(ms, comma, false)) == ToBody(ms, comma, false)
  {
    if ms.Cons? { DropNone(ms.tail, true); }
  }

  lemma {:induction false} RunStrip(gone: set<string>, ms: List<Matcher>)
    ensures StripBody(gone, ToBody(ms, true, false)) == ToBody(Kept(gone, ms), true, false) <==> RunThenGone(gone, ms)
  {
    if ms.Cons? {
      if ms.head.name in gone {
        assert EatComma(ToBody(ms.tail, true, false)) == ToBody(ms.tail, false, false);
        StripNoComma(gone, ms.tail);
        KeptNone(gone, ms.tail);
        KeptNone(gone, ms);
      } else {
        RunStrip(gone, ms.tail);
      }
    }
  }

  lemma {:induction false} LeadingStrip(gone: set<string>, ms: List<Matcher>)
    ensures StripBody(gone, ToBody(ms, false, false)) == ToBody(Kept(gone, ms), false, false) <==> AtEnds(gone, ms)
  {
    if ms.Cons? {
      if ms.head.name in gone {
        assert EatComma(ToBody(ms.tail, true, false)) == ToBody(ms.tail, false, false);
        LeadingStrip(gone, ms.tail);
      } else {
        RunStrip(gone, ms.tail);
      }
    }
  }

  lemma {:induction false} TrailingDropped(ms: List<Matcher>, comma: bool, trailing: bool)
    ensures DropTrailing(ToBody(ms, comma, trailing)) == ToBody(ms, comma, false)
  {
    if ms.Cons? { TrailingDropped(ms.tail, true, trailing); }
  }

  /** A label set ends up as the transformer would print it exactly when its
      scope matchers were at the ends. */
  lemma ScopedBody(scope: Scope, ms: List<Matcher>, trailing: bool)
    ensures ScopeBody(scope, ToBody(ms, false, trailing))
         == ToBody(ScopeMatchers(scope, Kept(Labels(scope), ms)), false, false)
        <==> AtEnds(Labels(scope), ms)
  {
    var gone := Labels(scope);
    var stripped := StripBody(gone, ToBody(ms, false, trailing));
    StripTrim(gone, ToBody(ms, false, trailing));
    TrailingDropped(ms, false, trailing);
    DropThenEat(gone, stripped);
    StripNoComma(gone, ms);
    NoTrailingLeft(StripBody(gone, ToBody(ms, false, false)));
    LeadingStrip(gone, ms);
    PrependMatchers(scope, StripBody(gone, ToBody(ms, false, false)), Kept(gone, ms));
  }

  lemma {:induction false} PrependMatchers(scope: Scope, b: Body, kept: List<Matcher>)
    requires (b.Item? ==> !b.comma) && (b.Item? <==> kept.Cons?) && NoTrailing(b)
    ensures Prepend(scope, b) == ToBody(ScopeMatchers(scope, kept), false, false) <==> b == ToBody(kept, false, false)
    ensures Prepend(scope, b).Item? ==> !Prepend(scope, b).comma
    ensures WithComma(Prepend(scope, b)) == ToBody(ScopeMatchers(scope, kept), true, false) <==> b == ToBody(kept, false, false)
  {
    if scope != [] { PrependMatchers(scope[1..], b, kept); }
  }
}
