/** The LogQL side of the rewriter: scope filters go right behind the stream
    selector, and filter stages on scope labels are taken out first. */
module LogQL {
  import opened Common
  import opened QueryTokens

  const BAR: Token := Op("|")

  // ----- the program's passes -----

  /** `| name op "literal"`, wherever it stands. */
  function Strip(name: string, ts: Tokens): Tokens
    decreases Count(ts)
  {
    match ts
    case Nil => Nil
    case Cons(t, rest) =>
      if t == BAR && StartsTerm(name, rest) then
        assert Count(rest) == 1 + Count(rest.tail) && Count(rest.tail) == 1 + Count(rest.tail.tail);
        Strip(name, rest.tail.tail.tail)
      else Cons(t, Strip(name, rest))
  }

  function StripAll(scope: Scope, ts: Tokens): Tokens {
    if scope == [] then ts else StripAll(scope[1..], Strip(scope[0].name, ts))
  }

  /** `| l1="v1" | l2="v2" ...` in front of `rest`. */
  function EmitFilters(scope: Scope, rest: Tokens): Tokens {
    if scope == [] then rest
    else Cons(BAR, Cons(Word(scope[0].name), Cons(Op("="), Cons(Str(scope[0].value), EmitFilters(scope[1..], rest)))))
  }

  function InjectScope(query: Tokens, given: Scope): Tokens {
    var scope := Effective(given);
    if query.Nil? || scope == [] then query
    else
      var stripped := StripAll(scope, query);
      if stripped.Cons? && stripped.head.LBrace? && Has(RBrace, stripped) then
        Append(Before(RBrace, stripped), Cons(RBrace, EmitFilters(scope, After(RBrace, stripped))))
      else
        Cons(LBrace, Cons(Word(scope[0].name), Cons(Op("="), Cons(Str(scope[0].value),
          Cons(RBrace, EmitFilters(scope[1..], stripped))))))
  }

  // ----- pipelines -----

  /** A label filter may chain further comparisons with `and` / `or`. */
  datatype Link = Link(conj: bool, m: Matcher)

  datatype Stage =
    | Line(sym: string, text: string)                   // |= "x"
    | Filter(m: Matcher, more: List<Link>)              // | a="x" or b="y"
    | Other(name: string, args: List<Token>)            // | json, | line_format "..."

  datatype Pipeline = Pipeline(selector: Option<List<Matcher>>, stages: List<Stage>)

  function EmitMatcher(m: Matcher, rest: Tokens): Tokens {
    Cons(Word(m.name), Cons(Op(m.op), Cons(Str(m.value), rest)))
  }

  function EmitMatchers(ms: List<Matcher>, rest: Tokens): Tokens {
    match ms
    case Nil => rest
    case Cons(m, more) => EmitMatcher(m, if more.Nil? then rest else Cons(Comma, EmitMatchers(more, rest)))
  }

  function EmitLinks(links: List<Link>, rest: Tokens): Tokens {
    match links
    case Nil => rest
    case Cons(l, more) => Cons(Word(if l.conj then "and" else "or"), EmitMatcher(l.m, EmitLinks(more, rest)))
  }

  function EmitStage(s: Stage, rest: Tokens): Tokens {
    match s
    case Line(sym, text) => Cons(Op(sym), Cons(Str(text), rest))
    case Filter(m, more) => Cons(BAR, EmitMatcher(m, EmitLinks(more, rest)))
    case Other(name, args) => Cons(BAR, Cons(Word(name), Append(args, rest)))
  }

  /** The stages' text after stripping the labels `gone`: a filter on one of them
      loses its first comparison, and only that. */
  function EmitCut(gone: set<string>, stages: List<Stage>, rest: Tokens): Tokens {
    match stages
    case Nil => rest
    case Cons(s, more) =>
      var after := EmitCut(gone, more, rest);
      if s.Filter? && s.m.name in gone then EmitLinks(s.more, after) else EmitStage(s, after)
  }

  function EmitSelector(selector: Option<List<Matcher>>, rest: Tokens): Tokens {
    if selector.None? then rest else Cons(LBrace, EmitMatchers(selector.value, Cons(RBrace, rest)))
  }

  function Print(p: Pipeline): Tokens { EmitSelector(p.selector, EmitCut({}, p.stages, Nil)) }

  predicate NoBar(ts: Tokens) {
    ts.Cons? ==> ts.head != BAR && !ts.head.LBrace? && !ts.head.RBrace? && NoBar(ts.tail)
  }

  predicate LinksOk(links: List<Link>) {
    links.Cons? ==> IsMatcherOp(links.head.m.op) && LinksOk(links.tail)
  }

  /** The text of a stage reads back as that stage: a stage the program does not look
      into must not start like a comparison on a scope label. */
  predicate StageOk(labels: set<string>, s: Stage) {
    match s
    case Line(sym, _) => sym in {"|=", "!=", "|~", "!~"}
    case Filter(m, more) => IsMatcherOp(m.op) && LinksOk(more)
    case Other(name, args) =>
      NoBar(args) && (name in labels ==> args.Cons? && !(args.head.Op? && IsMatcherOp(args.head.sym)))
  }

  predicate StagesOk(labels: set<string>, stages: List<Stage>) {
    stages.Cons? ==> StageOk(labels, stages.head) && StagesOk(labels, stages.tail)
  }

  predicate MatchersOk(ms: List<Matcher>) {
    ms.Cons? ==> IsMatcherOp(ms.head.op) && MatchersOk(ms.tail)
  }

  predicate WellFormed(labels: set<string>, p: Pipeline) {
    StagesOk(labels, p.stages) && (p.selector.Some? ==> MatchersOk(p.selector.value))
  }

  // ----- stripping, pass by pass -----

  lemma {:induction false} StripLinks(name: string, links: List<Link>, rest: Tokens)
    requires LinksOk(links)
    ensures Strip(name, EmitLinks(links, rest)) == EmitLinks(links, Strip(name, rest))
  {
    if links.Cons? {
      var after := EmitLinks(links.tail, rest);
      StripLinks(name, links.tail, rest);
      assert Strip(name, Cons(Str(links.head.m.value), after)) == Cons(Str(links.head.m.value), Strip(name, after));
      assert Strip(name, EmitMatcher(links.head.m, after)) == EmitMatcher(links.head.m, Strip(name, after));
    }
  }

  lemma {:induction false} StripArgs(name: string, args: Tokens, rest: Tokens)
    requires NoBar(args)
    ensures Strip(name, Append(args, rest)) == Append(args, Strip(name, rest))
  {
    if args.Cons? { StripArgs(name, args.tail, rest); }
  }

  lemma StripStage(name: string, labels: set<string>, s: Stage, rest: Tokens)
    requires StageOk(labels, s) && name in labels
    ensures Strip(name, EmitStage(s, rest))
         == if s.Filter? && s.m.name == name then EmitLinks(s.more, Strip(name, rest)) else EmitStage(s, Strip(name, rest))
  {
    match s
    case Line(_, text) =>
      assert Strip(name, Cons(Str(text), rest)) == Cons(Str(text), Strip(name, rest));
    case Filter(m, more) =>
      StripLinks(name, more, rest);
      var after := EmitLinks(more, rest);
      assert Strip(name, Cons(Str(m.value), after)) == Cons(Str(m.value), Strip(name, after));
      assert Strip(name, Cons(Op(m.op), Cons(Str(m.value), after))) == Cons(Op(m.op), Cons(Str(m.value), Strip(name, after)));
    case Other(word, args) =>
      StripArgs(name, args, rest);
      assert Strip(name, Cons(Word(word), Append(args, rest))) == Cons(Word(word), Append(args, Strip(name, rest)));
  }

  /** One pass takes out one label; no pass makes a new match. */
  lemma {:induction false} StripCut(name: string, labels: set<string>, gone: set<string>, stages: List<Stage>, rest: Tokens)
    requires StagesOk(labels, stages) && name in labels
    ensures Strip(name, EmitCut(gone, stages, rest)) == EmitCut(gone + {name}, stages, Strip(name, rest))
  {
    if stages.Cons? {
      var s, after := stages.head, EmitCut(gone, stages.tail, rest);
      StripCut(name, labels, gone, stages.tail, rest);
      if s.Filter? && s.m.name in gone { StripLinks(name, s.more, after); } else { StripStage(name, labels, s, after); }
    }
  }

  lemma {:induction false} StripMatchers(name: string, ms: List<Matcher>, rest: Tokens)
    requires MatchersOk(ms)
    ensures Strip(name, EmitMatchers(ms, rest)) == EmitMatchers(ms, Strip(name, rest))
  {
    if ms.Cons? {
      var after := if ms.tail.Nil? then rest else Cons(Comma, EmitMatchers(ms.tail, rest));
      StripMatchers(name, ms.tail, rest);
      assert Strip(name, Cons(Str(ms.head.value), after)) == Cons(Str(ms.head.value), Strip(name, after));
      assert Strip(name, EmitMatcher(ms.head, after)) == EmitMatcher(ms.head, Strip(name, after));
    }
  }

  lemma StripSelector(name: string, selector: Option<List<Matcher>>, rest: Tokens)
    requires selector.Some? ==> MatchersOk(selector.value)
    ensures Strip(name, EmitSelector(selector, rest)) == EmitSelector(selector, Strip(name, rest))
  {
    if selector.Some? {
      StripMatchers(name, selector.value, Cons(RBrace, rest));
      assert Strip(name, Cons(RBrace, rest)) == Cons(RBrace, Strip(name, rest));
    }
  }

  /** All passes, on a text in which some labels may be cut already: `first` stands
      for filters an earlier rewrite put in front. */
  lemma {:induction false} StripAllCut(labels: set<string>, scope: Scope, sel: Option<List<Matcher>>,
                                       first: List<Stage>, g1: set<string>, stages: List<Stage>, g2: set<string>)
    requires StagesOk(labels, first) && StagesOk(labels, stages) && Labels(scope) <= labels
    requires sel.Some? ==> MatchersOk(sel.value)
    ensures StripAll(scope, EmitSelector(sel, EmitCut(g1, first, EmitCut(g2, stages, Nil))))
         == EmitSelector(sel, EmitCut(g1 + Labels(scope), first, EmitCut(g2 + Labels(scope), stages, Nil)))
  {
    if scope == [] {
      assert g1 + Labels(scope) == g1 && g2 + Labels(scope) == g2;
    } else {
      var name := scope[0].name;
      var text := EmitCut(g2, stages, Nil);
      assert scope[0] in scope && name in Labels(scope);
      assert Labels(scope) == {name} + Labels(scope[1..]);
      StripSelector(name, sel, EmitCut(g1, first, text));
      StripCut(name, labels, g1, first, text);
      StripCut(name, labels, g2, stages, Nil);
      StripAllCut(labels, scope[1..], sel, first, g1 + {name}, stages, g2 + {name});
      assert g1 + {name} + Labels(scope[1..]) == g1 + Labels(scope) && g2 + {name} + Labels(scope[1..]) == g2 + Labels(scope);
    }
  }

  lemma {:induction false} SelectorEnds(ms: List<Matcher>, rest: Tokens)
    ensures var ts := EmitMatchers(ms, Cons(RBrace, rest));
      Has(RBrace, ts) && Before(RBrace, ts) == EmitMatchers(ms, Nil) && After(RBrace, ts) == rest
  {
    if ms.Cons? {
      SelectorEnds(ms.tail, rest);
      var inner := if ms.tail.Nil? then Cons(RBrace, rest) else Cons(Comma, EmitMatchers(ms.tail, Cons(RBrace, rest)));
      assert Has(RBrace, inner) && After(RBrace, inner) == rest;
      assert Before(RBrace, inner) == if ms.tail.Nil? then Nil else Cons(Comma, EmitMatchers(ms.tail, Nil));
      var t2 := Cons(Str(ms.head.value), inner);
      assert Has(RBrace, t2) && After(RBrace, t2) == rest;
      var t1 := Cons(Op(ms.head.op), t2);
      assert Has(RBrace, t1) && After(RBrace, t1) == rest && Before(RBrace, t1) == Cons(Op(ms.head.op), Before(RBrace, t2));
    }
  }

  lemma {:induction false} Rejoin(ms: List<Matcher>, rest: Tokens)
    ensures Append(EmitMatchers(ms, Nil), rest) == EmitMatchers(ms, rest)
  {
    if ms.Cons? {
      Rejoin(ms.tail, rest);
      var inner := if ms.tail.Nil? then Nil else Cons(Comma, EmitMatchers(ms.tail, Nil));
      assert Append(inner, rest) == if ms.tail.Nil? then rest else Cons(Comma, EmitMatchers(ms.tail, rest));
      assert Append(Cons(Str(ms.head.value), inner), rest) == Cons(Str(ms.head.value), Append(inner, rest));
      assert Append(EmitMatcher(ms.head, inner), rest) == EmitMatcher(ms.head, Append(inner, rest));
    }
  }

  /** Without a selector, stripped stages never look like one. */
  lemma {:induction false} NoBraceInFront(gone: set<string>, labels: set<string>, stages: List<Stage>)
    requires StagesOk(labels, stages)
    ensures var ts := EmitCut(gone, stages, Nil); ts.Nil? || !ts.head.LBrace?
  {
    if stages.Cons? { NoBraceInFront(gone, labels, stages.tail); }
  }

  // ----- what the program returns -----

  /** Behind a selector the filters go right after it. */
  lemma InsertedBehind(given: Scope, query: Tokens, ms: List<Matcher>, text: Tokens)
    requires Effective(given) != [] && query.Cons?
    requires StripAll(Effective(given), query) == EmitSelector(Some(ms), text)
    ensures InjectScope(query, given) == EmitSelector(Some(ms), EmitFilters(Effective(given), text))
  {
    SelectorEnds(ms, text);
    Rejoin(ms, Cons(RBrace, EmitFilters(Effective(given), text)));
  }

  /** The text returned, for any pipeline that already carries filters `first`. */
  lemma Returned(given: Scope, sel: Option<List<Matcher>>, first: List<Stage>, stages: List<Stage>, g: set<string>)
    requires Effective(given) != [] && (first.Cons? ==> sel.Some? && g == Labels(Effective(given)))
    requires StagesOk(Labels(Effective(given)), first) && StagesOk(Labels(Effective(given)), stages)
    requires sel.Some? ==> MatchersOk(sel.value)
    requires sel.Some? || EmitCut(g, stages, Nil).Cons?
    ensures var scope := Effective(given);
      var text := EmitCut(Labels(scope), first, EmitCut(g + Labels(scope), stages, Nil));
      InjectScope(EmitSelector(sel, EmitCut({}, first, EmitCut(g, stages, Nil))), given)
        == if sel.Some? then EmitSelector(sel, EmitFilters(scope, text))
           else EmitSelector(Some(Cons(Matcher(scope[0].name, "=", scope[0].value), Nil)), EmitFilters(scope[1..], text))
  {
    var scope := Effective(given);
    var labels := Labels(scope);
    var text := EmitCut(labels, first, EmitCut(g + labels, stages, Nil));
    StripAllCut(labels, scope, sel, first, {}, stages, g);
    assert {} + labels == labels;
    if sel.Some? {
      InsertedBehind(given, EmitSelector(sel, EmitCut({}, first, EmitCut(g, stages, Nil))), sel.value, text);
    } else {
      NoBraceInFront(g + labels, labels, stages);
    }
  }

  function FilterStages(scope: Scope): List<Stage> {
    if scope == [] then Nil
    else Cons(Filter(Matcher(scope[0].name, "=", scope[0].value), Nil), FilterStages(scope[1..]))
  }

  lemma {:induction false} FiltersAreStages(scope: Scope, labels: set<string>, rest: Tokens)
    requires Labels(scope) <= labels
    ensures EmitFilters(scope, rest) == EmitCut({}, FilterStages(scope), rest)
    ensures EmitCut(labels, FilterStages(scope), rest) == rest
    ensures StagesOk(labels, FilterStages(scope))
  {
    if scope != [] {
      assert scope[0] in scope && scope[0].name in Labels(scope);
      assert Labels(scope[1..]) <= Labels(scope);
      FiltersAreStages(scope[1..], labels, rest);
    }
  }

  lemma {:induction false} EmitJoined(gone: set<string>, xs: List<Stage>, ys: List<Stage>, rest: Tokens)
    ensures EmitCut(gone, Append(xs, ys), rest) == EmitCut(gone, xs, EmitCut(gone, ys, rest))
  {
    if xs.Cons? { EmitJoined(gone, xs.tail, ys, rest); }
  }

  /** The caller's stages without its own filters on scope labels. */
  function Kept(gone: set<string>, stages: List<Stage>): List<Stage> {
    match stages
    case Nil => Nil
    case Cons(s, more) => if s.Filter? && s.m.name in gone && s.more.Nil? then Kept(gone, more) else Cons(s, Kept(gone, more))
  }

  /** No filter that starts with a scope label goes on with `and` or `or`. */
  predicate Unchained(gone: set<string>, stages: List<Stage>) {
    stages.Cons? ==>
      && (stages.head.Filter? && stages.head.m.name in gone ==> stages.head.more.Nil?)
      && Unchained(gone, stages.tail)
  }

  /** The tree transformer: every scope label becomes a filter behind the selector. */
  function Scoped(scope: Scope, p: Pipeline): Pipeline {
    Pipeline(p.selector, Append(FilterStages(scope), Kept(Labels(scope), p.stages)))
  }

  lemma {:induction false} CountLinks(links: List<Link>, a: Tokens, b: Tokens)
    ensures Count(EmitLinks(links, a)) - Count(a) == Count(EmitLinks(links, b)) - Count(b) >= 0
  {
    if links.Cons? {
      CountLinks(links.tail, a, b);
      CountMatcher(links.head.m, EmitLinks(links.tail, a));
      CountMatcher(links.head.m, EmitLinks(links.tail, b));
    }
  }

  lemma CountMatcher(m: Matcher, rest: Tokens)
    ensures Count(EmitMatcher(m, rest)) == 3 + Count(rest)
  {
    assert Count(Cons(Op(m.op), Cons(Str(m.value), rest))) == 1 + Count(Cons(Str(m.value), rest));
  }

  lemma {:induction false} CountArgs(args: Tokens, rest: Tokens)
    ensures Count(Append(args, rest)) == Count(args) + Count(rest)
  {
    if args.Cons? { CountArgs(args.tail, rest); }
  }

  lemma CountStage(s: Stage, a: Tokens, b: Tokens)
    ensures Count(EmitStage(s, a)) - Count(a) == Count(EmitStage(s, b)) - Count(b)
    ensures s.Filter? ==> Count(EmitStage(s, a)) == 4 + Count(EmitLinks(s.more, a))
  {
    match s
    case Line(_, text) => assert Count(Cons(Str(text), a)) - Count(a) == Count(Cons(Str(text), b)) - Count(b);
    case Filter(m, more) =>
      CountLinks(more, a, b);
      CountMatcher(m, EmitLinks(more, a));
      CountMatcher(m, EmitLinks(more, b));
    case Other(name, args) =>
      CountArgs(args, a);
      CountArgs(args, b);
      assert Count(Cons(Word(name), Append(args, a))) == 1 + Count(Append(args, a));
      assert Count(Cons(Word(name), Append(args, b))) == 1 + Count(Append(args, b));
  }

  /** Stripping prints exactly the kept stages when no filter is chained behind a
      scope label; otherwise it prints fewer tokens. */
  lemma {:induction false} CutIsKept(gone: set<string>, stages: List<Stage>)
    ensures Unchained(gone, stages) ==> EmitCut(gone, stages, Nil) == EmitCut({}, Kept(gone, stages), Nil)
    ensures !Unchained(gone, stages) ==> Count(EmitCut(gone, stages, Nil)) < Count(EmitCut({}, Kept(gone, stages), Nil))
  {
    if stages.Cons? {
      var s := stages.head;
      CutIsKept(gone, stages.tail);
      var cut, kept := EmitCut(gone, stages.tail, Nil), EmitCut({}, Kept(gone, stages.tail), Nil);
      CountStage(s, cut, kept);
      if s.Filter? { CountLinks(s.more, cut, kept); }
    }
  }

  lemma {:induction false} CountFilters(scope: Scope, a: Tokens, b: Tokens)
    requires Count(a) < Count(b)
    ensures Count(EmitFilters(scope, a)) < Count(EmitFilters(scope, b))
  {
    if scope != [] {
      CountFilters(scope[1..], a, b);
      var m := Matcher(scope[0].name, "=", scope[0].value);
      CountMatcher(m, EmitFilters(scope[1..], a));
      CountMatcher(m, EmitFilters(scope[1..], b));
    }
  }

  lemma {:induction false} CountMatchers(ms: List<Matcher>, a: Tokens, b: Tokens)
    ensures Count(EmitMatchers(ms, a)) - Count(a) == Count(EmitMatchers(ms, b)) - Count(b)
  {
    if ms.Cons? {
      CountMatchers(ms.tail, a, b);
      CountMatcher(ms.head, if ms.tail.Nil? then a else Cons(Comma, EmitMatchers(ms.tail, a)));
      CountMatcher(ms.head, if ms.tail.Nil? then b else Cons(Comma, EmitMatchers(ms.tail, b)));
    }
  }

  lemma CountSelector(sel: Option<List<Matcher>>, a: Tokens, b: Tokens)
    ensures Count(EmitSelector(sel, a)) - Count(a) == Count(EmitSelector(sel, b)) - Count(b)
  {
    if sel.Some? { CountMatchers(sel.value, Cons(RBrace, a), Cons(RBrace, b)); }
  }

  /** For every pipeline with a stream selector, the rewritten text is the scoped
      pipeline's text exactly when no scope-label filter goes on with `and` or `or`. */
  lemma RewriteIsScoped(given: Scope, p: Pipeline)
    requires Effective(given) != [] && WellFormed(Labels(Effective(given)), p) && p.selector.Some?
    ensures InjectScope(Print(p), given) == Print(Scoped(Effective(given), p))
       <==> Unchained(Labels(Effective(given)), p.stages)
  {
    var scope := Effective(given);
    var gone := Labels(scope);
    Returned(given, p.selector, Nil, p.stages, {});
    assert {} + gone == gone;
    var cut, kept := EmitCut(gone, p.stages, Nil), EmitCut({}, Kept(gone, p.stages), Nil);
    FiltersAreStages(scope, gone, kept);
    EmitJoined({}, FilterStages(scope), Kept(gone, p.stages), Nil);
    CutIsKept(gone, p.stages);
    if !Unchained(gone, p.stages) {
      CountFilters(scope, cut, kept);
      CountSelector(p.selector, EmitFilters(scope, cut), EmitFilters(scope, kept));
    }
  }

  /** The later scope decides exactly when the query has a stream selector: without
      one, the first rewrite turns a scope label into a selector, which stays. */
  lemma LastScopeWins(g1: Scope, g2: Scope, p: Pipeline)
    requires Effective(g1) != [] && Effective(g2) != [] && Labels(Effective(g1)) == Labels(Effective(g2))
    requires WellFormed(Labels(Effective(g1)), p) && Print(p).Cons?
    ensures InjectScope(InjectScope(Print(p), g1), g2) == InjectScope(Print(p), g2) <==> p.selector.Some?
  {
    var s1, s2 := Effective(g1), Effective(g2);
    var gone := Labels(s1);
    var text := EmitCut(gone, p.stages, Nil);
    assert {} + gone == gone && gone + gone == gone;
    Returned(g1, p.selector, Nil, p.stages, {});
    Returned(g2, p.selector, Nil, p.stages, {});
    if p.selector.Some? {
      FiltersAreStages(s1, gone, text);
      Returned(g2, p.selector, FilterStages(s1), p.stages, gone);
    } else {
      assert Labels(s1[1..]) <= gone;
      FiltersAreStages(s1[1..], gone, text);
      var sel := Some(Cons(Matcher(s1[0].name, "=", s1[0].value), Nil));
      Returned(g2, sel, FilterStages(s1[1..]), p.stages, gone);
      var m := Matcher(s2[0].name, "=", s2[0].value);
      CountMatcher(m, EmitFilters(s2[1..], text));
      CountSelector(sel, EmitFilters(s2, text), EmitFilters(s2[1..], text));
      CountMatchers(Cons(m, Nil), Cons(RBrace, EmitFilters(s2[1..], text)), Cons(RBrace, EmitFilters(s2[1..], text)));
    }
  }
}
