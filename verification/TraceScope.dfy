/** What the TraceQL rewriter returns for a single filter, and what it means. */
module TraceScope {
  import opened Common
  import opened QueryTokens
  import opened TraceQL

  function ScopeTerm(b: Binding): Term { Compare(Span, Cons(b.name, Nil), "=", Str(b.value)) }

  /** Every scope label, then the kept chain. */
  function ScopeChain(scope: Scope, k: Option<Chain>): Chain
    requires scope != []
  {
    if |scope| > 1 then More(ScopeTerm(scope[0]), true, ScopeChain(scope[1..], k))
    else if k.None? then One(ScopeTerm(scope[0]))
    else More(ScopeTerm(scope[0]), true, k.value)
  }

  function KeptOf(gone: set<string>, q: Query): Option<Chain> {
    if q.filter.None? then None else Kept(gone, q.filter.value)
  }

  /** The tree transformer. */
  function Scoped(scope: Scope, q: Query): Query
    requires scope != []
  {
    Query(Some(ScopeChain(scope, KeptOf(Labels(scope), q))), q.tail)
  }

  lemma {:induction false} ScopePrints(scope: Scope, k: Option<Chain>, rest: Tokens)
    requires scope != []
    ensures EmitCut({}, ScopeChain(scope, k), rest)
         == EmitScope(scope, if k.None? then rest else Cons(AND, EmitCut({}, k.value, rest)))
  {
    var b := scope[0];
    if |scope| > 1 {
      ScopePrints(scope[1..], k, rest);
    }
    var tail := if |scope| > 1 then Cons(AND, EmitCut({}, ScopeChain(scope[1..], k), rest))
                else if k.None? then rest else Cons(AND, EmitCut({}, k.value, rest));
    assert EmitPath(Cons(b.name, Nil), Cons(Op("="), Cons(Str(b.value), tail))) == Cons(Word(b.name), Cons(Op("="), Cons(Str(b.value), tail)));
    assert EmitCut({}, ScopeChain(scope, k), rest) == EmitTerm(ScopeTerm(b), tail);
  }

  lemma {:induction false} StripAllEmpty(labels: set<string>, scope: Scope, tail: Tokens)
    requires TailOk(labels, tail) && Labels(scope) <= labels
    ensures StripAll(scope, Cons(LBrace, Cons(RBrace, tail))) == Cons(LBrace, Cons(RBrace, tail))
  {
    if scope != [] {
      var name := scope[0].name;
      assert scope[0] in scope && name in Labels(scope) && Labels(scope[1..]) <= Labels(scope);
      StripTail(name, labels, tail);
      assert Strip(name, Cons(RBrace, tail)) == Cons(RBrace, Strip(name, tail));
      StripAllEmpty(labels, scope[1..], tail);
    }
  }

  /** The stripped and cleaned text of a filter is the text of its kept chain. */
  lemma CleanedText(scope: Scope, q: Query)
    requires WellFormed(Labels(scope), q)
    ensures CleanClose(CleanOpen(StripAll(scope, Print(q)))) == Cons(LBrace, EmitKept(KeptOf(Labels(scope), q), Cons(RBrace, q.tail)))
  {
    var labels := Labels(scope);
    var close := Cons(RBrace, q.tail);
    TailStays(labels, q.tail);
    if q.filter.None? {
      StripAllEmpty(labels, scope, q.tail);
      assert CleanOpen(close) == close && CleanClose(close) == close;
    } else {
      StripAllCut(labels, scope, {}, q.filter.value, q.tail);
      assert {} + labels == labels;
      CutCleans(labels, labels, q.filter.value, q.tail);
      var ts := EmitCut(labels, q.filter.value, close);
      assert CleanOpen(Cons(LBrace, ts)) == Cons(LBrace, CleanOpen(ts));
      assert CleanClose(Cons(LBrace, ts)) == Cons(LBrace, CleanClose(ts));
    }
  }

  /** For every single filter of the fragment, whatever connectives it uses: the
      text returned is that of the scoped filter. */
  lemma RewriteIsScoped(given: Scope, q: Query)
    requires Effective(given) != [] && WellFormed(Labels(Effective(given)), q)
    ensures InjectScope(Print(q), given) == Print(Scoped(Effective(given), q))
  {
    var scope := Effective(given);
    var labels := Labels(scope);
    var k := KeptOf(labels, q);
    var close := Cons(RBrace, q.tail);
    CleanedText(scope, q);
    ScopePrints(scope, k, close);
    if k.Some? {
      KeptOk(labels, labels, q.filter.value);
      ChainText(labels, k.value, close);
      SolidStays(EmitCut({}, k.value, Nil), close);
      assert Before(RBrace, close) == Nil && After(RBrace, close) == q.tail;
      AppendNil(EmitCut({}, k.value, Nil));
    }
  }

  lemma {:induction false} AppendNil(a: Tokens)
    ensures Append(a, Nil) == a
  {
    if a.Cons? { AppendNil(a.tail); }
  }

  // ----- rewriting twice -----

  lemma {:induction false} ScopeChainKept(scope: Scope, gone: set<string>, k: Option<Chain>)
    requires scope != [] && Labels(scope) <= gone
    ensures Kept(gone, ScopeChain(scope, k)) == if k.None? then None else Kept(gone, k.value)
  {
    assert scope[0] in scope && scope[0].name in Labels(scope) && Labels(scope[1..]) <= Labels(scope);
    assert IsScoped(gone, ScopeTerm(scope[0]));
    if |scope| > 1 { ScopeChainKept(scope[1..], gone, k); }
  }

  lemma {:induction false} KeptStays(gone: set<string>, c: Chain)
    ensures var k := Kept(gone, c); k.Some? ==> Kept(gone, k.value) == k
  {
    if c.More? { KeptStays(gone, c.rest); }
  }

  lemma {:induction false} ScopeChainOk(scope: Scope, labels: set<string>, k: Option<Chain>)
    requires scope != [] && (k.Some? ==> ChainOk(labels, k.value))
    ensures ChainOk(labels, ScopeChain(scope, k))
  {
    if |scope| > 1 { ScopeChainOk(scope[1..], labels, k); }
  }

  /** The later scope decides. */
  lemma LastScopeWins(g1: Scope, g2: Scope, q: Query)
    requires Effective(g1) != [] && Effective(g2) != [] && Labels(Effective(g1)) == Labels(Effective(g2))
    requires WellFormed(Labels(Effective(g1)), q)
    ensures InjectScope(InjectScope(Print(q), g1), g2) == InjectScope(Print(q), g2)
  {
    var s1, s2 := Effective(g1), Effective(g2);
    var gone := Labels(s1);
    var k := KeptOf(gone, q);
    RewriteIsScoped(g1, q);
    RewriteIsScoped(g2, q);
    if q.filter.Some? { KeptOk(gone, gone, q.filter.value); KeptStays(gone, q.filter.value); }
    ScopeChainOk(s1, gone, k);
    ScopeChainKept(s1, gone, k);
    RewriteIsScoped(g2, Scoped(s1, q));
  }

  /** A text that is no filter at all is replaced by the scope alone; rewriting that
      again leaves the later scope alone. */
  lemma NoFilterMeansScopeOnly(g1: Scope, g2: Scope, query: Tokens)
    requires Effective(g1) != [] && Effective(g2) != [] && Labels(Effective(g1)) == Labels(Effective(g2)) && query.Cons?
    requires var ts := CleanClose(CleanOpen(StripAll(Effective(g1), query))); ts.Nil? || !ts.head.LBrace?
    ensures InjectScope(query, g1) == Print(Query(Some(ScopeChain(Effective(g1), None)), Nil))
    ensures InjectScope(InjectScope(query, g1), g2) == Print(Query(Some(ScopeChain(Effective(g2), None)), Nil))
  {
    var s1 := Effective(g1);
    var q := Query(Some(ScopeChain(s1, None)), Nil);
    ScopePrints(s1, None, Cons(RBrace, Nil));
    ScopeChainOk(s1, Labels(s1), None);
    ScopeChainKept(s1, Labels(s1), None);
    RewriteIsScoped(g2, q);
  }

  // ----- meaning -----

  type Attributes = map<string, string>

  /** How single comparisons, and the pipeline behind the filter, are answered. */
  datatype Engine<!V> = Engine(
    compare: (Prefix, List<string>, string, Token, Attributes) -> bool,
    pipeline: (Tokens, set<Attributes>) -> V)

  predicate Holds<V>(eng: Engine<V>, t: Term, span: Attributes)
    decreases t, 1
  {
    match t
    case Compare(prefix, path, sym, value) => eng.compare(prefix, path, sym, value, span)
    case Group(inner) => HoldsAll(eng, true, inner, span)
  }

  /** `&&` binds tighter than `||`; `so` is the value of the current `&&` group. */
  predicate HoldsAll<V>(eng: Engine<V>, so: bool, c: Chain, span: Attributes)
    decreases c, 0
  {
    match c
    case One(t) => so && Holds(eng, t, span)
    case More(t, conj, more) =>
      if conj then HoldsAll(eng, so && Holds(eng, t, span), more, span)
      else (so && Holds(eng, t, span)) || HoldsAll(eng, true, more, span)
  }

  predicate Accepts<V>(eng: Engine<V>, k: Option<Chain>, span: Attributes) { k.None? || HoldsAll(eng, true, k.value, span) }

  function Found<V>(eng: Engine<V>, k: Option<Chain>, spans: set<Attributes>): set<Attributes> {
    set s | s in spans && Accepts(eng, k, s)
  }

  function Answer<V>(eng: Engine<V>, q: Query, spans: set<Attributes>): V {
    eng.pipeline(q.tail, Found(eng, q.filter, spans))
  }

  predicate Belongs<V>(eng: Engine<V>, scope: Scope, span: Attributes) {
    forall b :: b in scope ==> Holds(eng, ScopeTerm(b), span)
  }

  function InScope<V>(eng: Engine<V>, scope: Scope, spans: set<Attributes>): set<Attributes> {
    set s | s in spans && Belongs(eng, scope, s)
  }

  predicate OnlyAnd(c: Chain) { c.More? ==> c.conj && OnlyAnd(c.rest) }

  lemma {:induction false} ScopeThenChain<V>(eng: Engine<V>, so: bool, scope: Scope, k: Option<Chain>, span: Attributes)
    requires scope != []
    ensures HoldsAll(eng, so, ScopeChain(scope, k), span)
         == if k.None? then so && Belongs(eng, scope, span) else HoldsAll(eng, so && Belongs(eng, scope, span), k.value, span)
  {
    var here := so && Holds(eng, ScopeTerm(scope[0]), span);
    assert Belongs(eng, scope, span) <==> Holds(eng, ScopeTerm(scope[0]), span) && Belongs(eng, scope[1..], span);
    if |scope| > 1 { ScopeThenChain(eng, here, scope[1..], k, span); }
  }

  lemma {:induction false} AndChain<V>(eng: Engine<V>, so: bool, c: Chain, span: Attributes)
    requires OnlyAnd(c)
    ensures HoldsAll(eng, so, c, span) <==> so && HoldsAll(eng, true, c, span)
    decreases c
  {
    if c.More? {
      var here := Holds(eng, c.t, span);
      AndChain(eng, so && here, c.rest, span);
      AndChain(eng, here, c.rest, span);
    }
  }

  /** Everything holds except one scope comparison. */
  function Denying(b: Binding): Engine<bool> {
    Engine((prefix, path, sym, value, span) => Compare(prefix, path, sym, value) != ScopeTerm(b), (tail, spans) => spans != {})
  }

  lemma {:induction false} OthersHold(labels: set<string>, b: Binding, c: Chain, so: bool, span: Attributes)
    requires ChainOk(labels, c) && ScopeFree(labels, c) && b.name in labels && (so || !OnlyAnd(c))
    ensures HoldsAll(Denying(b), so, c, span)
    decreases c, 0
  {
    OtherHolds(labels, b, c.t, span);
    if c.More? {
      if c.conj { OthersHold(labels, b, c.rest, so, span); } else { OthersHold(labels, b, c.rest, true, span); }
    }
  }

  lemma {:induction false} OtherHolds(labels: set<string>, b: Binding, t: Term, span: Attributes)
    requires TermOk(labels, t) && !IsScoped(labels, t) && b.name in labels
    ensures Holds(Denying(b), t, span)
    decreases t, 1
  {
    if t.Group? { OthersHold(labels, b, t.inner, true, span); }
  }

  lemma {:induction false} KeptFree(gone: set<string>, c: Chain)
    ensures var k := Kept(gone, c); k.Some? ==> ScopeFree(gone, k.value)
  {
    if c.More? { KeptFree(gone, c.rest); }
  }

  /** When the kept comparisons are joined by `&&` only, the rewritten text answers the
      caller's filter, without its own scope comparisons, over one scope's spans. */
  lemma AndFiltersAreScoped<V>(eng: Engine<V>, given: Scope, q: Query, spans: set<Attributes>)
    requires Effective(given) != [] && WellFormed(Labels(Effective(given)), q)
    requires var k := KeptOf(Labels(Effective(given)), q); k.None? || OnlyAnd(k.value)
    ensures var scope := Effective(given);
      && InjectScope(Print(q), given) == Print(Scoped(scope, q))
      && Answer(eng, Scoped(scope, q), spans) == Answer(eng, Query(KeptOf(Labels(scope), q), q.tail), InScope(eng, scope, spans))
  {
    var scope := Effective(given);
    var k := KeptOf(Labels(scope), q);
    RewriteIsScoped(given, q);
    forall s | s in spans
      ensures Accepts(eng, Some(ScopeChain(scope, k)), s) <==> Belongs(eng, scope, s) && Accepts(eng, k, s)
    {
      ScopeThenChain(eng, true, scope, k, s);
      if k.Some? { AndChain(eng, Belongs(eng, scope, s), k.value, s); }
    }
    assert Found(eng, Scoped(scope, q).filter, spans) == Found(eng, k, InScope(eng, scope, spans));
  }

  /** When an `||` is left at the top, it takes the scope apart: some engine and some
      span show it, for every such filter. */
  lemma OrFiltersAreNot(given: Scope, q: Query, span: Attributes)
    requires Effective(given) != [] && WellFormed(Labels(Effective(given)), q)
    requires var k := KeptOf(Labels(Effective(given)), q); k.Some? && !OnlyAnd(k.value)
    ensures var scope := Effective(given);
      var eng := Denying(scope[0]);
      && InjectScope(Print(q), given) == Print(Scoped(scope, q))
      && !Belongs(eng, scope, span) && Accepts(eng, Scoped(scope, q).filter, span)
      && Answer(eng, Scoped(scope, q), {span}) && !Answer(eng, Query(KeptOf(Labels(scope), q), q.tail), InScope(eng, scope, {span}))
  {
    var scope := Effective(given);
    var labels := Labels(scope);
    var k := KeptOf(labels, q).value;
    var b := scope[0];
    RewriteIsScoped(given, q);
    assert b in scope && b.name in labels;
    assert !Holds(Denying(b), ScopeTerm(b), span);
    KeptFree(labels, q.filter.value);
    KeptOk(labels, labels, q.filter.value);
    OthersHold(labels, b, k, false, span);
    ScopeThenChain(Denying(b), true, scope, Some(k), span);
    var none := InScope(Denying(b), scope, {span});
    assert none == {};
    assert Found(Denying(b), Some(k), none) == {};
    assert span in Found(Denying(b), Scoped(scope, q).filter, {span});
  }
}
