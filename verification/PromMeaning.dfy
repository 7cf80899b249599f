/** What a rewritten query means: the caller's query, without its own scope
    matchers, over the series of one scope only. Functions, aggregations and
    operators are whatever the engine says; only selectors read the database. */
module PromMeaning {
  import opened Common
  import opened QueryTokens
  import opened PromPasses
  import opened PromTree
  import opened PromScope
  import opened PromRecency

  datatype Series = Series(labels: map<string, string>, samples: seq<(real, real)>)

  type Database = set<Series>

  datatype Engine<!V> = Engine(
    number: string -> V,
    text: string -> V,
    select: (Database, Option<string>, Option<string>, real) -> V,
    steps: (string, Option<string>, Option<string>, real) -> seq<real>,
    over: (seq<V>, string, Option<string>, real) -> V,
    call: (string, List<V>) -> V,
    aggregate: (string, Option<Clause>, List<V>) -> V,
    binary: (string, bool, Option<Clause>, Option<Clause>, V, V) -> V,
    negate: V -> V,
    regex: (string, string) -> bool)

  /** A missing label reads as the empty string. */
  function LabelOf(s: Series, name: string): string {
    if name in s.labels then s.labels[name] else ""
  }

  predicate Satisfies<V>(eng: Engine<V>, s: Series, m: Matcher) {
    var v := LabelOf(s, m.name);
    if m.op == "=" then v == m.value
    else if m.op == "!=" then v != m.value
    else if m.op == "=~" then eng.regex(m.value, v)
    else !eng.regex(m.value, v)
  }

  predicate SatisfiesAll<V>(eng: Engine<V>, s: Series, ms: List<Matcher>) {
    ms.Cons? ==> Satisfies(eng, s, ms.head) && SatisfiesAll(eng, s, ms.tail)
  }

  function Matching<V>(eng: Engine<V>, metric: Option<string>, ms: List<Matcher>, db: Database): Database {
    set s | s in db && (metric.Some? ==> LabelOf(s, "__name__") == metric.value) && SatisfiesAll(eng, s, ms)
  }

  /** The value at one instant. A subquery is its inner query at each of the instants the
      engine steps through. */
  function Eval<V>(eng: Engine<V>, e: Expr, db: Database, now: real): V
    decreases e, 0
  {
    match e
    case Number(text) => eng.number(text)
    case Select(metric, _, _, range, offset) => eng.select(Matching(eng, metric, OwnMatchers(e), db), range, offset, now)
    case Subquery(inner, length, step, _, offset) =>
      eng.over(EvalAt(eng, inner, db, eng.steps(length, step, offset, now)), length, step, now)
    case Call(name, _, args) => eng.call(name, EvalArgs(eng, args, db, now))
    case Aggregate(op, clause, _, _, args) => eng.aggregate(op, clause, EvalArgs(eng, args, db, now))
    case Binary(left, sym, asBool, on, many, right) =>
      eng.binary(sym, asBool, on, many, Eval(eng, left, db, now), Eval(eng, right, db, now))
    case Negate(inner) => eng.negate(Eval(eng, inner, db, now))
    case Paren(_, inner) => Eval(eng, inner, db, now)
  }

  function EvalAt<V>(eng: Engine<V>, e: Expr, db: Database, times: seq<real>): seq<V>
    decreases e, 1, |times|
  {
    if times == [] then [] else [Eval(eng, e, db, times[0])] + EvalAt(eng, e, db, times[1..])
  }

  function EvalArgs<V>(eng: Engine<V>, args: List<Arg>, db: Database, now: real): List<V>
    decreases args, 1
  {
    match args
    case Nil => Nil
    case Cons(a, more) =>
      Cons(if a.Text? then eng.text(a.value) else Eval(eng, a.e, db, now), EvalArgs(eng, more, db, now))
  }

  predicate Belongs(s: Series, scope: Scope) {
    forall b :: b in scope ==> LabelOf(s, b.name) == b.value
  }

  function InScope(scope: Scope, db: Database): Database {
    set s | s in db && Belongs(s, scope)
  }

  /** The caller's query with its own scope matchers taken out. */
  function Unscoped(gone: set<string>, e: Expr): Expr
    decreases e, 0
  {
    match e
    case Number(_) => e
    case Select(_, matchers, _, _, _) =>
      if matchers.Some? then e.(matchers := Some(Kept(gone, matchers.value))) else e
    case Subquery(inner, length, step, attached, offset) => Subquery(Unscoped(gone, inner), length, step, attached, offset)
    case Call(name, far, args) => Call(name, far, UnscopedArgs(gone, args))
    case Aggregate(op, clause, clauseFirst, far, args) => Aggregate(op, clause, clauseFirst, far, UnscopedArgs(gone, args))
    case Binary(left, sym, asBool, on, many, right) =>
      Binary(Unscoped(gone, left), sym, asBool, on, many, Unscoped(gone, right))
    case Negate(inner) => Negate(Unscoped(gone, inner))
    case Paren(far, inner) => Paren(far, Unscoped(gone, inner))
  }

  function UnscopedArgs(gone: set<string>, args: List<Arg>): List<Arg>
    decreases args, 1
  {
    match args
    case Nil => Nil
    case Cons(a, more) => Cons(if a.Sub? then Sub(Unscoped(gone, a.e)) else a, UnscopedArgs(gone, more))
  }

  lemma {:induction false} ScopeSatisfied<V>(eng: Engine<V>, s: Series, scope: Scope, ms: List<Matcher>)
    ensures SatisfiesAll(eng, s, ScopeMatchers(scope, ms)) <==> Belongs(s, scope) && SatisfiesAll(eng, s, ms)
  {
    if scope != [] {
      ScopeSatisfied(eng, s, scope[1..], ms);
      assert Belongs(s, scope) <==> LabelOf(s, scope[0].name) == scope[0].value && Belongs(s, scope[1..]);
    }
  }

  lemma SelectionNarrows<V>(eng: Engine<V>, metric: Option<string>, scope: Scope, ms: List<Matcher>, db: Database)
    ensures Matching(eng, metric, ScopeMatchers(scope, ms), db) == Matching(eng, metric, ms, InScope(scope, db))
  {
    forall s | s in db
      ensures s in Matching(eng, metric, ScopeMatchers(scope, ms), db) <==> s in Matching(eng, metric, ms, InScope(scope, db))
    {
      ScopeSatisfied(eng, s, scope, ms);
    }
  }

  /** The scoped tree over everything is the caller's tree over one scope. */
  lemma {:induction false} ScopedMeaning<V>(eng: Engine<V>, scope: Scope, e: Expr, db: Database, now: real)
    ensures Eval(eng, Scoped(scope, e), db, now) == Eval(eng, Unscoped(Labels(scope), e), InScope(scope, db), now)
    decreases e, 0
  {
    match e
    case Number(_) =>
    case Select(metric, _, _, _, _) => SelectionNarrows(eng, metric, scope, Kept(Labels(scope), OwnMatchers(e)), db);
    case Subquery(inner, length, step, _, offset) =>
      ScopedMeaningAt(eng, scope, inner, db, eng.steps(length, step, offset, now));
    case Call(_, _, args) => ScopedArgsMeaning(eng, scope, args, db, now);
    case Aggregate(_, _, _, _, args) => ScopedArgsMeaning(eng, scope, args, db, now);
    case Binary(left, _, _, _, _, right) =>
      ScopedMeaning(eng, scope, left, db, now);
      ScopedMeaning(eng, scope, right, db, now);
    case Negate(inner) => ScopedMeaning(eng, scope, inner, db, now);
    case Paren(_, inner) => ScopedMeaning(eng, scope, inner, db, now);
  }

  lemma {:induction false} ScopedMeaningAt<V>(eng: Engine<V>, scope: Scope, e: Expr, db: Database, times: seq<real>)
    ensures EvalAt(eng, Scoped(scope, e), db, times) == EvalAt(eng, Unscoped(Labels(scope), e), InScope(scope, db), times)
    decreases e, 1, |times|
  {
    if times != [] {
      ScopedMeaning(eng, scope, e, db, times[0]);
      ScopedMeaningAt(eng, scope, e, db, times[1..]);
    }
  }

  lemma {:induction false} ScopedArgsMeaning<V>(eng: Engine<V>, scope: Scope, args: List<Arg>, db: Database, now: real)
    ensures EvalArgs(eng, ScopedArgs(scope, args), db, now)
         == EvalArgs(eng, UnscopedArgs(Labels(scope), args), InScope(scope, db), now)
    decreases args, 1
  {
    if args.Cons? {
      ScopedArgsMeaning(eng, scope, args.tail, db, now);
      if args.head.Sub? { ScopedMeaning(eng, scope, args.head.e, db, now); }
    }
  }

  /** The wrapper narrows the range, not the series read. */
  lemma RecentReadsSame<V>(eng: Engine<V>, scope: Scope, e: Expr, db: Database, now: real)
    ensures Eval(eng, Recent(Scoped(scope, e)), db, now) == Eval(eng, Recent(Scoped(scope, e)), InScope(scope, db), now)
  {
    var q := Scoped(scope, e);
    ScopedMeaning(eng, scope, e, db, now);
    ScopedMeaning(eng, scope, e, InScope(scope, db), now);
    assert InScope(scope, InScope(scope, db)) == InScope(scope, db);
    if IsInstant(q) && FreeMatchers(OwnMatchers(q)) {
      var ranged := q.(range := Some(WINDOW));
      var kept := Kept(Labels(scope), OwnMatchers(e));
      SelectionNarrows(eng, q.metric, scope, kept, db);
      SelectionNarrows(eng, q.metric, scope, kept, InScope(scope, db));
      assert EvalArgs(eng, Cons(Sub(ranged), Nil), db, now) == Cons(Eval(eng, ranged, db, now), Nil);
      assert EvalArgs(eng, Cons(Sub(ranged), Nil), InScope(scope, db), now)
          == Cons(Eval(eng, ranged, InScope(scope, db), now), Nil);
    }
  }

  /** The rewritten text is the printed scoped tree, and that tree over the whole
      database is the caller's query over the scope's series alone. */
  lemma RewrittenMeans<V>(eng: Engine<V>, given: Scope, e: Expr, db: Database, now: real)
    requires WellFormed(e) && Effective(given) != [] && LabelNames(Effective(given))
    requires Rewritable(Labels(Effective(given)), e)
    ensures var scope := Effective(given);
      && InjectScope(PrintExpr(e), given) == PrintExpr(Scoped(scope, e))
      && Eval(eng, Scoped(scope, e), db, now) == Eval(eng, Unscoped(Labels(scope), e), InScope(scope, db), now)
  {
    RewriteIsScoped(e, given);
    ScopedMeaning(eng, Effective(given), e, db, now);
  }

  /** No series outside the scope can change the answer to the text sent upstream. */
  lemma AnswersFromScopeOnly<V>(eng: Engine<V>, given: Scope, e: Expr, db1: Database, db2: Database, now: real)
    requires WellFormed(e) && Effective(given) != [] && LabelNames(Effective(given))
    requires Rewritable(Labels(Effective(given)), e) && !IsLoneWord(e)
    requires InScope(Effective(given), db1) == InScope(Effective(given), db2)
    ensures var q := Recent(Scoped(Effective(given), e));
      RewriteQuery(PrintExpr(e), given) == PrintExpr(q) && Eval(eng, q, db1, now) == Eval(eng, q, db2, now)
  {
    RewriteQueryIsScoped(e, given);
    RecentReadsSame(eng, Effective(given), e, db1, now);
    RecentReadsSame(eng, Effective(given), e, db2, now);
  }
}
