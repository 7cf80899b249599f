/** The TraceQL side of the rewriter: comparisons on scope attributes are taken out
    together with the connective behind them, and the scope is put in front of the
    filter with `&&`. */
module TraceQL {
  import opened Common
  import opened QueryTokens

  const DOT: Token := Op(".")
  const AND: Token := Op("&&")
  const OR: Token := Op("||")

  predicate IsConn(t: Token) { t == AND || t == OR }

  // ----- the program's passes -----

  /** The optional `span.`, `resource.` or `.` in front of an attribute. */
  function SkipPrefix(ts: Tokens): (r: Tokens)
    ensures Count(r) <= Count(ts)
  {
    if ts.Cons? && ts.head == DOT then ts.tail
    else if ts.Cons? && (ts.head == Word("span") || ts.head == Word("resource")) && ts.tail.Cons? && ts.tail.head == DOT then
      assert Count(ts.tail) == 1 + Count(ts.tail.tail);
      ts.tail.tail
    else ts
  }

  predicate StartsScoped(name: string, ts: Tokens) { StartsTerm(name, SkipPrefix(ts)) }

  function AfterScoped(name: string, ts: Tokens): (r: Tokens)
    requires StartsScoped(name, ts)
    ensures Count(r) < Count(ts)
  {
    var term := SkipPrefix(ts);
    assert Count(term.tail) == 1 + Count(term.tail.tail);
    var rest := term.tail.tail.tail;
    assert Count(term.tail.tail) == 1 + Count(rest);
    if rest.Cons? && IsConn(rest.head) then rest.tail else rest
  }

  function Strip(name: string, ts: Tokens): Tokens
    decreases Count(ts)
  {
    match ts
    case Nil => Nil
    case Cons(t, rest) =>
      if StartsScoped(name, ts) then Strip(name, AfterScoped(name, ts)) else Cons(t, Strip(name, rest))
  }

  function StripAll(scope: Scope, ts: Tokens): Tokens {
    if scope == [] then ts else StripAll(scope[1..], Strip(scope[0].name, ts))
  }

  function CleanOpen(ts: Tokens): Tokens {
    match ts
    case Nil => Nil
    case Cons(t, rest) =>
      if t.LBrace? && rest.Cons? && IsConn(rest.head) then Cons(LBrace, CleanOpen(rest.tail))
      else Cons(t, CleanOpen(rest))
  }

  function CleanClose(ts: Tokens): Tokens {
    match ts
    case Nil => Nil
    case Cons(t, rest) =>
      if IsConn(t) && rest.Cons? && rest.head.RBrace? then Cons(RBrace, CleanClose(rest.tail))
      else Cons(t, CleanClose(rest))
  }

  /** `span.l1 = "v1" && span.l2 = "v2" ...` in front of `rest`. */
  function EmitScope(scope: Scope, rest: Tokens): Tokens {
    if scope == [] then rest
    else
      var tail := if |scope| == 1 then rest else Cons(AND, EmitScope(scope[1..], rest));
      Cons(Word("span"), Cons(DOT, Cons(Word(scope[0].name), Cons(Op("="), Cons(Str(scope[0].value), tail)))))
  }

  function InjectScope(query: Tokens, given: Scope): Tokens {
    var scope := Effective(given);
    if query.Nil? || scope == [] then query
    else
      var clean := CleanClose(CleanOpen(StripAll(scope, query)));
      if clean.Cons? && clean.head.LBrace? && Has(RBrace, clean.tail) then
        var inner, tail := Before(RBrace, clean.tail), After(RBrace, clean.tail);
        Cons(LBrace, EmitScope(scope, if inner.Nil? then Cons(RBrace, tail) else Cons(AND, Append(inner, Cons(RBrace, tail)))))
      else
        Cons(LBrace, EmitScope(scope, Cons(RBrace, Nil)))
  }

  // ----- filters -----

  datatype Prefix = Bare | Dot | Span | Resource

  /** `value` is a string literal, or a number, duration or keyword. */
  datatype Term =
    | Compare(prefix: Prefix, path: List<string>, sym: string, value: Token)
    | Group(inner: Chain)

  datatype Chain = One(t: Term) | More(t: Term, conj: bool, rest: Chain)

  /** `{ ... }` and whatever pipeline follows it. */
  datatype Query = Query(filter: Option<Chain>, tail: Tokens)

  function EmitPath(path: List<string>, rest: Tokens): Tokens {
    match path
    case Nil => rest
    case Cons(w, more) => Cons(Word(w), if more.Nil? then rest else Cons(DOT, EmitPath(more, rest)))
  }

  function EmitPrefix(p: Prefix, rest: Tokens): Tokens {
    match p
    case Bare => rest
    case Dot => Cons(DOT, rest)
    case Span => Cons(Word("span"), Cons(DOT, rest))
    case Resource => Cons(Word("resource"), Cons(DOT, rest))
  }

  function EmitTerm(t: Term, rest: Tokens): Tokens
    decreases t, 1
  {
    match t
    case Compare(prefix, path, sym, value) => EmitPrefix(prefix, EmitPath(path, Cons(Op(sym), Cons(value, rest))))
    case Group(inner) => Cons(LParen(true), EmitCut({}, inner, Cons(RParen, rest)))
  }

  /** A comparison the strip pattern takes out. */
  predicate IsScoped(gone: set<string>, t: Term) {
    t.Compare? && t.path.Cons? && t.path.tail.Nil? && t.path.head in gone && IsMatcherOp(t.sym) && t.value.Str?
  }

  /** The chain's text after stripping `gone`: each comparison taken out takes its connective along. */
  function EmitCut(gone: set<string>, c: Chain, rest: Tokens): Tokens
    decreases c, 0
  {
    match c
    case One(t) => if IsScoped(gone, t) then rest else EmitTerm(t, rest)
    case More(t, conj, more) =>
      var after := EmitCut(gone, more, rest);
      if IsScoped(gone, t) then after else EmitTerm(t, Cons(if conj then AND else OR, after))
  }

  function Print(q: Query): Tokens {
    Cons(LBrace, if q.filter.None? then Cons(RBrace, q.tail) else EmitCut({}, q.filter.value, Cons(RBrace, q.tail)))
  }

  predicate PathOk(labels: set<string>, path: List<string>) {
    path.Cons? && (if path.tail.Nil? then true else (path.tail.tail.Nil? ==> path.tail.head !in labels) && PathOk(labels, path.tail))
  }

  /** A longer attribute must not end in a scope label, and parentheses must not hold
      a comparison on one: the pattern would take out part of them. */
  predicate TermOk(labels: set<string>, t: Term)
    decreases t, 1
  {
    match t
    case Compare(_, path, sym, value) =>
      PathOk(labels, path) && sym != "." && sym != "&&" && sym != "||" && (value.Str? || value.Lit?)
    case Group(inner) => ChainOk(labels, inner) && ScopeFree(labels, inner)
  }

  predicate ChainOk(labels: set<string>, c: Chain)
    decreases c, 0
  {
    TermOk(labels, c.t) && (c.More? ==> ChainOk(labels, c.rest))
  }

  predicate ScopeFree(labels: set<string>, c: Chain) {
    !IsScoped(labels, c.t) && (c.More? ==> ScopeFree(labels, c.rest))
  }

  /** What follows the filter is a pipeline: no further filter, no scope label. */
  predicate TailOk(labels: set<string>, ts: Tokens) {
    ts.Cons? ==>
      && !ts.head.LBrace? && !ts.head.RBrace? && !(ts.head.Word? && ts.head.name in labels)
      && TailOk(labels, ts.tail)
  }

  predicate WellFormed(labels: set<string>, q: Query) {
    TailOk(labels, q.tail) && (q.filter.Some? ==> ChainOk(labels, q.filter.value))
  }

  // ----- stripping, pass by pass -----

  lemma StripOperand(name: string, sym: string, value: Token, rest: Tokens)
    requires sym != "." && (value.Str? || value.Lit?)
    ensures Strip(name, Cons(Op(sym), Cons(value, rest))) == Cons(Op(sym), Cons(value, Strip(name, rest)))
  {
    assert Strip(name, Cons(value, rest)) == Cons(value, Strip(name, rest));
  }

  /** An attribute that is not a scope comparison keeps its text, alone or behind a dot. */
  lemma {:induction false} StripPath(name: string, labels: set<string>, path: List<string>, sym: string, value: Token, rest: Tokens)
    requires PathOk(labels, path) && name in labels && sym != "." && (value.Str? || value.Lit?)
    requires path.tail.Nil? ==> !(path.head == name && IsMatcherOp(sym) && value.Str?)
    ensures var was, now := EmitPath(path, Cons(Op(sym), Cons(value, rest))), EmitPath(path, Cons(Op(sym), Cons(value, Strip(name, rest))));
      Strip(name, was) == now && Strip(name, Cons(DOT, was)) == Cons(DOT, now)
  {
    var ts := Cons(Op(sym), Cons(value, rest));
    StripOperand(name, sym, value, rest);
    if path.tail.Cons? {
      StripPath(name, labels, path.tail, sym, value, rest);
      assert EmitPath(path, ts).tail == Cons(DOT, EmitPath(path.tail, ts));
    }
    assert Strip(name, EmitPath(path, ts)) == EmitPath(path, Cons(Op(sym), Cons(value, Strip(name, rest))));
  }

  lemma {:induction false} StripOther(name: string, labels: set<string>, t: Term, rest: Tokens)
    requires TermOk(labels, t) && name in labels && !IsScoped({name}, t)
    ensures Strip(name, EmitTerm(t, rest)) == EmitTerm(t, Strip(name, rest))
    decreases t, 1
  {
    match t
    case Compare(prefix, path, sym, value) =>
      StripPath(name, labels, path, sym, value, rest);
      var text := EmitPath(path, Cons(Op(sym), Cons(value, rest)));
      if prefix.Span? || prefix.Resource? {
        assert Strip(name, EmitPrefix(prefix, text)) == EmitPrefix(prefix, Strip(name, text));
      }
    case Group(inner) =>
      assert Strip(name, Cons(RParen, rest)) == Cons(RParen, Strip(name, rest));
      StripFree(name, labels, inner, Cons(RParen, rest));
  }

  lemma {:induction false} StripFree(name: string, labels: set<string>, c: Chain, rest: Tokens)
    requires ChainOk(labels, c) && ScopeFree(labels, c) && name in labels
    requires rest.Cons? && rest.head.RParen?
    ensures Strip(name, EmitCut({}, c, rest)) == EmitCut({}, c, Strip(name, rest))
    decreases c, 0
  {
    match c
    case One(t) => StripOther(name, labels, t, rest);
    case More(t, conj, more) =>
      var after := EmitCut({}, more, rest);
      StripFree(name, labels, more, rest);
      var conn := if conj then AND else OR;
      assert Strip(name, Cons(conn, after)) == Cons(conn, Strip(name, after));
      StripOther(name, labels, t, Cons(conn, after));
  }

  lemma StripScoped(name: string, t: Term, rest: Tokens)
    requires IsScoped({name}, t)
    ensures Strip(name, EmitTerm(t, rest)) == Strip(name, if rest.Cons? && IsConn(rest.head) then rest.tail else rest)
  {
    var term := Cons(Word(name), Cons(Op(t.sym), Cons(t.value, rest)));
    assert EmitPath(t.path, Cons(Op(t.sym), Cons(t.value, rest))) == term;
    assert SkipPrefix(EmitPrefix(t.prefix, term)) == term || (t.prefix.Bare? && SkipPrefix(term) == term);
    assert AfterScoped(name, EmitTerm(t, rest)) == if rest.Cons? && IsConn(rest.head) then rest.tail else rest;
  }

  /** One pass takes out one label; no pass makes a new match. */
  lemma {:induction false} StripCut(name: string, labels: set<string>, gone: set<string>, c: Chain, rest: Tokens)
    requires ChainOk(labels, c) && name in labels && rest.Cons? && !IsConn(rest.head)
    ensures Strip(name, EmitCut(gone, c, rest)) == EmitCut(gone + {name}, c, Strip(name, rest))
  {
    match c
    case One(t) =>
      if !IsScoped(gone, t) { if IsScoped({name}, t) { StripScoped(name, t, rest); } else { StripOther(name, labels, t, rest); } }
    case More(t, conj, more) =>
      var after := EmitCut(gone, more, rest);
      var conn := if conj then AND else OR;
      StripCut(name, labels, gone, more, rest);
      if !IsScoped(gone, t) {
        if IsScoped({name}, t) {
          StripScoped(name, t, Cons(conn, after));
        } else {
          assert Strip(name, Cons(conn, after)) == Cons(conn, Strip(name, after));
          StripOther(name, labels, t, Cons(conn, after));
        }
      }
  }

  lemma {:induction false} StripTail(name: string, labels: set<string>, ts: Tokens)
    requires TailOk(labels, ts) && name in labels
    ensures Strip(name, ts) == ts
  {
    if ts.Cons? {
      StripTail(name, labels, ts.tail);
      assert TailOk(labels, ts.tail) && (ts.tail.Cons? ==> TailOk(labels, ts.tail.tail));
    }
  }

  /** All passes. */
  lemma {:induction false} StripAllCut(labels: set<string>, scope: Scope, gone: set<string>, c: Chain, tail: Tokens)
    requires ChainOk(labels, c) && TailOk(labels, tail) && Labels(scope) <= labels
    ensures StripAll(scope, Cons(LBrace, EmitCut(gone, c, Cons(RBrace, tail))))
         == Cons(LBrace, EmitCut(gone + Labels(scope), c, Cons(RBrace, tail)))
  {
    if scope == [] {
      assert gone + Labels(scope) == gone;
    } else {
      var name := scope[0].name;
      assert scope[0] in scope && name in Labels(scope) && Labels(scope) == {name} + Labels(scope[1..]);
      StripTail(name, labels, tail);
      var close := Cons(RBrace, tail);
      assert Strip(name, close) == Cons(RBrace, Strip(name, tail));
      StripCut(name, labels, gone, c, close);
      assert Strip(name, Cons(LBrace, EmitCut(gone, c, close))) == Cons(LBrace, Strip(name, EmitCut(gone, c, close)));
      StripAllCut(labels, scope[1..], gone + {name}, c, tail);
      assert gone + {name} + Labels(scope[1..]) == gone + Labels(scope);
    }
  }

  // ----- cleaning up -----

  /** The comparisons that stay, with the connectives between them. */
  function Kept(gone: set<string>, c: Chain): Option<Chain> {
    match c
    case One(t) => if IsScoped(gone, t) then None else Some(c)
    case More(t, conj, more) =>
      var rest := Kept(gone, more);
      if IsScoped(gone, t) then rest
      else if rest.None? then Some(One(t)) else Some(More(t, conj, rest.value))
  }

  /** No brace, and no connective at the end. */
  predicate Solid(ts: Tokens) {
    ts.Cons? ==>
      && !ts.head.LBrace? && !ts.head.RBrace? && (IsConn(ts.head) ==> ts.tail.Cons?)
      && Solid(ts.tail)
  }

  lemma {:induction false} SolidJoins(a: Tokens, b: Tokens)
    requires Solid(a) && Solid(b)
    ensures Solid(Append(a, b))
  {
    if a.Cons? { SolidJoins(a.tail, b); }
  }

  lemma {:induction false} AppendTwice(a: Tokens, b: Tokens, c: Tokens)
    ensures Append(Append(a, b), c) == Append(a, Append(b, c))
  {
    if a.Cons? { AppendTwice(a.tail, b, c); }
  }

  lemma {:induction false} PathText(path: List<string>, sym: string, value: Token, rest: Tokens)
    requires sym != "&&" && sym != "||" && (value.Str? || value.Lit?)
    ensures var text := EmitPath(path, Cons(Op(sym), Cons(value, Nil)));
      text.Cons? && Solid(text) && Append(text, rest) == EmitPath(path, Cons(Op(sym), Cons(value, rest)))
  {
    var last := Cons(value, Nil);
    assert Append(last, rest) == Cons(value, Append(Nil, rest));
    assert Solid(last) && Solid(Cons(Op(sym), last));
    assert Append(Cons(Op(sym), last), rest) == Cons(Op(sym), Append(last, rest));
    if path.Cons? && path.tail.Cons? {
      PathText(path.tail, sym, value, rest);
      var text := EmitPath(path.tail, Cons(Op(sym), last));
      assert Solid(Cons(DOT, text)) && Append(Cons(DOT, text), rest) == Cons(DOT, Append(text, rest));
    }
  }

  /** A term's text is a block of its own. */
  lemma {:induction false} TermText(labels: set<string>, t: Term, rest: Tokens)
    requires TermOk(labels, t)
    ensures var text := EmitTerm(t, Nil);
      text.Cons? && Solid(text) && !IsConn(text.head) && Append(text, rest) == EmitTerm(t, rest)
    decreases t, 1
  {
    match t
    case Compare(prefix, path, sym, value) =>
      PathText(path, sym, value, rest);
      var text := EmitPath(path, Cons(Op(sym), Cons(value, Nil)));
      assert Solid(Cons(DOT, text)) && Append(Cons(DOT, text), rest) == Cons(DOT, Append(text, rest));
    case Group(inner) =>
      ChainText(labels, inner, Cons(RParen, rest));
      ChainText(labels, inner, Cons(RParen, Nil));
      var text := EmitCut({}, inner, Nil);
      SolidJoins(text, Cons(RParen, Nil));
      AppendTwice(text, Cons(RParen, Nil), rest);
      assert Append(Cons(RParen, Nil), rest) == Cons(RParen, Append(Nil, rest));
  }

  lemma {:induction false} ChainText(labels: set<string>, c: Chain, rest: Tokens)
    requires ChainOk(labels, c)
    ensures var text := EmitCut({}, c, Nil);
      text.Cons? && Solid(text) && !IsConn(text.head) && Append(text, rest) == EmitCut({}, c, rest)
    decreases c, 0
  {
    match c
    case One(t) => TermText(labels, t, rest);
    case More(t, conj, more) =>
      ChainText(labels, more, rest);
      var conn := if conj then AND else OR;
      var after := EmitCut({}, more, Nil);
      TermText(labels, t, Cons(conn, after));
      TermText(labels, t, Cons(conn, Append(after, rest)));
      var text := EmitTerm(t, Nil);
      SolidJoins(text, Cons(conn, after));
      AppendTwice(text, Cons(conn, after), rest);
      assert Append(Cons(conn, after), rest) == Cons(conn, Append(after, rest));
  }

  lemma {:induction false} SolidStays(text: Tokens, rest: Tokens)
    requires Solid(text)
    ensures CleanOpen(Append(text, rest)) == Append(text, CleanOpen(rest))
    ensures CleanClose(Append(text, rest)) == Append(text, CleanClose(rest))
    ensures Has(RBrace, Append(text, rest)) == Has(RBrace, rest)
    ensures Before(RBrace, Append(text, rest)) == Append(text, Before(RBrace, rest))
    ensures Has(RBrace, rest) ==> After(RBrace, Append(text, rest)) == After(RBrace, rest)
  {
    if text.Cons? { SolidStays(text.tail, rest); }
  }

  lemma {:induction false} TailStays(labels: set<string>, ts: Tokens)
    requires TailOk(labels, ts)
    ensures CleanOpen(ts) == ts && CleanClose(ts) == ts
  {
    if ts.Cons? { TailStays(labels, ts.tail); }
  }

  function EmitKept(k: Option<Chain>, rest: Tokens): Tokens {
    if k.None? then rest else EmitCut({}, k.value, rest)
  }

  lemma {:induction false} KeptOk(labels: set<string>, gone: set<string>, c: Chain)
    requires ChainOk(labels, c)
    ensures var k := Kept(gone, c); k.Some? ==> ChainOk(labels, k.value)
  {
    if c.More? { KeptOk(labels, gone, c.rest); }
  }

  lemma {:induction false} CutCleans(labels: set<string>, gone: set<string>, c: Chain, tail: Tokens)
    requires ChainOk(labels, c) && TailOk(labels, tail)
    ensures var ts := EmitCut(gone, c, Cons(RBrace, tail));
      && ts.Cons? && !IsConn(ts.head) && (ts.head.RBrace? <==> Kept(gone, c).None?)
      && (Kept(gone, c).None? ==> ts == Cons(RBrace, tail))
      && CleanOpen(ts) == ts && CleanClose(ts) == EmitKept(Kept(gone, c), Cons(RBrace, tail))
  {
    var close := Cons(RBrace, tail);
    TailStays(labels, tail);
    assert CleanOpen(close) == Cons(RBrace, CleanOpen(tail)) && CleanClose(close) == Cons(RBrace, CleanClose(tail));
    match c
    case One(t) =>
      TermText(labels, t, close);
      SolidStays(EmitTerm(t, Nil), close);
    case More(t, conj, more) =>
      CutCleans(labels, gone, more, tail);
      var after := EmitCut(gone, more, close);
      if !IsScoped(gone, t) {
        var conn := if conj then AND else OR;
        var next := Cons(conn, after);
        TermText(labels, t, next);
        SolidStays(EmitTerm(t, Nil), next);
        TermText(labels, t, CleanClose(next));
        assert CleanOpen(next) == Cons(conn, CleanOpen(after));
        if after.head.RBrace? {
          assert CleanClose(next) == Cons(RBrace, CleanClose(tail));
        } else {
          assert CleanClose(next) == Cons(conn, CleanClose(after));
        }
      }
  }
}
