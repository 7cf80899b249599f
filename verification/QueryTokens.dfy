/** Query text as the gateway's rewriter sees it, whitespace dropped but for the space in
    front of a parenthesis, which is all the PromQL identifier pass looks at.

    A string literal is one token from the start: the rewriter masks literals
    before anything else, so no later pass can look inside one. Later masks
    (grouping clauses, label sets) are `Masked` tokens that carry the span they
    hide; module Restoring proves on which texts the numbered placeholders the
    program uses instead restore exactly those spans. */
module QueryTokens {
  import opened Common

  datatype Token =
    | Word(name: string)
    | Op(sym: string)
    | Lit(text: string)
    | Str(value: string)
    | LParen(far: bool)                        // with a space in front, or not
    | RParen | LBrace | RBrace | LBracket | RBracket | Comma
    | Masked(span: List<Token>)

  type Tokens = List<Token>

  /** One label of the scope every query is pinned to. */
  datatype Binding = Binding(name: string, value: string)

  type Scope = seq<Binding>

  function Labels(scope: Scope): set<string> {
    set b | b in scope :: b.name
  }

  /** The scope entries that carry a value; the others are ignored. */
  function Effective(scope: Scope): (r: Scope)
    ensures forall b :: b in r <==> b in scope && b.value != ""
  {
    if scope == [] then []
    else if scope[0].value != "" then [scope[0]] + Effective(scope[1..])
    else Effective(scope[1..])
  }

  /** A comparison on one label, in any of the three languages. */
  datatype Matcher = Matcher(name: string, op: string, value: string)

  predicate IsMatcherOp(sym: string) {
    sym == "=~" || sym == "!~" || sym == "!=" || sym == "="
  }

  /** `name op "literal"` at the head of the text. */
  predicate StartsTerm(name: string, ts: Tokens) {
    && ts.Cons? && ts.head == Word(name)
    && ts.tail.Cons? && ts.tail.head.Op? && IsMatcherOp(ts.tail.head.sym)
    && ts.tail.tail.Cons? && ts.tail.tail.head.Str?
  }

  /** Whether `stop` occurs at all. */
  predicate Has(stop: Token, ts: Tokens) {
    match ts
    case Nil => false
    case Cons(t, rest) => t == stop || Has(stop, rest)
  }

  function Before(stop: Token, ts: Tokens): Tokens {
    match ts
    case Nil => Nil
    case Cons(t, rest) => if t == stop then Nil else Cons(t, Before(stop, rest))
  }

  function After(stop: Token, ts: Tokens): (r: Tokens)
    requires Has(stop, ts)
    ensures Count(r) < Count(ts)
  {
    if ts.head == stop then ts.tail else After(stop, ts.tail)
  }

  function Count(ts: Tokens): nat {
    match ts
    case Nil => 0
    case Cons(_, rest) => 1 + Count(rest)
  }

  /** Puts every masked span back, innermost spans included. */
  function Restore(ts: Tokens): Tokens {
    match ts
    case Nil => Nil
    case Cons(t, rest) =>
      match t
      case Masked(span) => Append(Restore(span), Restore(rest))
      case _ => Cons(t, Restore(rest))
  }
}
