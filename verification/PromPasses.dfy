/** The passes of `inject_scope_promql` and `enforce_recency`, in order, each as
    one left-to-right scan over tokens. */
module PromPasses {
  import opened Common
  import opened QueryTokens

  const GROUPING: set<string> := {"by", "without", "on", "ignoring", "group_left", "group_right"}

  const RESERVED: set<string> := GROUPING + {
    "and", "or", "unless", "offset", "bool", "inf", "nan",
    "sum", "min", "max", "avg", "group", "stddev", "stdvar",
    "count", "count_values", "bottomk", "topk", "quantile", "limitk", "limit_ratio"
  }

  predicate Reserved(name: string) { Lower(name) in RESERVED }

  predicate Grouping(name: string) { Lower(name) in GROUPING }

  predicate NameStart(c: char) { 'a' <= c <= 'z' || 'A' <= c <= 'Z' || c == '_' }

  predicate WordChar(c: char) { NameStart(c) || '0' <= c <= '9' }

  /** What the identifier pattern takes as a whole where nothing but spaces, brackets and
      operators stand around it: any such text is a `Word` token. */
  predicate WordShaped(s: string) {
    s != "" && NameStart(s[0]) && WordChar(s[|s| - 1]) && forall c :: c in s ==> WordChar(c) || c == ':'
  }

  /** A label, a function or a keyword: no colon either. */
  predicate LabelShaped(s: string) {
    s != "" && NameStart(s[0]) && forall c :: c in s ==> WordChar(c)
  }

  /** A colon right behind a word character starts an identifier when a word character
      follows it: `:1m` in `5m:1m`. */
  predicate StepShaped(s: string) {
    |s| > 1 && s[0] == ':' && forall c :: c in s[1..] ==> WordChar(c)
  }

  /** A number or a duration: no identifier starts inside it, since every letter stands
      behind another word character. A lone colon stands for the one in a subquery. */
  predicate NumberLike(s: string) {
    && s != ""
    && (s == ":" || forall c :: c in s ==> WordChar(c) || c == '.' || c == '+' || c == '-')
    && forall i :: 0 <= i < |s| && NameStart(s[i]) ==> i > 0 && WordChar(s[i - 1])
  }

  /** An operator that is no word. */
  predicate Symbolic(s: string) {
    s != "" && forall c :: c in s ==> c in {'+', '-', '*', '/', '%', '^', '=', '!', '<', '>', '~', '@'}
  }

  predicate LabelNames(scope: Scope) { forall b :: b in scope ==> LabelShaped(b.name) }

  // ----- removing the caller's own scope matchers -----

  function SkipComma(ts: Tokens): (r: Tokens)
    ensures Count(r) <= Count(ts)
  {
    if ts.Cons? && ts.head.Comma? then ts.tail else ts
  }

  /** The strip pattern takes the comma before and the comma after a matcher. */
  predicate StartsMatcher(name: string, ts: Tokens) {
    StartsTerm(name, SkipComma(ts))
  }

  function AfterMatcher(name: string, ts: Tokens): (r: Tokens)
    requires StartsMatcher(name, ts)
    ensures Count(r) < Count(ts)
  {
    var term := SkipComma(ts);
    assert Count(term.tail) == 1 + Count(term.tail.tail);
    assert Count(term.tail.tail) == 1 + Count(term.tail.tail.tail);
    SkipComma(term.tail.tail.tail)
  }

  function Strip(name: string, ts: Tokens): Tokens
    decreases Count(ts)
  {
    match ts
    case Nil => Nil
    case Cons(t, rest) =>
      if StartsMatcher(name, ts) then Strip(name, AfterMatcher(name, ts))
      else Cons(t, Strip(name, rest))
  }

  function StripAll(scope: Scope, ts: Tokens): Tokens {
    if scope == [] then ts else StripAll(scope[1..], Strip(scope[0].name, ts))
  }

  // ----- tidying punctuation -----

  function TidyOpen(ts: Tokens): Tokens {
    match ts
    case Nil => Nil
    case Cons(t, rest) =>
      if t.LBrace? && rest.Cons? && rest.head.Comma? then Cons(LBrace, TidyOpen(rest.tail))
      else Cons(t, TidyOpen(rest))
  }

  function TidyClose(ts: Tokens): Tokens {
    match ts
    case Nil => Nil
    case Cons(t, rest) =>
      if t.Comma? && rest.Cons? && rest.head.RBrace? then Cons(RBrace, TidyClose(rest.tail))
      else Cons(t, TidyClose(rest))
  }

  function TidyPairs(ts: Tokens): Tokens {
    match ts
    case Nil => Nil
    case Cons(t, rest) =>
      if t.Comma? && rest.Cons? && rest.head.Comma? then Cons(Comma, TidyPairs(rest.tail))
      else Cons(t, TidyPairs(rest))
  }

  // ----- masking -----

  /** A clause keyword, its opening parenthesis, and everything to the first closing one. */
  function MaskGroups(ts: Tokens): Tokens
    decreases Count(ts)
  {
    match ts
    case Nil => Nil
    case Cons(t, rest) =>
      if t.Word? && Grouping(t.name) && rest.Cons? && rest.head.LParen? && Has(RParen, rest.tail) then
        var span := Cons(t, Cons(rest.head, Append(Before(RParen, rest.tail), Cons(RParen, Nil))));
        Cons(Masked(span), MaskGroups(After(RParen, rest.tail)))
      else
        Cons(t, MaskGroups(rest))
  }

  predicate ClosesFlat(ts: Tokens) {
    Has(RBrace, ts) && !Has(LBrace, Before(RBrace, ts))
  }

  function MaskBraces(ts: Tokens): Tokens
    decreases Count(ts)
  {
    match ts
    case Nil => Nil
    case Cons(t, rest) =>
      if t.LBrace? && ClosesFlat(rest) then
        var span := Cons(LBrace, Append(Before(RBrace, rest), Cons(RBrace, Nil)));
        Cons(Masked(span), MaskBraces(After(RBrace, rest)))
      else
        Cons(t, MaskBraces(rest))
  }

  // ----- adding the scope -----

  /** `l1="v1", l2="v2", ...` in front of `rest`. */
  function EmitScope(scope: Scope, rest: Tokens): Tokens {
    if scope == [] then rest
    else
      var tail := if |scope| == 1 then rest else Cons(Comma, EmitScope(scope[1..], rest));
      Cons(Word(scope[0].name), Cons(Op("="), Cons(Str(scope[0].value), tail)))
  }

  /** An optional metric name and a label set: the scope goes in front of what the braces hold. */
  function AddToBraces(scope: Scope, ts: Tokens): Tokens
    decreases Count(ts)
  {
    match ts
    case Nil => Nil
    case Cons(t, rest) =>
      if t.Word? && rest.Cons? && rest.head.LBrace? && Has(RBrace, rest.tail) then
        Cons(t, Braced(scope, Before(RBrace, rest.tail), AddToBraces(scope, After(RBrace, rest.tail))))
      else if t.LBrace? && Has(RBrace, rest) then
        Braced(scope, Before(RBrace, rest), AddToBraces(scope, After(RBrace, rest)))
      else
        Cons(t, AddToBraces(scope, rest))
  }

  function Braced(scope: Scope, inner: Tokens, rest: Tokens): Tokens {
    var held := if inner.Nil? then Cons(RBrace, rest) else Cons(Comma, Append(inner, Cons(RBrace, rest)));
    Cons(LBrace, EmitScope(scope, held))
  }

  predicate IsLabelSet(t: Token) { t.Masked? && t.span.Cons? && t.span.head.LBrace? }

  /** Remaining identifiers are metrics unless reserved, called with the parenthesis right
      behind them, or already carrying a label set. A label set stands directly behind its metric once the pass above has rewritten
      it; a grouping clause is a word of its own, so a space keeps it apart. */
  function AddToBare(scope: Scope, ts: Tokens): Tokens {
    match ts
    case Nil => Nil
    case Cons(t, rest) =>
      if t.Word? && !Reserved(t.name)
         && !(rest.Cons? && (rest.head == LParen(false) || rest.head.Str? || IsLabelSet(rest.head))) then
        Cons(t, Braced(scope, Nil, AddToBare(scope, rest)))
      else
        Cons(t, AddToBare(scope, rest))
  }

  // ----- the whole rewrite -----

  function Tidy(ts: Tokens): Tokens { TidyPairs(TidyClose(TidyOpen(ts))) }

  function InjectScope(query: Tokens, given: Scope): Tokens {
    var scope := Effective(given);
    if query.Nil? || scope == [] then query
    else
      var stripped := Tidy(StripAll(scope, query));
      var braced := AddToBraces(scope, MaskGroups(stripped));
      Restore(AddToBare(scope, MaskBraces(braced)))
  }

  // ----- recency -----

  /** No curly bracket, in the text of a literal either: the pattern runs on restored text. */
  predicate BraceFree(ts: Tokens) {
    match ts
    case Nil => true
    case Cons(t, rest) =>
      && !t.LBrace? && !t.RBrace? && !t.Masked?
      && (t.Str? ==> '{' !in t.value && '}' !in t.value)
      && BraceFree(rest)
  }

  /** A metric name, alone or with one label set, and nothing else. */
  predicate IsBareSelector(ts: Tokens) {
    && ts.Cons? && ts.head.Word?
    && (ts.tail.Cons? ==>
          && ts.tail.head.LBrace?
          && Has(RBrace, ts.tail.tail)
          && BraceFree(Before(RBrace, ts.tail.tail))
          && After(RBrace, ts.tail.tail).Nil?)
  }

  const WINDOW := "1m"

  function EnforceRecency(ts: Tokens): Tokens {
    if !IsBareSelector(ts) then ts
    else
      Cons(Word("last_over_time"), Cons(LParen(false),
        Append(ts, Cons(LBracket, Cons(Lit(WINDOW), Cons(RBracket, Cons(RParen, Nil)))))))
  }

  /** What the gateway sends upstream for a Prometheus query. */
  function RewriteQuery(query: Tokens, scope: Scope): Tokens {
    EnforceRecency(InjectScope(query, scope))
  }
}
