/** A PromQL query as a flat sequence of phrases, and what each text pass does to it.

    The passes scan left to right, so each is followed phrase by phrase: the
    printed text is built in front of an arbitrary `rest`, and a pass over it is
    the phrase's own result in front of the pass over `rest`. */
module PromChunks {
  import opened Common
  import opened QueryTokens
  import opened PromPasses

  /** What stands between the braces: matchers, each with or without a comma in
      front of it, and perhaps a trailing comma. */
  datatype Body =
    | End(trailing: bool)
    | Item(comma: bool, m: Matcher, rest: Body)

  datatype Phrase =
    | Mark(t: Token)                                   // punctuation, operator, number, literal
    | Keyword(word: string)                            // operator or aggregation word standing alone
    | Func(name: string)                               // function name and its opening parenthesis
    | Group(word: string, far: bool, names: seq<string>)  // grouping clause
    | Sel(metric: Option<string>, body: Option<Body>)  // metric selector

  type Phrases = List<Phrase>

  // ----- printing -----

  function EmitBody(b: Body, rest: Tokens): Tokens {
    match b
    case End(trailing) => if trailing then Cons(Comma, rest) else rest
    case Item(comma, m, more) =>
      var item := Cons(Word(m.name), Cons(Op(m.op), Cons(Str(m.value), EmitBody(more, rest))));
      if comma then Cons(Comma, item) else item
  }

  function EmitNames(names: seq<string>, rest: Tokens): Tokens {
    if names == [] then rest
    else if |names| == 1 then Cons(Word(names[0]), rest)
    else Cons(Word(names[0]), Cons(Comma, EmitNames(names[1..], rest)))
  }

  function EmitGroup(word: string, far: bool, names: seq<string>, rest: Tokens): Tokens {
    Cons(Word(word), Cons(LParen(far), EmitNames(names, Cons(RParen, rest))))
  }

  function EmitBraces(b: Body, rest: Tokens): Tokens {
    Cons(LBrace, EmitBody(b, Cons(RBrace, rest)))
  }

  /** `groups` and `braces` say which spans are masked. */
  function EmitPhrase(p: Phrase, groups: bool, braces: bool, rest: Tokens): Tokens {
    match p
    case Mark(t) => Cons(t, rest)
    case Keyword(word) => Cons(Word(word), rest)
    case Func(name) => Cons(Word(name), Cons(LParen(false), rest))
    case Group(word, far, names) =>
      if groups then Cons(Masked(EmitGroup(word, far, names, Nil)), rest) else EmitGroup(word, far, names, rest)
    case Sel(metric, body) =>
      var labels :=
        if body.None? then rest
        else if braces then Cons(Masked(EmitBraces(body.value, Nil)), rest)
        else EmitBraces(body.value, rest);
      if metric.Some? then Cons(Word(metric.value), labels) else labels
  }

  function Emit(ps: Phrases, groups: bool, braces: bool): Tokens {
    match ps
    case Nil => Nil
    case Cons(p, more) => EmitPhrase(p, groups, braces, Emit(more, groups, braces))
  }

  /** The query as written. */
  function Print(ps: Phrases): Tokens { Emit(ps, false, false) }

  // ----- the fragment -----

  predicate GoodBody(b: Body) {
    b.Item? ==> IsMatcherOp(b.m.op) && LabelShaped(b.m.name) && GoodBody(b.rest)
  }

  predicate GoodNames(names: seq<string>) { forall name :: name in names ==> LabelShaped(name) }

  predicate GoodMark(t: Token) {
    match t
    case Op(sym) => Symbolic(sym)
    case Lit(text) => NumberLike(text)
    case _ => !t.Word? && !t.LBrace? && !t.RBrace? && !t.Masked?
  }

  predicate GoodPhrase(p: Phrase) {
    match p
    case Mark(t) => GoodMark(t)
    case Keyword(word) => Reserved(word) && !Grouping(word)
    case Func(name) => LabelShaped(name) && !Grouping(name)
    case Group(word, _, names) => Grouping(word) && GoodNames(names)
    case Sel(metric, body) =>
      && (metric.Some? ==> (WordShaped(metric.value) || StepShaped(metric.value)) && !Reserved(metric.value))
      && (body.Some? ==> GoodBody(body.value))
      && (metric.Some? || body.Some?)
  }

  /** Which phrases may follow which: no literal after an operator, no empty
      argument, and nothing that could be read as the label set or the argument
      list of a bare metric. */
  predicate MayFollow(p: Phrase, next: Phrase) {
    && (p.Mark? && p.t.Op? ==> !(next.Mark? && next.t.Str?))
    && (p.Mark? && p.t.Comma? ==> !(next.Mark? && next.t.Comma?))
    && (p.Sel? && p.body.None? ==>
          && !(next.Mark? && next.t.Str?) && !(next.Sel? && next.metric.None?)
          && (next.Mark? && next.t.LParen? ==> next.t.far && p.metric.Some? && LabelShaped(p.metric.value)))
  }

  predicate Linked(ps: Phrases) {
    ps.Cons? ==>
      && GoodPhrase(ps.head)
      && (ps.tail.Cons? ==> MayFollow(ps.head, ps.tail.head))
      && Linked(ps.tail)
  }

  // ----- what each pass does to a label set -----

  function EatComma(b: Body): (r: Body)
    ensures BodySize(r) == BodySize(b)
  {
    match b
    case End(_) => End(false)
    case Item(_, m, rest) => Item(false, m, rest)
  }

  /** Dropping a matcher also drops the comma of whatever came after it. */
  function StripBody(gone: set<string>, b: Body): Body
    decreases BodySize(b)
  {
    match b
    case End(_) => b
    case Item(comma, m, rest) =>
      if m.name in gone then StripBody(gone, EatComma(rest)) else Item(comma, m, StripBody(gone, rest))
  }

  function BodySize(b: Body): nat {
    match b
    case End(_) => 0
    case Item(_, _, rest) => 1 + BodySize(rest)
  }

  function DropTrailing(b: Body): Body {
    match b
    case End(_) => End(false)
    case Item(comma, m, rest) => Item(comma, m, DropTrailing(rest))
  }

  function WithComma(b: Body): Body {
    match b
    case End(_) => End(false)
    case Item(_, m, rest) => Item(true, m, rest)
  }

  /** The scope's own matchers in front of a tidied label set. */
  function Prepend(scope: Scope, b: Body): Body {
    if scope == [] then b
    else Item(false, Matcher(scope[0].name, "=", scope[0].value), WithComma(Prepend(scope[1..], b)))
  }

  function ScopeBody(scope: Scope, b: Body): Body {
    Prepend(scope, DropTrailing(EatComma(StripBody(Labels(scope), b))))
  }

  /** The rewrites a pass can make to a label set. */
  datatype Edit =
    | Remove(gone: set<string>)
    | CutLeading
    | CutTrailing
    | Add(scope: Scope)
    | Rescope(scope: Scope)
  {
    function Apply(b: Body): Body {
      match this
      case Remove(gone) => StripBody(gone, b)
      case CutLeading => EatComma(b)
      case CutTrailing => DropTrailing(b)
      case Add(scope) => Prepend(scope, b)
      case Rescope(scope) => ScopeBody(scope, b)
    }
  }

  function EditPhrase(e: Edit, p: Phrase): Phrase {
    if p.Sel? && p.body.Some? then Sel(p.metric, Some(e.Apply(p.body.value))) else p
  }

  function EditAll(e: Edit, ps: Phrases): Phrases {
    match ps
    case Nil => Nil
    case Cons(p, more) => Cons(EditPhrase(e, p), EditAll(e, more))
  }

  /** Gives every bare metric a label set holding the scope alone. */
  function FillBare(scope: Scope, ps: Phrases): Phrases {
    match ps
    case Nil => Nil
    case Cons(p, more) =>
      var q := if p.Sel? && p.body.None? then Sel(p.metric, Some(Prepend(scope, End(false)))) else p;
      Cons(q, FillBare(scope, more))
  }

  /** The intended result: every selector under the scope, nothing else touched. */
  function ScopePhrases(scope: Scope, ps: Phrases): Phrases {
    FillBare(scope, EditAll(Rescope(scope), ps))
  }

  // ----- label-set lemmas -----

  lemma {:induction false} StripBodyGood(gone: set<string>, b: Body)
    requires GoodBody(b)
    ensures GoodBody(StripBody(gone, b))
    decreases BodySize(b)
  {
    if b.Item? {
      if b.m.name in gone { StripBodyGood(gone, EatComma(b.rest)); } else { StripBodyGood(gone, b.rest); }
    }
  }

  lemma DropTrailingGood(b: Body)
    requires GoodBody(b)
    ensures GoodBody(DropTrailing(b))
  {}

  /** Passing over a label set removes the matchers on one label. */
  lemma {:induction false} StripOverBody(name: string, b: Body, rest: Tokens)
    requires GoodBody(b)
    ensures Strip(name, EmitBody(b, Cons(RBrace, rest))) == EmitBody(StripBody({name}, b), Cons(RBrace, Strip(name, rest)))
    decreases BodySize(b)
  {
    match b
    case End(trailing) =>
    case Item(comma, m, more) =>
      var after := EmitBody(more, Cons(RBrace, rest));
      if m.name == name {
        assert SkipComma(after) == EmitBody(EatComma(more), Cons(RBrace, rest));
        StripOverBody(name, EatComma(more), rest);
      } else {
        StripOverBody(name, more, rest);
        var value := Cons(Str(m.value), after);
        assert Strip(name, value) == Cons(Str(m.value), Strip(name, after));
        var term := Cons(Word(m.name), Cons(Op(m.op), value));
        assert Strip(name, term) == Cons(Word(m.name), Strip(name, Cons(Op(m.op), value)));
        if comma { assert Strip(name, Cons(Comma, term)) == Cons(Comma, Strip(name, term)); }
      }
  }

  lemma {:induction false} AppendBody(b: Body, mid: Tokens, rest: Tokens)
    ensures Append(EmitBody(b, mid), rest) == EmitBody(b, Append(mid, rest))
  {
    if b.Item? {
      AppendBody(b.rest, mid, rest);
      var value := Cons(Str(b.m.value), EmitBody(b.rest, mid));
      assert Append(value, rest) == Cons(Str(b.m.value), EmitBody(b.rest, Append(mid, rest)));
      var term := Cons(Word(b.m.name), Cons(Op(b.m.op), value));
      assert Append(term, rest) == Cons(Word(b.m.name), Cons(Op(b.m.op), Append(value, rest)));
      if b.comma { assert Append(Cons(Comma, term), rest) == Cons(Comma, Append(term, rest)); }
    }
  }

  lemma {:induction false} AppendNames(names: seq<string>, mid: Tokens, rest: Tokens)
    ensures Append(EmitNames(names, mid), rest) == EmitNames(names, Append(mid, rest))
  {
    if |names| > 1 {
      AppendNames(names[1..], mid, rest);
      var tail := EmitNames(names[1..], mid);
      assert Append(Cons(Comma, tail), rest) == Cons(Comma, Append(tail, rest));
    }
  }

  // ----- the passes over a whole query -----

  /** An operator or a literal at the head of the text is a phrase of its own. */
  lemma LoneToken(ps: Phrases)
    requires Linked(ps)
    ensures var ts := Print(ps);
      ts.Cons? && (ts.head.Op? || ts.head.Str? || ts.head.Comma? || ts.head.RBrace?) ==> ps.Cons? && ps.head == Mark(ts.head) && ts.tail == Print(ps.tail)
  {}

  /** Outside the braces no matcher ever starts. */
  lemma NoTerm(name: string, ps: Phrases)
    requires Linked(ps)
    ensures !StartsTerm(name, Print(ps))
  {
    if ps.Cons? {
      LoneToken(ps.tail);
      if ps.tail.Cons? { LoneToken(ps.tail.tail); }
    }
  }

  lemma StripBraces(name: string, b: Body, rest: Tokens)
    requires GoodBody(b)
    ensures Strip(name, EmitBraces(b, rest)) == EmitBraces(StripBody({name}, b), Strip(name, rest))
  {
    StripOverBody(name, b, rest);
    var braces := EmitBraces(b, rest);
    assert Strip(name, braces) == Cons(LBrace, Strip(name, braces.tail));
  }

  lemma {:induction false} StripOver(name: string, ps: Phrases)
    requires Linked(ps)
    ensures Strip(name, Print(ps)) == Print(EditAll(Remove({name}), ps))
  {
    if ps.Cons? {
      StripOver(name, ps.tail);
      NoTerm(name, ps);
      NoTerm(name, ps.tail);
      var rest := Print(ps.tail);
      match ps.head
      case Mark(t) =>
      case Keyword(word) =>
      case Func(f) =>
        assert Strip(name, Cons(LParen(false), rest)) == Cons(LParen(false), Strip(name, rest));
      case Group(word, far, names) =>
        StripOverNames(name, names, rest);
        assert !StartsMatcher(name, Cons(LParen(far), EmitNames(names, Cons(RParen, rest))));
      case Sel(metric, body) =>
        if body.Some? { StripBraces(name, body.value, rest); }
    }
  }

  lemma {:induction false} StripOverNames(name: string, names: seq<string>, rest: Tokens)
    ensures Strip(name, EmitNames(names, Cons(RParen, rest))) == EmitNames(names, Cons(RParen, Strip(name, rest)))
  {
    if names == [] {
    } else if |names| == 1 {
      assert Strip(name, Cons(RParen, rest)) == Cons(RParen, Strip(name, rest));
    } else {
      StripOverNames(name, names[1..], rest);
      var tail := EmitNames(names[1..], Cons(RParen, rest));
      assert tail.head == Word(names[1]) && tail.tail.Cons? && !tail.tail.head.Op?;
      assert Strip(name, Cons(Comma, tail)) == Cons(Comma, Strip(name, tail));
    }
  }

  lemma StripAllOver(scope: Scope, ps: Phrases)
    requires Linked(ps)
    ensures StripAll(scope, Print(ps)) == Print(EditAll(Remove(Labels(scope)), ps))
    decreases |scope|
  {
    if scope == [] {
      RemoveNothing(ps);
      assert Labels(scope) == {};
    } else {
      var first := {scope[0].name};
      StripOver(scope[0].name, ps);
      EditLinked(Remove(first), ps);
      StripAllOver(scope[1..], EditAll(Remove(first), ps));
      RemoveTwice(first, Labels(scope[1..]), ps);
      assert Labels(scope) == first + Labels(scope[1..]);
    }
  }

  lemma {:induction false} RemoveNothing(ps: Phrases)
    ensures EditAll(Remove({}), ps) == ps
  {
    if ps.Cons? {
      RemoveNothing(ps.tail);
      if ps.head.Sel? && ps.head.body.Some? { StripNothing(ps.head.body.value); }
    }
  }

  lemma {:induction false} StripNothing(b: Body)
    ensures StripBody({}, b) == b
  {
    if b.Item? { StripNothing(b.rest); }
  }

  /** Removing labels one at a time is removing them all at once. */
  lemma {:induction false} StripTwice(g: set<string>, h: set<string>, b: Body)
    ensures StripBody(h, StripBody(g, b)) == StripBody(g + h, b)
    decreases BodySize(b)
  {
    if b.Item? {
      StripTwice(g, h, b.rest);
      StripTwice(g, h, EatComma(b.rest));
      StripEat(g, b.rest);
      if b.m.name !in g && b.m.name in h { StripTwice(g, h, EatComma(b.rest)); }
    }
  }

  lemma {:induction false} StripEat(g: set<string>, b: Body)
    ensures EatComma(StripBody(g, b)) == StripBody(g, EatComma(b))
    decreases BodySize(b)
  {
    if b.Item? && b.m.name in g {
      StripEat(g, EatComma(b.rest));
      assert EatComma(EatComma(b.rest)) == EatComma(b.rest);
    }
  }

  lemma {:induction false} RemoveTwice(g: set<string>, h: set<string>, ps: Phrases)
    ensures EditAll(Remove(h), EditAll(Remove(g), ps)) == EditAll(Remove(g + h), ps)
  {
    if ps.Cons? {
      RemoveTwice(g, h, ps.tail);
      if ps.head.Sel? && ps.head.body.Some? { StripTwice(g, h, ps.head.body.value); }
    }
  }

  predicate GoodEdit(e: Edit) {
    match e
    case Add(scope) => LabelNames(scope)
    case Rescope(scope) => LabelNames(scope)
    case _ => true
  }

  lemma ApplyGood(e: Edit, b: Body)
    requires GoodBody(b) && GoodEdit(e)
    ensures GoodBody(e.Apply(b))
  {
    match e
    case Remove(gone) => StripBodyGood(gone, b);
    case CutLeading =>
    case CutTrailing => DropTrailingGood(b);
    case Add(scope) => PrependGood(scope, b);
    case Rescope(scope) =>
      StripBodyGood(Labels(scope), b);
      DropTrailingGood(EatComma(StripBody(Labels(scope), b)));
      PrependGood(scope, DropTrailing(EatComma(StripBody(Labels(scope), b))));
  }

  lemma PrependGood(scope: Scope, b: Body)
    requires GoodBody(b) && LabelNames(scope)
    ensures GoodBody(Prepend(scope, b))
  {}

  lemma {:induction false} EditLinked(e: Edit, ps: Phrases)
    requires Linked(ps) && GoodEdit(e)
    ensures Linked(EditAll(e, ps))
  {
    if ps.Cons? {
      EditLinked(e, ps.tail);
      if ps.head.Sel? && ps.head.body.Some? { ApplyGood(e, ps.head.body.value); }
    }
  }

  lemma {:induction false} TidyOpenBody(b: Body, rest: Tokens)
    ensures TidyOpen(EmitBody(b, Cons(RBrace, rest))) == EmitBody(b, Cons(RBrace, TidyOpen(rest)))
  {
    if b.Item? {
      TidyOpenBody(b.rest, rest);
      var value := Cons(Str(b.m.value), EmitBody(b.rest, Cons(RBrace, rest)));
      assert TidyOpen(value) == Cons(Str(b.m.value), TidyOpen(value.tail));
      var term := Cons(Word(b.m.name), Cons(Op(b.m.op), value));
      assert TidyOpen(term) == Cons(Word(b.m.name), Cons(Op(b.m.op), TidyOpen(value)));
    }
  }

  lemma TidyOpenNames(names: seq<string>, rest: Tokens)
    ensures TidyOpen(EmitNames(names, Cons(RParen, rest))) == EmitNames(names, Cons(RParen, TidyOpen(rest)))
  {}

  lemma TidyOpenBraces(b: Body, rest: Tokens)
    ensures TidyOpen(EmitBraces(b, rest)) == EmitBraces(EatComma(b), TidyOpen(rest))
  {
    TidyOpenBody(EatComma(b), rest);
  }

  lemma {:induction false} TidyOpenOver(ps: Phrases)
    requires Linked(ps)
    ensures TidyOpen(Print(ps)) == Print(EditAll(CutLeading, ps))
  {
    if ps.Cons? {
      TidyOpenOver(ps.tail);
      var rest := Print(ps.tail);
      match ps.head
      case Mark(t) =>
      case Keyword(word) =>
      case Func(f) =>
      case Group(word, far, names) => TidyOpenNames(names, rest);
      case Sel(metric, body) =>
        if body.Some? { TidyOpenBraces(body.value, rest); }
    }
  }

  lemma {:induction false} TidyCloseBody(b: Body, rest: Tokens)
    ensures TidyClose(EmitBody(b, Cons(RBrace, rest))) == EmitBody(DropTrailing(b), Cons(RBrace, TidyClose(rest)))
  {
    if b.Item? {
      TidyCloseBody(b.rest, rest);
      var value := Cons(Str(b.m.value), EmitBody(b.rest, Cons(RBrace, rest)));
      assert TidyClose(value) == Cons(Str(b.m.value), TidyClose(value.tail));
      var term := Cons(Word(b.m.name), Cons(Op(b.m.op), value));
      assert TidyClose(term) == Cons(Word(b.m.name), Cons(Op(b.m.op), TidyClose(value)));
    }
  }

  lemma TidyCloseNames(names: seq<string>, rest: Tokens)
    ensures TidyClose(EmitNames(names, Cons(RParen, rest))) == EmitNames(names, Cons(RParen, TidyClose(rest)))
  {}

  lemma {:induction false} TidyCloseOver(ps: Phrases)
    requires Linked(ps)
    ensures TidyClose(Print(ps)) == Print(EditAll(CutTrailing, ps))
  {
    if ps.Cons? {
      TidyCloseOver(ps.tail);
      LoneToken(ps.tail);
      var rest := Print(ps.tail);
      match ps.head
      case Mark(t) =>
      case Keyword(word) =>
      case Func(f) =>
      case Group(word, far, names) => TidyCloseNames(names, rest);
      case Sel(metric, body) =>
        if body.Some? { TidyCloseBody(body.value, rest); }
    }
  }

  lemma {:induction false} TidyPairsBody(b: Body, rest: Tokens)
    ensures TidyPairs(EmitBody(b, Cons(RBrace, rest))) == EmitBody(b, Cons(RBrace, TidyPairs(rest)))
  {
    if b.Item? {
      TidyPairsBody(b.rest, rest);
      var value := Cons(Str(b.m.value), EmitBody(b.rest, Cons(RBrace, rest)));
      assert TidyPairs(value) == Cons(Str(b.m.value), TidyPairs(value.tail));
      var term := Cons(Word(b.m.name), Cons(Op(b.m.op), value));
      assert TidyPairs(term) == Cons(Word(b.m.name), Cons(Op(b.m.op), TidyPairs(value)));
    }
  }

  lemma TidyPairsNames(names: seq<string>, rest: Tokens)
    ensures TidyPairs(EmitNames(names, Cons(RParen, rest))) == EmitNames(names, Cons(RParen, TidyPairs(rest)))
  {}

  /** Nothing in the fragment leaves two commas side by side. */
  lemma {:induction false} TidyPairsOver(ps: Phrases)
    requires Linked(ps)
    ensures TidyPairs(Print(ps)) == Print(ps)
  {
    if ps.Cons? {
      TidyPairsOver(ps.tail);
      LoneToken(ps.tail);
      var rest := Print(ps.tail);
      match ps.head
      case Mark(t) =>
      case Keyword(word) =>
      case Func(f) =>
      case Group(word, far, names) => TidyPairsNames(names, rest);
      case Sel(metric, body) =>
        if body.Some? { TidyPairsBody(body.value, rest); }
    }
  }

  lemma {:induction names} NamesSpan(names: seq<string>, rest: Tokens)
    ensures var ts := EmitNames(names, Cons(RParen, rest));
      && Has(RParen, ts)
      && Append(Before(RParen, ts), Cons(RParen, Nil)) == EmitNames(names, Cons(RParen, Nil))
      && After(RParen, ts) == rest
  {}

  lemma {:induction false} MaskGroupsBody(b: Body, rest: Tokens)
    ensures MaskGroups(EmitBody(b, Cons(RBrace, rest))) == EmitBody(b, Cons(RBrace, MaskGroups(rest)))
  {
    if b.Item? {
      MaskGroupsBody(b.rest, rest);
      var value := Cons(Str(b.m.value), EmitBody(b.rest, Cons(RBrace, rest)));
      assert MaskGroups(value) == Cons(Str(b.m.value), MaskGroups(value.tail));
      var term := Cons(Word(b.m.name), Cons(Op(b.m.op), value));
      assert MaskGroups(term) == Cons(Word(b.m.name), Cons(Op(b.m.op), MaskGroups(value)));
    }
  }

  lemma MaskOneGroup(word: string, far: bool, names: seq<string>, rest: Tokens)
    requires Grouping(word)
    ensures MaskGroups(EmitGroup(word, far, names, rest)) == Cons(Masked(EmitGroup(word, far, names, Nil)), MaskGroups(rest))
  {
    NamesSpan(names, rest);
  }

  lemma MaskGroupsBraces(b: Body, rest: Tokens)
    ensures MaskGroups(EmitBraces(b, rest)) == EmitBraces(b, MaskGroups(rest))
  {
    MaskGroupsBody(b, rest);
    var braces := EmitBraces(b, rest);
    assert MaskGroups(braces) == Cons(LBrace, MaskGroups(braces.tail));
  }

  lemma {:induction false} MaskGroupsOver(ps: Phrases)
    requires Linked(ps)
    ensures MaskGroups(Print(ps)) == Emit(ps, true, false)
  {
    if ps.Cons? {
      MaskGroupsOver(ps.tail);
      var rest := Print(ps.tail);
      match ps.head
      case Mark(t) =>
      case Keyword(word) =>
      case Func(f) =>
        assert MaskGroups(Cons(LParen(false), rest)) == Cons(LParen(false), MaskGroups(rest));
      case Group(word, far, names) => MaskOneGroup(word, far, names, rest);
      case Sel(metric, body) =>
        if body.Some? { MaskGroupsBraces(body.value, rest); }
    }
  }

  predicate Tidied(b: Body) {
    (b.Item? ==> !b.comma) && NoTrailing(b)
  }

  predicate NoTrailing(b: Body) {
    match b
    case End(trailing) => !trailing
    case Item(_, _, rest) => NoTrailing(rest)
  }

  predicate AllTidied(ps: Phrases) {
    match ps
    case Nil => true
    case Cons(p, more) => (p.Sel? && p.body.Some? ==> Tidied(p.body.value)) && AllTidied(more)
  }

  lemma {:induction false} BodySpan(b: Body, rest: Tokens)
    ensures var ts := EmitBody(b, Cons(RBrace, rest));
      Has(RBrace, ts) && Before(RBrace, ts) == EmitBody(b, Nil) && After(RBrace, ts) == rest
    ensures !Has(LBrace, EmitBody(b, Nil))
  {
    if b.Item? {
      BodySpan(b.rest, rest);
      var value := Cons(Str(b.m.value), EmitBody(b.rest, Cons(RBrace, rest)));
      assert Has(RBrace, value) && Before(RBrace, value) == Cons(Str(b.m.value), EmitBody(b.rest, Nil)) && After(RBrace, value) == rest;
      var term := Cons(Word(b.m.name), Cons(Op(b.m.op), value));
      var opening := Cons(Op(b.m.op), value);
      assert Has(RBrace, opening) && Before(RBrace, opening) == Cons(Op(b.m.op), Before(RBrace, value)) && After(RBrace, opening) == rest;
      assert Has(RBrace, term) && Before(RBrace, term) == Cons(Word(b.m.name), Cons(Op(b.m.op), Before(RBrace, value)));
      assert After(RBrace, term) == rest;
      assert !Has(LBrace, Cons(Op(b.m.op), Cons(Str(b.m.value), EmitBody(b.rest, Nil))));
    }
  }

  /** Writing the scope in front of a tidied label set. */
  lemma BracedBody(scope: Scope, b: Body, rest: Tokens)
    requires scope != [] && Tidied(b)
    ensures Braced(scope, EmitBody(b, Nil), rest) == EmitBraces(Prepend(scope, b), rest)
  {
    var close := Cons(RBrace, rest);
    AppendBody(b, Nil, close);
    EmitScopeBody(scope, b, close);
  }

  lemma {:induction false} EmitScopeBody(scope: Scope, b: Body, close: Tokens)
    requires scope != [] && Tidied(b)
    ensures EmitScope(scope, EmitBody(WithComma(b), close)) == EmitBody(Prepend(scope, b), close)
  {
    if |scope| == 1 {
      assert Prepend(scope[1..], b) == b;
    } else {
      EmitScopeBody(scope[1..], b, close);
    }
  }

  lemma {:induction false} MaskBracesNames(names: seq<string>, rest: Tokens)
    ensures MaskBraces(EmitNames(names, Cons(RParen, rest))) == EmitNames(names, Cons(RParen, MaskBraces(rest)))
  {
    if |names| > 1 { MaskBracesNames(names[1..], rest); }
  }

  lemma LabelSetGrows(scope: Scope, b: Body, rest: Tokens)
    requires scope != [] && Tidied(b)
    ensures AddToBraces(scope, EmitBraces(b, rest)) == EmitBraces(Prepend(scope, b), AddToBraces(scope, rest))
  {
    BodySpan(b, rest);
    BracedBody(scope, b, AddToBraces(scope, rest));
  }

  lemma SelectorGrows(scope: Scope, metric: Option<string>, body: Option<Body>, rest: Tokens)
    requires scope != [] && (metric.Some? || body.Some?) && (body.Some? ==> Tidied(body.value))
    ensures AddToBraces(scope, EmitPhrase(Sel(metric, body), true, false, rest))
         == EmitPhrase(EditPhrase(Add(scope), Sel(metric, body)), true, false, AddToBraces(scope, rest))
  {
    var labels := if body.Some? then EmitBraces(body.value, rest) else rest;
    if body.Some? { LabelSetGrows(scope, body.value, rest); }
    if metric.Some? { WordThenBraces(scope, metric.value, labels); }
  }

  lemma PhraseGrows(scope: Scope, p: Phrase, rest: Tokens)
    requires scope != [] && GoodPhrase(p) && (p.Sel? && p.body.Some? ==> Tidied(p.body.value))
    ensures AddToBraces(scope, EmitPhrase(p, true, false, rest))
         == EmitPhrase(EditPhrase(Add(scope), p), true, false, AddToBraces(scope, rest))
  {
    match p
    case Sel(metric, body) => SelectorGrows(scope, metric, body, rest);
    case Keyword(word) => WordThenBraces(scope, word, rest);
    case Func(f) =>
      assert AddToBraces(scope, Cons(LParen(false), rest)) == Cons(LParen(false), AddToBraces(scope, rest));
      WordThenBraces(scope, f, Cons(LParen(false), rest));
    case _ =>
  }

  lemma {:induction false} AddToBracesOver(scope: Scope, ps: Phrases)
    requires scope != [] && Linked(ps) && AllTidied(ps)
    ensures AddToBraces(scope, Emit(ps, true, false)) == Emit(EditAll(Add(scope), ps), true, false)
  {
    if ps.Cons? {
      AddToBracesOver(scope, ps.tail);
      PhraseGrows(scope, ps.head, Emit(ps.tail, true, false));
    }
  }

  /** Whether or not the pattern takes the name with the braces, the name is kept. */
  lemma WordThenBraces(scope: Scope, name: string, ts: Tokens)
    ensures AddToBraces(scope, Cons(Word(name), ts)) == Cons(Word(name), AddToBraces(scope, ts))
  {}

  lemma PhraseMasked(p: Phrase, rest: Tokens)
    requires GoodPhrase(p)
    ensures MaskBraces(EmitPhrase(p, true, false, rest)) == EmitPhrase(p, true, true, MaskBraces(rest))
  {
    if p.Sel? && p.body.Some? {
      BodySpan(p.body.value, rest);
      AppendBody(p.body.value, Nil, Cons(RBrace, Nil));
    } else if p.Func? {
      assert MaskBraces(Cons(LParen(false), rest)) == Cons(LParen(false), MaskBraces(rest));
    }
  }

  lemma {:induction false} MaskBracesOver(ps: Phrases)
    requires Linked(ps)
    ensures MaskBraces(Emit(ps, true, false)) == Emit(ps, true, true)
  {
    if ps.Cons? {
      MaskBracesOver(ps.tail);
      PhraseMasked(ps.head, Emit(ps.tail, true, false));
    }
  }

  lemma {:induction false} RestoreBody(b: Body, rest: Tokens)
    ensures Restore(EmitBody(b, Cons(RBrace, rest))) == EmitBody(b, Cons(RBrace, Restore(rest)))
  {
    if b.Item? {
      RestoreBody(b.rest, rest);
      var value := Cons(Str(b.m.value), EmitBody(b.rest, Cons(RBrace, rest)));
      assert Restore(value) == Cons(Str(b.m.value), Restore(value.tail));
      var term := Cons(Word(b.m.name), Cons(Op(b.m.op), value));
      assert Restore(term) == Cons(Word(b.m.name), Cons(Op(b.m.op), Restore(value)));
    }
  }

  lemma {:induction false} RestoreNames(names: seq<string>, rest: Tokens)
    ensures Restore(EmitNames(names, Cons(RParen, rest))) == EmitNames(names, Cons(RParen, Restore(rest)))
  {
    if |names| > 1 { RestoreNames(names[1..], rest); }
  }

  lemma RestoreMaskedBraces(b: Body, rest: Tokens)
    ensures Restore(Cons(Masked(EmitBraces(b, Nil)), rest)) == EmitBraces(b, Restore(rest))
  {
    RestoreBody(b, Nil);
    assert Append(Cons(RBrace, Nil), Restore(rest)) == Cons(RBrace, Restore(rest));
    AppendBody(b, Cons(RBrace, Nil), Restore(rest));
    assert Restore(EmitBraces(b, Nil)) == EmitBraces(b, Nil);
  }

  lemma RestoreMaskedGroup(word: string, far: bool, names: seq<string>, rest: Tokens)
    ensures Restore(Cons(Masked(EmitGroup(word, far, names, Nil)), rest)) == EmitGroup(word, far, names, Restore(rest))
  {
    RestoreNames(names, Nil);
    AppendNames(names, Cons(RParen, Nil), Restore(rest));
    assert Append(Cons(RParen, Nil), Restore(rest)) == Cons(RParen, Restore(rest));
    var inner := EmitNames(names, Cons(RParen, Nil));
    assert Restore(Cons(LParen(far), inner)) == Cons(LParen(far), inner);
    assert Append(Cons(LParen(far), inner), Restore(rest)) == Cons(LParen(far), Append(inner, Restore(rest)));
  }

  /** The identifier pass fills in the bare metrics; restoring then yields the printed query. */
  lemma {:induction false} AddToBareOver(scope: Scope, ps: Phrases)
    requires scope != [] && Linked(ps)
    ensures Restore(AddToBare(scope, Emit(ps, true, true))) == Print(FillBare(scope, ps))
  {
    if ps.Cons? {
      AddToBareOver(scope, ps.tail);
      var rest := Emit(ps.tail, true, true);
      var done := AddToBare(scope, rest);
      match ps.head
      case Mark(t) =>
      case Keyword(word) =>
      case Func(f) =>
        assert AddToBare(scope, Cons(LParen(false), rest)) == Cons(LParen(false), done);
        assert Restore(Cons(LParen(false), done)) == Cons(LParen(false), Restore(done));
      case Group(word, far, names) => RestoreMaskedGroup(word, far, names, done);
      case Sel(metric, body) =>
        if body.Some? {
          RestoreMaskedBraces(body.value, done);
          var labels := Cons(Masked(EmitBraces(body.value, Nil)), rest);
          assert AddToBare(scope, labels) == Cons(labels.head, done);
        } else {
          NotAttached(ps);
          var added := Prepend(scope, End(false));
          BracedBody(scope, End(false), done);
          RestoreBody(added, done);
          assert Restore(EmitBraces(added, done)) == EmitBraces(added, Restore(done));
        }
    }
  }

  lemma NotAttached(ps: Phrases)
    requires Linked(ps) && ps.Cons? && ps.head.Sel? && ps.head.body.None?
    ensures var rest := Emit(ps.tail, true, true);
      !(rest.Cons? && (rest.head == LParen(false) || rest.head.Str? || IsLabelSet(rest.head)))
  {
    if ps.tail.Cons? { assert MayFollow(ps.head, ps.tail.head); }
  }
}
