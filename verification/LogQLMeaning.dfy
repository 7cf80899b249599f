/** What a rewritten LogQL pipeline returns. */
module LogQLMeaning {
  import opened Common
  import opened QueryTokens
  import opened LogQL

  datatype Entry = Entry(stream: map<string, string>, labels: map<string, string>, line: string)

  /** Line filters, regular expressions and parser stages are whatever the engine says. */
  datatype Engine = Engine(
    line: (string, string, string) -> bool,
    regex: (string, string) -> bool,
    other: (string, Tokens, Entry) -> Option<Entry>)

  function Value(labels: map<string, string>, name: string): string {
    if name in labels then labels[name] else ""
  }

  predicate Holds(eng: Engine, labels: map<string, string>, m: Matcher) {
    var v := Value(labels, m.name);
    if m.op == "=" then v == m.value
    else if m.op == "!=" then v != m.value
    else if m.op == "=~" then eng.regex(m.value, v)
    else !eng.regex(m.value, v)
  }

  /** `and` binds tighter than `or`; `so` is the value of the current `and` group. */
  predicate Chain(eng: Engine, labels: map<string, string>, so: bool, links: List<Link>)
    decreases links
  {
    match links
    case Nil => so
    case Cons(l, more) =>
      if l.conj then Chain(eng, labels, so && Holds(eng, labels, l.m), more)
      else so || Chain(eng, labels, Holds(eng, labels, l.m), more)
  }

  function RunStage(eng: Engine, s: Stage, e: Entry): Option<Entry> {
    match s
    case Line(sym, text) => if eng.line(sym, text, e.line) then Some(e) else None
    case Filter(m, more) => if Chain(eng, e.labels, Holds(eng, e.labels, m), more) then Some(e) else None
    case Other(name, args) => eng.other(name, args, e)
  }

  function RunStages(eng: Engine, stages: List<Stage>, e: Entry): Option<Entry> {
    if stages.Nil? then Some(e)
    else match RunStage(eng, stages.head, e)
      case None => None
      case Some(out) => RunStages(eng, stages.tail, out)
  }

  predicate Selects(eng: Engine, ms: List<Matcher>, e: Entry) {
    ms.Cons? ==> Holds(eng, e.stream, ms.head) && Selects(eng, ms.tail, e)
  }

  function Run(eng: Engine, p: Pipeline, log: seq<Entry>): seq<Entry>
    requires p.selector.Some?
  {
    if log == [] then []
    else
      var rest := Run(eng, p, log[1..]);
      if !Selects(eng, p.selector.value, log[0]) then rest
      else
        var out := RunStages(eng, p.stages, log[0]);
        if out.Some? then [out.value] + rest else rest
  }

  predicate Belongs(e: Entry, scope: Scope) {
    forall b :: b in scope ==> Value(e.labels, b.name) == b.value
  }

  function InScope(scope: Scope, log: seq<Entry>): seq<Entry> {
    if log == [] then []
    else (if Belongs(log[0], scope) then [log[0]] else []) + InScope(scope, log[1..])
  }

  lemma {:induction false} FiltersHold(eng: Engine, scope: Scope, stages: List<Stage>, e: Entry)
    ensures RunStages(eng, Append(FilterStages(scope), stages), e)
         == if Belongs(e, scope) then RunStages(eng, stages, e) else None
  {
    if scope != [] {
      FiltersHold(eng, scope[1..], stages, e);
      assert Belongs(e, scope) <==> Value(e.labels, scope[0].name) == scope[0].value && Belongs(e, scope[1..]);
    }
  }

  /** The scoped pipeline over the whole log is the caller's pipeline, minus its own
      scope filters, over one scope's entries, in the same order. */
  lemma {:induction false} ScopedMeaning(eng: Engine, scope: Scope, p: Pipeline, log: seq<Entry>)
    requires p.selector.Some?
    ensures Run(eng, Scoped(scope, p), log)
         == Run(eng, Pipeline(p.selector, Kept(Labels(scope), p.stages)), InScope(scope, log))
  {
    if log != [] {
      var kept := Pipeline(p.selector, Kept(Labels(scope), p.stages));
      ScopedMeaning(eng, scope, p, log[1..]);
      FiltersHold(eng, scope, kept.stages, log[0]);
      if Belongs(log[0], scope) {
        assert InScope(scope, log)[1..] == InScope(scope, log[1..]);
      } else {
        assert InScope(scope, log) == InScope(scope, log[1..]);
      }
    }
  }

  // ----- filters chained behind a scope label -----

  /** The comparisons chained behind a scope label stay in the text, so they must
      follow a filter: behind any other stage the text is no pipeline. */
  predicate Joins(gone: set<string>, behindFilter: bool, stages: List<Stage>)
    decreases stages
  {
    stages.Cons? ==>
      var s := stages.head;
      if s.Filter? && s.m.name in gone then (s.more.Nil? || behindFilter) && Joins(gone, behindFilter, stages.tail)
      else Joins(gone, s.Filter?, stages.tail)
  }

  /** What is left of a chained scope filter joins the filter before it. */
  function Fuse(gone: set<string>, last: Matcher, links: List<Link>, stages: List<Stage>): List<Stage>
    decreases stages, 1
  {
    if stages.Cons? && stages.head.Filter? && stages.head.m.name in gone then
      Fuse(gone, last, Append(links, stages.head.more), stages.tail)
    else Cons(Filter(last, links), Merge(gone, stages))
  }

  function Merge(gone: set<string>, stages: List<Stage>): List<Stage>
    decreases stages, 0
  {
    match stages
    case Nil => Nil
    case Cons(s, more) =>
      if !s.Filter? then Cons(s, Merge(gone, more))
      else if s.m.name in gone then Merge(gone, more)
      else Fuse(gone, s.m, s.more, more)
  }

  /** The pipeline the program's text denotes. */
  function Fused(scope: Scope, p: Pipeline): Pipeline
    requires scope != []
  {
    var last := scope[|scope| - 1];
    Pipeline(p.selector, Append(FilterStages(scope[..|scope| - 1]),
                                Fuse(Labels(scope), Matcher(last.name, "=", last.value), Nil, p.stages)))
  }

  lemma {:induction false} EmitLinksJoined(a: List<Link>, b: List<Link>, rest: Tokens)
    ensures EmitLinks(Append(a, b), rest) == EmitLinks(a, EmitLinks(b, rest))
  {
    if a.Cons? { EmitLinksJoined(a.tail, b, rest); }
  }

  lemma {:induction false} FuseEmits(gone: set<string>, last: Matcher, links: List<Link>, stages: List<Stage>)
    requires Joins(gone, true, stages)
    ensures EmitStage(Filter(last, links), EmitCut(gone, stages, Nil)) == EmitCut({}, Fuse(gone, last, links, stages), Nil)
    decreases stages, 1
  {
    if stages.Cons? && stages.head.Filter? && stages.head.m.name in gone {
      FuseEmits(gone, last, Append(links, stages.head.more), stages.tail);
      EmitLinksJoined(links, stages.head.more, EmitCut(gone, stages.tail, Nil));
    } else {
      MergeEmits(gone, stages, true);
    }
  }

  lemma {:induction false} MergeEmits(gone: set<string>, stages: List<Stage>, behindFilter: bool)
    requires Joins(gone, behindFilter, stages)
    requires behindFilter && stages.Cons? && stages.head.Filter? ==> stages.head.m.name !in gone
    ensures EmitCut(gone, stages, Nil) == EmitCut({}, Merge(gone, stages), Nil)
    decreases stages, 0
  {
    if stages.Cons? {
      var s := stages.head;
      if !s.Filter? || s.m.name in gone {
        MergeEmits(gone, stages.tail, false);
      } else {
        FuseEmits(gone, s.m, s.more, stages.tail);
      }
    }
  }

  lemma {:induction false} EmitFiltersLast(scope: Scope, rest: Tokens)
    requires scope != []
    ensures var last := scope[|scope| - 1];
      EmitFilters(scope, rest)
        == EmitCut({}, FilterStages(scope[..|scope| - 1]), EmitStage(Filter(Matcher(last.name, "=", last.value), Nil), rest))
  {
    if |scope| > 1 {
      var tail := scope[1..];
      EmitFiltersLast(tail, rest);
      assert tail[..|tail| - 1] == scope[..|scope| - 1][1..] && tail[|tail| - 1] == scope[|scope| - 1];
    }
  }

  /** The rewritten text of any pipeline whose chained scope filters all follow a filter. */
  lemma RewriteFuses(given: Scope, p: Pipeline)
    requires Effective(given) != [] && WellFormed(Labels(Effective(given)), p) && p.selector.Some?
    requires Joins(Labels(Effective(given)), true, p.stages)
    ensures InjectScope(Print(p), given) == Print(Fused(Effective(given), p))
  {
    var scope := Effective(given);
    var gone, last := Labels(scope), scope[|scope| - 1];
    var m := Matcher(last.name, "=", last.value);
    Returned(given, p.selector, Nil, p.stages, {});
    assert {} + gone == gone;
    EmitFiltersLast(scope, EmitCut(gone, p.stages, Nil));
    FuseEmits(gone, m, Nil, p.stages);
    EmitJoined({}, FilterStages(scope[..|scope| - 1]), Fuse(gone, m, Nil, p.stages), Nil);
  }

  // ----- which of them answer from one scope only -----

  /** A comparison on the labels an entry has behind `at` parsers. */
  datatype Claim = Claim(at: nat, m: Matcher)

  type LabelsAt = nat -> map<string, string>

  predicate AllHold(eng: Engine, labs: LabelsAt, cs: seq<Claim>) {
    forall c :: c in cs ==> Holds(eng, labs(c.at), c.m)
  }

  /** The value an equality in `cs` gives a label. */
  function Fixed(cs: seq<Claim>, at: nat, name: string): (r: Option<string>)
    ensures r.Some? ==> Claim(at, Matcher(name, "=", r.value)) in cs
    ensures r.None? ==> forall c :: c in cs && c.at == at && c.m.name == name ==> c.m.op != "="
  {
    if cs == [] then None
    else if cs[0].at == at && cs[0].m.name == name && cs[0].m.op == "=" then Some(cs[0].m.value)
    else Fixed(cs[1..], at, name)
  }

  predicate OneLabel(a: Claim, b: Claim) { a.at == b.at && a.m.name == b.m.name }

  predicate SameValue(cs: seq<Claim>, a: Claim, b: Claim) {
    || OneLabel(a, b)
    || (Fixed(cs, a.at, a.m.name).Some? && Fixed(cs, a.at, a.m.name) == Fixed(cs, b.at, b.m.name))
  }

  /** Two comparisons no entry passes together. */
  predicate Clash(cs: seq<Claim>, a: Claim, b: Claim) {
    || (OneLabel(a, b) && a.m.op == "=" && b.m.op == "=" && a.m.value != b.m.value)
    || (OneLabel(a, b) && a.m.op == "=" && b.m.op == "!=" && a.m.value == b.m.value)
    || (a.m.op == "=~" && b.m.op !in {"=", "!=", "=~"} && a.m.value == b.m.value && SameValue(cs, a, b))
  }

  predicate Consistent(cs: seq<Claim>) {
    forall a, b :: a in cs && b in cs ==> !Clash(cs, a, b)
  }

  /** Some choice of one `and` group a filter is consistent; behind a parser an entry may
      have any labels. */
  predicate Way(at: nat, cs: seq<Claim>, stages: List<Stage>)
    decreases stages, 0, 0
  {
    match stages
    case Nil => Consistent(cs)
    case Cons(s, more) =>
      match s
      case Line(_, _) => Way(at, cs, more)
      case Filter(m, links) => WayThrough(at, cs, cs + [Claim(at, m)], links, more)
      case Other(_, _) => Way(at + 1, cs, more)
  }

  predicate WayThrough(at: nat, before: seq<Claim>, so: seq<Claim>, links: List<Link>, more: List<Stage>)
    decreases more, 1, links
  {
    match links
    case Nil => Way(at, so, more)
    case Cons(l, rest) =>
      if l.conj then WayThrough(at, before, so + [Claim(at, l.m)], rest, more)
      else Way(at, so, more) || WayThrough(at, before, before + [Claim(at, l.m)], rest, more)
  }

  function Off(b: Binding): Claim { Claim(0, Matcher(b.name, "!=", b.value)) }

  function Own(b: Binding): Claim { Claim(0, Matcher(b.name, "=", b.value)) }

  /** A way through the stages with the last scope label off its value. */
  predicate Leaks(scope: Scope, p: Pipeline)
    requires scope != []
  {
    Way(0, [Off(scope[|scope| - 1])], Fused(scope, p).stages)
  }

  lemma HoldsConsistent(eng: Engine, labs: LabelsAt, cs: seq<Claim>)
    requires AllHold(eng, labs, cs)
    ensures Consistent(cs)
  {
    forall a, b | a in cs && b in cs
      ensures !Clash(cs, a, b)
    {
      assert Holds(eng, labs(a.at), a.m) && Holds(eng, labs(b.at), b.m);
      FixedHolds(eng, labs, cs, a);
      FixedHolds(eng, labs, cs, b);
    }
  }

  lemma FixedHolds(eng: Engine, labs: LabelsAt, cs: seq<Claim>, c: Claim)
    requires AllHold(eng, labs, cs)
    ensures var fixed := Fixed(cs, c.at, c.m.name); fixed.Some? ==> Value(labs(c.at), c.m.name) == fixed.value
  {
    var fixed := Fixed(cs, c.at, c.m.name);
    if fixed.Some? { assert Holds(eng, labs(c.at), Claim(c.at, Matcher(c.m.name, "=", fixed.value)).m); }
  }

  lemma AllHoldMore(eng: Engine, labs: LabelsAt, cs: seq<Claim>, c: Claim)
    ensures AllHold(eng, labs, cs + [c]) <==> AllHold(eng, labs, cs) && Holds(eng, labs(c.at), c.m)
  {
    assert c in cs + [c];
    assert forall x :: x in cs ==> x in cs + [c];
  }

  predicate UpTo(cs: seq<Claim>, at: nat) { forall c :: c in cs ==> c.at <= at }

  /** Every entry that passes finds a way. */
  lemma {:induction false} PassedWay(eng: Engine, labs: LabelsAt, at: nat, cs: seq<Claim>, stages: List<Stage>, e: Entry)
    requires AllHold(eng, labs, cs) && UpTo(cs, at) && labs(at) == e.labels && RunStages(eng, stages, e).Some?
    ensures Way(at, cs, stages)
    decreases stages, 0, 0
  {
    if stages.Nil? {
      HoldsConsistent(eng, labs, cs);
    } else {
      match stages.head
      case Line(_, _) => PassedWay(eng, labs, at, cs, stages.tail, e);
      case Filter(m, links) =>
        AllHoldMore(eng, labs, cs, Claim(at, m));
        PassedThrough(eng, labs, at, cs, cs + [Claim(at, m)], links, stages.tail, e);
      case Other(name, args) =>
        var out := eng.other(name, args, e).value;
        var more: LabelsAt := (s: nat) => if s == at + 1 then out.labels else labs(s);
        assert AllHold(eng, more, cs);
        PassedWay(eng, more, at + 1, cs, stages.tail, out);
    }
  }

  lemma {:induction false} PassedThrough(eng: Engine, labs: LabelsAt, at: nat, before: seq<Claim>, so: seq<Claim>,
                                         links: List<Link>, more: List<Stage>, e: Entry)
    requires AllHold(eng, labs, before) && UpTo(before, at) && UpTo(so, at) && labs(at) == e.labels
    requires RunStages(eng, more, e).Some? && Chain(eng, e.labels, AllHold(eng, labs, so), links)
    ensures WayThrough(at, before, so, links, more)
    decreases more, 1, links
  {
    match links
    case Nil => PassedWay(eng, labs, at, so, more, e);
    case Cons(l, rest) =>
      var c := Claim(at, l.m);
      if l.conj {
        AllHoldMore(eng, labs, so, c);
        PassedThrough(eng, labs, at, before, so + [c], rest, more, e);
      } else if AllHold(eng, labs, so) {
        PassedWay(eng, labs, at, so, more, e);
      } else {
        AllHoldMore(eng, labs, before, c);
        PassedThrough(eng, labs, at, before, before + [c], rest, more, e);
      }
  }

  function Marks(n: nat): string { seq(n, _ => 'x') }

  /** The entry with the labels of one stretch between parsers. */
  function EntryAt(labs: LabelsAt, at: nat): Entry { Entry(map[], labs(at), Marks(at)) }

  /** Line filters let everything pass, and parsers lead from stretch to stretch. */
  ghost predicate Staged(eng: Engine, labs: LabelsAt) {
    && (forall sym, text, line :: eng.line(sym, text, line))
    && (forall name, args, e: Entry :: eng.other(name, args, e) == Some(EntryAt(labs, |e.line| + 1)))
  }

  ghost predicate Opens(all: seq<Claim>, at: nat, cs: seq<Claim>, stages: List<Stage>) {
    forall eng: Engine, labs: LabelsAt :: Staged(eng, labs) && AllHold(eng, labs, all) ==>
      AllHold(eng, labs, cs) && RunStages(eng, stages, EntryAt(labs, at)).Some?
  }

  ghost predicate OpensThrough(all: seq<Claim>, at: nat, before: seq<Claim>, so: seq<Claim>, links: List<Link>, more: List<Stage>) {
    forall eng: Engine, labs: LabelsAt :: Staged(eng, labs) && AllHold(eng, labs, all) ==>
      && AllHold(eng, labs, before) && Chain(eng, labs(at), AllHold(eng, labs, so), links)
      && RunStages(eng, more, EntryAt(labs, at)).Some?
  }

  /** Every way is the comparisons of entries that pass. */
  lemma {:induction false} WayOpens(at: nat, cs: seq<Claim>, stages: List<Stage>) returns (all: seq<Claim>)
    requires Way(at, cs, stages)
    ensures Consistent(all) && Opens(all, at, cs, stages)
    decreases stages, 0, 0
  {
    all := cs;
    if stages.Cons? {
      match stages.head
      case Line(_, _) => all := WayOpens(at, cs, stages.tail);
      case Filter(m, links) =>
        all := ThroughOpens(at, cs, cs + [Claim(at, m)], links, stages.tail);
        forall eng: Engine, labs: LabelsAt | Staged(eng, labs) && AllHold(eng, labs, all)
          ensures AllHold(eng, labs, cs) && RunStages(eng, stages, EntryAt(labs, at)).Some?
        {
          AllHoldMore(eng, labs, cs, Claim(at, m));
        }
      case Other(name, args) =>
        all := WayOpens(at + 1, cs, stages.tail);
        forall eng: Engine, labs: LabelsAt | Staged(eng, labs) && AllHold(eng, labs, all)
          ensures AllHold(eng, labs, cs) && RunStages(eng, stages, EntryAt(labs, at)).Some?
        {
          assert RunStage(eng, stages.head, EntryAt(labs, at)) == Some(EntryAt(labs, at + 1));
        }
    }
  }

  lemma {:induction false} ThroughOpens(at: nat, before: seq<Claim>, so: seq<Claim>, links: List<Link>, more: List<Stage>)
    returns (all: seq<Claim>)
    requires WayThrough(at, before, so, links, more) && forall c :: c in before ==> c in so
    ensures Consistent(all) && OpensThrough(all, at, before, so, links, more)
    decreases more, 1, links
  {
    match links
    case Nil => all := WayOpens(at, so, more);
    case Cons(l, rest) =>
      var c := Claim(at, l.m);
      if l.conj {
        all := ThroughOpens(at, before, so + [c], rest, more);
        forall eng: Engine, labs: LabelsAt | Staged(eng, labs) && AllHold(eng, labs, all)
          ensures Chain(eng, labs(at), AllHold(eng, labs, so), links)
        {
          AllHoldMore(eng, labs, so, c);
        }
      } else if Way(at, so, more) {
        all := WayOpens(at, so, more);
      } else {
        all := ThroughOpens(at, before, before + [c], rest, more);
        forall eng: Engine, labs: LabelsAt | Staged(eng, labs) && AllHold(eng, labs, all)
          ensures Chain(eng, labs(at), AllHold(eng, labs, so), links)
        {
          AllHoldMore(eng, labs, before, c);
        }
      }
  }

  // ----- an entry for every consistent set of comparisons -----

  /** Longer than every value in `cs`. */
  function Pad(cs: seq<Claim>): (r: string)
    ensures forall c :: c in cs ==> |c.m.value| < |r|
  {
    if cs == [] then "x" else Pad(cs[1..]) + cs[0].m.value
  }

  function Picked(cs: seq<Claim>, at: nat, name: string): string {
    var fixed := Fixed(cs, at, name);
    if fixed.Some? then fixed.value else Pad(cs) + (Marks(at) + ("." + name))
  }

  lemma MarksApart(i: nat, a: string, j: nat, b: string)
    requires Marks(i) + ("." + a) == Marks(j) + ("." + b)
    ensures i == j && a == b
  {
    var s, t := Marks(i) + ("." + a), Marks(j) + ("." + b);
    assert s[i] == '.' && t[j] == '.';
    assert forall k :: 0 <= k < i ==> s[k] == 'x';
    assert forall k :: 0 <= k < j ==> t[k] == 'x';
    assert a == s[i + 1..] && b == t[j + 1..];
  }

  lemma PickedApart(cs: seq<Claim>, a: Claim, b: Claim)
    requires Picked(cs, a.at, a.m.name) == Picked(cs, b.at, b.m.name)
    ensures SameValue(cs, a, b)
  {
    if Fixed(cs, a.at, a.m.name).None? && Fixed(cs, b.at, b.m.name).None? {
      var pad, x, y := Pad(cs), Marks(a.at) + ("." + a.m.name), Marks(b.at) + ("." + b.m.name);
      assert x == (pad + x)[|pad|..] && y == (pad + y)[|pad|..];
      MarksApart(a.at, a.m.name, b.at, b.m.name);
    }
  }

  function ModelLabels(cs: seq<Claim>): LabelsAt {
    (at: nat) => map name | name in (set c | c in cs :: c.m.name) :: Picked(cs, at, name)
  }

  /** The engine whose patterns match just where `cs` wants them to. */
  function Model(cs: seq<Claim>): Engine {
    Engine((sym, text, line) => true,
           (p, v) => exists c :: c in cs && c.m.op == "=~" && c.m.value == p && Picked(cs, c.at, c.m.name) == v,
           (name, args, e: Entry) => Some(EntryAt(ModelLabels(cs), |e.line| + 1)))
  }

  lemma ModelHolds(cs: seq<Claim>)
    requires Consistent(cs)
    ensures Staged(Model(cs), ModelLabels(cs)) && AllHold(Model(cs), ModelLabels(cs), cs)
  {
    var eng, labs := Model(cs), ModelLabels(cs);
    forall c | c in cs
      ensures Holds(eng, labs(c.at), c.m)
    {
      var v := Picked(cs, c.at, c.m.name);
      assert c.m.name in labs(c.at) && Value(labs(c.at), c.m.name) == v;
      var fixed := Fixed(cs, c.at, c.m.name);
      if c.m.op == "=" {
        assert !Clash(cs, c, Claim(c.at, Matcher(c.m.name, "=", fixed.value)));
      } else if c.m.op == "!=" {
        if fixed.Some? { assert !Clash(cs, Claim(c.at, Matcher(c.m.name, "=", fixed.value)), c); }
      } else if c.m.op != "=~" && eng.regex(c.m.value, v) {
        var a :| a in cs && a.m.op == "=~" && a.m.value == c.m.value && Picked(cs, a.at, a.m.name) == v;
        PickedApart(cs, a, c);
        assert Clash(cs, a, c);
      }
    }
  }

  // ----- isolation -----

  /** Only entries of the scope get through the stages. */
  ghost predicate Confines(eng: Engine, scope: Scope, stages: List<Stage>) {
    forall e: Entry :: RunStages(eng, stages, e).Some? ==> Belongs(e, scope)
  }

  lemma BelongsLast(e: Entry, scope: Scope)
    requires scope != []
    ensures var last := scope[|scope| - 1];
      Belongs(e, scope) <==> Belongs(e, scope[..|scope| - 1]) && Value(e.labels, last.name) == last.value
  {
    var front := scope[..|scope| - 1];
    assert scope == front + [scope[|scope| - 1]];
  }

  lemma NoWayConfines(eng: Engine, scope: Scope, p: Pipeline)
    requires scope != [] && !Leaks(scope, p)
    ensures Confines(eng, scope, Fused(scope, p).stages)
  {
    var front, last, stages := scope[..|scope| - 1], scope[|scope| - 1], Fused(scope, p).stages;
    forall e: Entry | RunStages(eng, stages, e).Some?
      ensures Belongs(e, scope)
    {
      FiltersHold(eng, front, Fuse(Labels(scope), Matcher(last.name, "=", last.value), Nil, p.stages), e);
      BelongsLast(e, scope);
      if Holds(eng, e.labels, Off(last).m) {
        var labs: LabelsAt := (s: nat) => e.labels;
        assert AllHold(eng, labs, [Off(last)]) && UpTo([Off(last)], 0);
        PassedWay(eng, labs, 0, [Off(last)], stages, e);
      }
    }
  }

  /** An engine and an entry outside the scope that the text lets through. */
  lemma LeakLetsThrough(scope: Scope, p: Pipeline) returns (eng: Engine, e: Entry)
    requires scope != [] && Leaks(scope, p)
    ensures !Belongs(e, scope) && RunStages(eng, Fused(scope, p).stages, e).Some?
  {
    var last := scope[|scope| - 1];
    var all := WayOpens(0, [Off(last)], Fused(scope, p).stages);
    ModelHolds(all);
    eng, e := Model(all), EntryAt(ModelLabels(all), 0);
    assert AllHold(eng, ModelLabels(all), [Off(last)]);
    assert Off(last) in [Off(last)] && last in scope;
  }

  /** Whatever the engine, only entries of the scope get through, if and only if no way
      leads around the last scope label. */
  lemma ConfinedExactly(scope: Scope, p: Pipeline)
    requires scope != []
    ensures (forall eng: Engine :: Confines(eng, scope, Fused(scope, p).stages)) <==> !Leaks(scope, p)
  {
    if Leaks(scope, p) {
      var eng, e := LeakLetsThrough(scope, p);
      assert !Confines(eng, scope, Fused(scope, p).stages);
    } else {
      forall eng: Engine
        ensures Confines(eng, scope, Fused(scope, p).stages)
      {
        NoWayConfines(eng, scope, p);
      }
    }
  }

  lemma {:induction false} ConfinedRun(eng: Engine, scope: Scope, p: Pipeline, log: seq<Entry>)
    requires p.selector.Some? && Confines(eng, scope, p.stages)
    ensures Run(eng, p, log) == Run(eng, p, InScope(scope, log))
  {
    if log != [] {
      ConfinedRun(eng, scope, p, log[1..]);
      if Belongs(log[0], scope) {
        assert InScope(scope, log)[1..] == InScope(scope, log[1..]);
      } else {
        assert RunStages(eng, p.stages, log[0]).None?;
        assert InScope(scope, log) == InScope(scope, log[1..]);
      }
    }
  }

  /** Logs that agree on one scope give the same answer to the text sent upstream. */
  lemma AnswersFromScopeOnly(eng: Engine, given: Scope, p: Pipeline, log1: seq<Entry>, log2: seq<Entry>)
    requires Effective(given) != [] && WellFormed(Labels(Effective(given)), p) && p.selector.Some?
    requires Joins(Labels(Effective(given)), true, p.stages) && !Leaks(Effective(given), p)
    requires InScope(Effective(given), log1) == InScope(Effective(given), log2)
    ensures var q := Fused(Effective(given), p);
      InjectScope(Print(p), given) == Print(q) && Run(eng, q, log1) == Run(eng, q, log2)
  {
    var scope := Effective(given);
    RewriteFuses(given, p);
    NoWayConfines(eng, scope, p);
    ConfinedRun(eng, scope, Fused(scope, p), log1);
    ConfinedRun(eng, scope, Fused(scope, p), log2);
  }

  // ----- the connectives that matter -----

  predicate AllAnd(links: List<Link>) {
    links.Cons? ==> links.head.conj && AllAnd(links.tail)
  }

  /** Nothing chained with `or` is left behind the scope filters put in front. */
  predicate LedByAnds(gone: set<string>, stages: List<Stage>) {
    stages.Cons? && stages.head.Filter? && stages.head.m.name in gone ==>
      AllAnd(stages.head.more) && LedByAnds(gone, stages.tail)
  }

  lemma {:induction false} AndsJoined(a: List<Link>, b: List<Link>)
    requires AllAnd(a) && AllAnd(b)
    ensures AllAnd(Append(a, b))
  {
    if a.Cons? { AndsJoined(a.tail, b); }
  }

  lemma Shut(cs: seq<Claim>, b: Binding)
    requires Own(b) in cs && Off(b) in cs
    ensures !Consistent(cs)
  {
    assert Clash(cs, Own(b), Off(b));
  }

  lemma {:induction false} ShutStays(at: nat, cs: seq<Claim>, b: Binding, stages: List<Stage>)
    requires Own(b) in cs && Off(b) in cs
    ensures !Way(at, cs, stages)
    decreases stages, 0, 0
  {
    Shut(cs, b);
    if stages.Cons? {
      match stages.head
      case Line(_, _) => ShutStays(at, cs, b, stages.tail);
      case Filter(m, links) => ShutThrough(at, cs, cs + [Claim(at, m)], b, links, stages.tail);
      case Other(_, _) => ShutStays(at + 1, cs, b, stages.tail);
    }
  }

  lemma {:induction false} ShutThrough(at: nat, before: seq<Claim>, so: seq<Claim>, b: Binding, links: List<Link>, more: List<Stage>)
    requires Off(b) in before && Off(b) in so && Own(b) in so
    requires Own(b) in before || AllAnd(links)
    ensures !WayThrough(at, before, so, links, more)
    decreases more, 1, links
  {
    ShutStays(at, so, b, more);
    if links.Cons? {
      var c := Claim(at, links.head.m);
      ShutThrough(at, before, if links.head.conj then so + [c] else before + [c], b, links.tail, more);
    }
  }

  lemma {:induction false} FuseShut(gone: set<string>, b: Binding, links: List<Link>, stages: List<Stage>, cs: seq<Claim>)
    requires Off(b) in cs && AllAnd(links) && LedByAnds(gone, stages)
    ensures !Way(0, cs, Fuse(gone, Own(b).m, links, stages))
    decreases stages
  {
    if stages.Cons? && stages.head.Filter? && stages.head.m.name in gone {
      AndsJoined(links, stages.head.more);
      FuseShut(gone, b, Append(links, stages.head.more), stages.tail, cs);
    } else {
      ShutThrough(0, cs, cs + [Own(b)], b, links, Merge(gone, stages));
    }
  }

  function Equalities(scope: Scope): seq<Claim> {
    seq(|scope|, i requires 0 <= i < |scope| => Own(scope[i]))
  }

  /** The filters put in front add their comparisons. */
  lemma {:induction false} FrontWay(front: Scope, rest: List<Stage>, cs: seq<Claim>)
    ensures Way(0, cs, Append(FilterStages(front), rest)) <==> Way(0, cs + Equalities(front), rest)
  {
    if front == [] {
      assert cs + Equalities(front) == cs;
    } else {
      var c := Own(front[0]);
      FrontWay(front[1..], rest, cs + [c]);
      assert Equalities(front) == [c] + Equalities(front[1..]);
      assert cs + [c] + Equalities(front[1..]) == cs + Equalities(front);
      assert WayThrough(0, cs, cs + [c], Nil, Append(FilterStages(front[1..]), rest))
        == Way(0, cs + [c], Append(FilterStages(front[1..]), rest));
    }
  }

  /** Filters chained with `and` alone, or not at all, leave no way around. */
  lemma AndsDoNotLeak(scope: Scope, p: Pipeline)
    requires scope != [] && LedByAnds(Labels(scope), p.stages)
    ensures !Leaks(scope, p)
  {
    var last, gone, front := scope[|scope| - 1], Labels(scope), scope[..|scope| - 1];
    FrontWay(front, Fuse(gone, Own(last).m, Nil, p.stages), [Off(last)]);
    FuseShut(gone, last, Nil, p.stages, [Off(last)] + Equalities(front));
  }

  predicate LabelsApart(scope: Scope) {
    forall i, j :: 0 <= i < j < |scope| ==> scope[i].name != scope[j].name
  }

  /** A filter on a scope label followed by `or` and one comparison. */
  function OrStage(m: Matcher, l: Matcher): List<Stage> { Cons(Filter(m, Cons(Link(false, l), Nil)), Nil) }

  lemma OrWays(scope: Scope, sel: Option<List<Matcher>>, m: Matcher, l: Matcher)
    requires scope != [] && m.name in Labels(scope)
    ensures var last := scope[|scope| - 1];
      var before := [Off(last)] + Equalities(scope[..|scope| - 1]);
      Leaks(scope, Pipeline(sel, OrStage(m, l)))
      <==> Consistent(before + [Own(last)]) || Consistent(before + [Claim(0, l)])
  {
    var gone, last := Labels(scope), scope[|scope| - 1];
    var own, links := Own(last).m, Cons(Link(false, l), Nil);
    assert Fuse(gone, own, Nil, OrStage(m, l)) == Fuse(gone, own, links, Nil) == Cons(Filter(own, links), Nil);
    FrontWay(scope[..|scope| - 1], Cons(Filter(own, links), Nil), [Off(last)]);
    var before := [Off(last)] + Equalities(scope[..|scope| - 1]);
    assert WayThrough(0, before, before + [Own(last)], links, Nil)
      == (Way(0, before + [Own(last)], Nil) || WayThrough(0, before, before + [Claim(0, l)], Nil, Nil));
  }

  /** Comparisons on labels of their own never clash. */
  lemma ApartIsConsistent(cs: seq<Claim>)
    requires forall a, b :: a in cs && b in cs && a != b ==> a.m.name != b.m.name
    requires forall a, b :: a in cs && b in cs && a != b ==> a.m.op in {"=", "!="} || b.m.op in {"=", "!="}
    ensures Consistent(cs)
  {}

  lemma EqualitiesAre(scope: Scope, c: Claim) returns (i: nat)
    requires c in Equalities(scope)
    ensures i < |scope| && c == Own(scope[i])
  {
    i :| 0 <= i < |scope| && Equalities(scope)[i] == c;
  }

  lemma LabelIn(scope: Scope, i: nat)
    requires i < |scope|
    ensures scope[i].name in Labels(scope)
  {
    assert scope[i] in scope;
  }

  predicate OfScope(scope: Scope, c: Claim)
    requires scope != []
  {
    c == Off(scope[|scope| - 1]) || c in Equalities(scope[..|scope| - 1])
  }

  /** The scope's own comparisons and one on a foreign label are on labels of their own. */
  lemma ScopeApart(scope: Scope, l: Matcher, a: Claim, b: Claim)
    requires scope != [] && LabelsApart(scope) && l.name !in Labels(scope) && a != b
    requires OfScope(scope, a) || a == Claim(0, l)
    requires OfScope(scope, b) || b == Claim(0, l)
    ensures a.m.name != b.m.name && (a.m.op in {"=", "!="} || b.m.op in {"=", "!="})
  {
    var n := |scope| - 1;
    var front := scope[..n];
    var i, j: nat := n, n;
    if a in Equalities(front) { i := EqualitiesAre(front, a); }
    if b in Equalities(front) { j := EqualitiesAre(front, b); }
    LabelIn(scope, i);
    LabelIn(scope, j);
  }

  /** With `or` and a comparison on any other label, other scopes' entries get in. */
  lemma ForeignOrLeaks(scope: Scope, sel: Option<List<Matcher>>, m: Matcher, l: Matcher)
    requires scope != [] && LabelsApart(scope) && m.name in Labels(scope) && l.name !in Labels(scope)
    ensures Leaks(scope, Pipeline(sel, OrStage(m, l)))
  {
    var all := [Off(scope[|scope| - 1])] + Equalities(scope[..|scope| - 1]) + [Claim(0, l)];
    OrWays(scope, sel, m, l);
    forall a, b | a in all && b in all && a != b
      ensures a.m.name != b.m.name && (a.m.op in {"=", "!="} || b.m.op in {"=", "!="})
    {
      ScopeApart(scope, l, a, b);
    }
    ApartIsConsistent(all);
  }

  /** With `or` and the last label's own value nothing gets in. */
  lemma OwnOrIsHarmless(scope: Scope, sel: Option<List<Matcher>>, m: Matcher)
    requires scope != [] && m.name in Labels(scope)
    ensures !Leaks(scope, Pipeline(sel, OrStage(m, Own(scope[|scope| - 1]).m)))
  {
    var last := scope[|scope| - 1];
    OrWays(scope, sel, m, Own(last).m);
    var all := [Off(last)] + Equalities(scope[..|scope| - 1]) + [Own(last)];
    assert Off(last) == all[0] && Own(last) == all[|all| - 1];
    Shut(all, last);
  }

  /** Nothing chained at all is one case of it. */
  lemma {:induction false} UnchainedJoins(gone: set<string>, behindFilter: bool, stages: List<Stage>)
    requires Unchained(gone, stages)
    ensures Joins(gone, behindFilter, stages) && LedByAnds(gone, stages)
    decreases stages
  {
    if stages.Cons? {
      var s := stages.head;
      UnchainedJoins(gone, if s.Filter? && s.m.name in gone then behindFilter else s.Filter?, stages.tail);
      UnchainedJoins(gone, behindFilter, stages.tail);
    }
  }
}
