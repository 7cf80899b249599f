/** A query on which the clean-up loop never ends: the rewriter does not return. */
module Hanging {
  import opened Masking
  import opened Restoring
  import opened Maskers
  import opened Settling

  // ----- pieces side by side -----

  /** The pieces of `p`, then those of `q`. */
  function Weld(p: Pieces, q: Pieces): Pieces {
    match p
    case Last(raw) => q.(raw := raw + q.raw)
    case Nul(raw, rest) => Nul(raw, Weld(rest, q))
  }

  lemma {:induction false} FlatWeld(p: Pieces, q: Pieces)
    requires Pure(p) && Pure(q)
    ensures Pure(Weld(p, q)) && Flat(Weld(p, q)) == Flat(p) + Flat(q)
  {
    match p
    case Last(raw) =>
      if q.Nul? { assert (raw + q.raw) + ([NUL] + Flat(q.rest)) == raw + (q.raw + ([NUL] + Flat(q.rest))); }
    case Nul(raw, rest) =>
      FlatWeld(rest, q);
      assert raw + ([NUL] + (Flat(rest) + Flat(q))) == (raw + ([NUL] + Flat(rest))) + Flat(q);
  }

  lemma {:induction false} WeldAssoc(p: Pieces, q: Pieces, r: Pieces)
    ensures Weld(Weld(p, q), r) == Weld(p, Weld(q, r))
  {
    match p
    case Last(raw) => if q.Last? { assert raw + q.raw + r.raw == raw + (q.raw + r.raw); }
    case Nul(_, rest) => WeldAssoc(rest, q, r);
  }

  lemma {:induction false} GlueWeld(raw: string, span: Doc, after: Pieces, q: Pieces)
    ensures Weld(Glue(raw, span, after), q) == Glue(raw, span, Weld(after, q))
    decreases span
  {
    match span
    case Tail(s) => if after.Last? { assert raw + s + after.raw + q.raw == raw + s + (after.raw + q.raw); }
    case Hole(_, _, more) => GlueWeld("", more, after, q);
  }

  lemma {:induction false} GlueRaw(r: string, raw: string, span: Doc, after: Pieces)
    ensures var g := Glue(raw, span, after); Glue(r + raw, span, after) == g.(raw := r + g.raw)
  {
    match span
    case Tail(s) => assert (r + raw) + s + after.raw == r + (raw + s + after.raw);
    case Hole(s, _, _) => assert (r + raw) + s == r + (raw + s);
  }

  lemma SwapRaw(r: string, p: Pieces, key: nat, span: Doc)
    ensures var q := Swap(p, key, span); Swap(p.(raw := r + p.raw), key, span) == q.(raw := r + q.raw)
  {
    if p.Nul? && p.rest.Nul? && p.rest.raw == Digits(key) { GlueRaw(r, p.raw, span, Swap(p.rest.rest, key, span)); }
  }

  /** Behind a text that begins with no digit, replacing goes on as if it stood alone. */
  lemma {:induction false} SwapWeld(p: Pieces, q: Pieces, key: nat, span: Doc)
    requires !AllDigits(q.raw)
    ensures Swap(Weld(p, q), key, span) == Weld(Swap(p, key, span), Swap(q, key, span))
  {
    match p
    case Last(raw) => SwapRaw(raw, q, key, span);
    case Nul(raw, rest) =>
      if rest.Nul? && rest.raw == Digits(key) {
        SwapWeld(rest.rest, q, key, span);
        GlueWeld(raw, span, Swap(rest.rest, key, span), Swap(q, key, span));
      } else {
        if rest.Last? { MoreNonDigits(rest.raw, q.raw); }
        SwapWeld(rest, q, key, span);
      }
  }

  lemma MoreNonDigits(a: string, b: string)
    requires !AllDigits(b)
    ensures !AllDigits(a + b)
  {
    NotDigits(a, b, "");
    assert a + b + "" == a + b;
  }

  lemma {:induction false} SwapKeepsStart(p: Pieces, key: nat, span: Doc)
    requires !AllDigits(p.raw)
    ensures !AllDigits(Swap(p, key, span).raw)
  {
    if p.Nul? && p.rest.Nul? && p.rest.raw == Digits(key) {
      var after := Swap(p.rest.rest, key, span);
      NotDigits("", p.raw, if span.Tail? then span.raw + after.raw else span.raw);
      assert p.raw + span.raw + after.raw == "" + p.raw + (span.raw + after.raw);
      assert p.raw + span.raw == "" + p.raw + span.raw;
    }
  }

  lemma {:induction false} SwapDownWeld(held: seq<Doc>, p: Pieces, q: Pieces, n: nat)
    requires n <= |held| && !AllDigits(q.raw)
    ensures SwapDown(held, Weld(p, q), n) == Weld(SwapDown(held, p, n), SwapDown(held, q, n))
    decreases n
  {
    if n > 0 {
      var k, span := n - 1, held[n - 1];
      SwapWeld(p, q, k, span);
      SwapKeepsStart(q, k, span);
      SwapDownWeld(held, Swap(p, k, span), Swap(q, k, span), k);
    }
  }

  /** Nothing but text, or more than digits, between any two NULs. */
  predicate Quiet(p: Pieces) { p.Nul? ==> QuietIn(p.rest) }

  predicate QuietIn(p: Pieces) { p.Nul? ==> !AllDigits(p.raw) && QuietIn(p.rest) }

  lemma {:induction false} SwapQuiet(p: Pieces, key: nat, span: Doc)
    requires Quiet(p)
    ensures Swap(p, key, span) == p
  {
    if p.Nul? && p.rest.Nul? { SwapQuiet(p.rest, key, span); }
  }

  lemma {:induction false} WeldQuiet(p: Pieces, q: Pieces)
    requires Quiet(p) && Quiet(q) && !AllDigits(q.raw)
    ensures Quiet(Weld(p, q)) && (QuietIn(p) ==> QuietIn(Weld(p, q)))
  {
    if p.Last? { MoreNonDigits(p.raw, q.raw); } else { WeldQuiet(p.rest, q); }
  }

  // ----- the two label sets -----

  /** `{"p"7"q"9"r"7"s"}` and `{"t"0"u"9"v"0"w"}`. */
  const SET8 := Hole("{", 0, Hole("7", 1, Hole("9", 2, Hole("7", 3, Tail("}")))))
  const SET9 := Hole("{", 4, Hole("0", 5, Hole("9", 6, Hole("0", 7, Tail("}")))))

  /** Eight literals, whatever they hold. */
  predicate Literals8(lits: seq<string>) {
    |lits| == 8 && forall i :: 0 <= i < 8 ==> NUL !in lits[i] && !AllDigits(lits[i])
  }

  function Texts(lits: seq<string>): seq<Doc> { seq(|lits|, i requires 0 <= i < |lits| => Tail(lits[i])) }

  function Held(lits: seq<string>): seq<Doc> { Texts(lits) + [SET8, SET9] }

  lemma HeldIs(lits: seq<string>)
    requires Literals8(lits)
    ensures var held := Held(lits);
      && |held| == 10 && held[8] == SET8 && held[9] == SET9
      && (forall i :: 0 <= i < 8 ==> held[i] == Tail(lits[i]))
      && Layered(held) && AllGuarded(held)
  {
    var held := Held(lits);
    assert '{' in "{" && '}' in "}";
    assert !AllDigits("{") && !AllDigits("}");
    assert LastRaw(SET8.rest.rest) == "}" && LastRaw(SET9.rest.rest) == "}";
  }

  lemma OneDigit(n: nat)
    requires n < 10
    ensures Digits(n) == [Digit(n)]
  {}

  // ----- one round of the clean-up -----

  /** The second label set's pieces in front of more. */
  function Set9(after: Pieces): Pieces { Glue("", SET9, after) }

  function Opened(p: string, after: Pieces): Pieces { Nul("{", Nul("4" + p + "5", Nul("9", Nul("6" + p + "7", Weld(Last("}"), after))))) }

  /** Its zeros are read first, and its nine stays closed. */
  lemma ZerosFirst(p: string, after: Pieces)
    requires Quiet(after)
    ensures Swap(Set9(after), 0, Tail(p)) == Opened(p, after)
  {
    OneDigit(0); OneDigit(4); OneDigit(5); OneDigit(6); OneDigit(7); OneDigit(9);
    var end := Weld(Last("}"), after);
    assert "" + "}" + after.raw == "}" + after.raw;
    assert Glue("", Tail("}"), after) == end;
    assert '}' in end.raw && !AllDigits(end.raw);
    SwapQuiet(end, 0, Tail(p));
    var six := Nul("6", Nul("0", Nul("7", end)));
    assert Swap(Nul("7", end), 0, Tail(p)) == Nul("7", end);
    assert Swap(six, 0, Tail(p)) == Nul("6" + p + "7", end);
    var five := Nul("5", Nul("9", six));
    assert Swap(Nul("9", six), 0, Tail(p)) == Nul("9", Swap(six, 0, Tail(p)));
    assert Swap(five, 0, Tail(p)) == Nul("5", Nul("9", Swap(six, 0, Tail(p))));
    var four := Nul("4", Nul("0", five));
    assert Swap(four, 0, Tail(p)) == Nul("4" + p + "5", Nul("9", Swap(six, 0, Tail(p))));
    SetPieces(after);
  }

  lemma SetPieces(after: Pieces)
    ensures Set9(after) == Nul("{", Nul("4", Nul("0", Nul("5", Nul("9", Nul("6", Nul("0", Nul("7", Weld(Last("}"), after)))))))))
  {
    OneDigit(4); OneDigit(5); OneDigit(6); OneDigit(7);
    assert "" + "{" == "{" && "" + "0" == "0" && "" + "9" == "9" && "" + "}" + after.raw == "}" + after.raw;
    assert Glue("", Tail("}"), after) == Weld(Last("}"), after);
    var d := Hole("0", 7, Tail("}"));
    assert Glue("", d, after) == Nul("0", Nul("7", Weld(Last("}"), after)));
    assert Glue("", Hole("9", 6, d), after) == Nul("9", Nul("6", Glue("", d, after)));
    assert Glue("", Hole("0", 5, Hole("9", 6, d)), after) == Nul("0", Nul("5", Glue("", Hole("9", 6, d), after)));
  }

  /** A nine between two texts: other keys leave it, its own opens the label set again. */
  lemma NineStays(a: Pieces, b: Pieces, key: nat, span: Doc)
    requires Quiet(a) && Quiet(b) && a.Nul? && !AllDigits(b.raw) && key < 9
    requires !AllDigits(LastPiece(a))
    ensures Swap(Nine(a, b), key, span) == Nine(a, b)
  {
    OneDigit(key); OneDigit(9);
    assert Digits(key) != "9";
    NineSwap(a, b, key, span);
  }

  function LastPiece(p: Pieces): string { if p.Last? then p.raw else LastPiece(p.rest) }

  /** `a`, then a nine between two NULs, then `b`. */
  function Nine(a: Pieces, b: Pieces): Pieces {
    match a
    case Last(raw) => Nul(raw, Nul("9", b))
    case Nul(raw, rest) => Nul(raw, Nine(rest, b))
  }

  lemma {:induction false} NineSwap(a: Pieces, b: Pieces, key: nat, span: Doc)
    requires Quiet(a) && Quiet(b) && !AllDigits(b.raw) && Digits(key) != "9"
    requires a.Nul? ==> !AllDigits(LastPiece(a))
    ensures Swap(Nine(a, b), key, span) == Nine(a, b)
  {
    match a
    case Last(raw) =>
      SwapQuiet(b, key, span);
      assert Swap(Nul("9", b), key, span) == Nul("9", b);
    case Nul(raw, rest) => NineSwap(rest, b, key, span);
  }

  lemma {:induction false} NineOpens(a: Pieces, b: Pieces)
    requires Quiet(a) && Quiet(b) && (a.Nul? ==> !AllDigits(LastPiece(a)))
    ensures Swap(Nine(a, b), 9, SET9) == Weld(a, Set9(b))
  {
    OneDigit(9);
    match a
    case Last(raw) =>
      SwapQuiet(b, 9, SET9);
      GlueRaw(raw, "", SET9, b);
      assert raw + "" == raw;
    case Nul(raw, rest) => NineOpens(rest, b);
  }

  lemma {:induction false} WeldNine(lead: Pieces, a: Pieces, b: Pieces)
    ensures Weld(lead, Nine(a, b)) == Nine(Weld(lead, a), b)
  {
    if lead.Nul? { WeldNine(lead.rest, a, b); }
  }

  lemma {:induction false} NineWeld(a: Pieces, b: Pieces, q: Pieces)
    ensures Weld(Nine(a, b), q) == Nine(a, Weld(b, q))
  {
    if a.Nul? { NineWeld(a.rest, b, q); }
  }

  lemma {:induction false} LastOfWeld(p: Pieces, q: Pieces)
    ensures q.Nul? ==> LastPiece(Weld(p, q)) == LastPiece(q)
  {
    if p.Nul? { LastOfWeld(p.rest, q); }
  }

  lemma {:induction false} NinePass(held: seq<Doc>, a: Pieces, b: Pieces, i: nat)
    requires |held| == 10 && held[9] == SET9 && i <= 9
    requires Quiet(a) && Quiet(b) && a.Nul? && !AllDigits(LastPiece(a)) && !AllDigits(b.raw)
    ensures SwapUp(held, Nine(a, b), i) == Weld(a, Set9(b))
    decreases 9 - i
  {
    if i == 9 {
      NineOpens(a, b);
    } else {
      NineStays(a, b, i, held[i]);
      NinePass(held, a, b, i + 1);
    }
  }

  /** What stands in front of the open label set, and behind it, after one more round. */
  function MoreLead(lead: Pieces, p: string): Pieces { Weld(lead, Nul("{", Last("4" + p + "5"))) }

  function MoreTrail(trail: Pieces, p: string): Pieces { Nul("6" + p + "7", Weld(Last("}"), trail)) }

  lemma MoreIsQuiet(lead: Pieces, trail: Pieces, p: string)
    requires Quiet(lead) && Quiet(trail) && !AllDigits(p)
    ensures var a, b := MoreLead(lead, p), MoreTrail(trail, p);
      Quiet(a) && Quiet(b) && a.Nul? && !AllDigits(LastPiece(a)) && !AllDigits(b.raw)
  {
    NotDigits("4", p, "5");
    NotDigits("6", p, "7");
    var inner := Nul("{", Last("4" + p + "5"));
    assert '{' in inner.raw && !AllDigits(inner.raw);
    WeldQuiet(lead, inner);
    LastOfWeld(lead, inner);
    assert '}' in "}" + trail.raw;
  }

  /** Each round opens the second label set once more, between the same two texts. */
  lemma OneRound(lits: seq<string>, lead: Pieces, trail: Pieces)
    requires Literals8(lits) && Quiet(lead) && Quiet(trail)
    ensures SwapUp(Held(lits), Weld(lead, Set9(trail)), 0)
         == Weld(MoreLead(lead, lits[0]), Set9(MoreTrail(trail, lits[0])))
  {
    var held, p := Held(lits), lits[0];
    HeldIs(lits);
    SetPieces(trail);
    assert '{' in Set9(trail).raw;
    SwapWeld(lead, Set9(trail), 0, Tail(p));
    SwapQuiet(lead, 0, Tail(p));
    ZerosFirst(p, trail);
    var a := Nul("{", Last("4" + p + "5"));
    assert Opened(p, trail) == Nine(a, MoreTrail(trail, p));
    WeldNine(lead, a, MoreTrail(trail, p));
    MoreIsQuiet(lead, trail, p);
    NinePass(held, MoreLead(lead, p), MoreTrail(trail, p), 1);
  }

  function Nulls(p: Pieces): nat { if p.Last? then 0 else 1 + Nulls(p.rest) }

  lemma {:induction false} NullsWeld(p: Pieces, q: Pieces)
    ensures Nulls(Weld(p, q)) == Nulls(p) + Nulls(q)
  {
    if p.Nul? { NullsWeld(p.rest, q); }
  }

  lemma {:induction false} NullsNine(a: Pieces, b: Pieces)
    ensures Nulls(Nine(a, b)) == Nulls(a) + 2 + Nulls(b)
  {
    if a.Nul? { NullsNine(a.rest, b); }
  }

  lemma NullsSet(after: Pieces)
    ensures Nulls(Set9(after)) == 8 + Nulls(after)
  {
    SetPieces(after);
    var end := Weld(Last("}"), after);
    assert Nulls(end) == Nulls(after);
    var seven := Nul("7", end);
    var six := Nul("6", Nul("0", seven));
    var five := Nul("5", Nul("9", six));
    assert Nulls(seven) == 1 + Nulls(end) && Nulls(six.rest) == 1 + Nulls(seven) && Nulls(five.rest) == 1 + Nulls(six);
    assert Nulls(Nul("0", five)) == 1 + Nulls(five) && Nulls(Nul("4", Nul("0", five))) == 2 + Nulls(five);
  }

  predicate Plain(p: Pieces, q: Pieces) { Pure(p) && Pure(q) && Quiet(p) && Quiet(q) }

  lemma MoreIsPlain(lits: seq<string>, lead: Pieces, trail: Pieces)
    requires Literals8(lits) && Plain(lead, trail)
    ensures Plain(MoreLead(lead, lits[0]), MoreTrail(trail, lits[0]))
  {
    var p := lits[0];
    MoreIsQuiet(lead, trail, p);
    FlatWeld(lead, Nul("{", Last("4" + p + "5")));
    FlatWeld(Last("}"), trail);
  }

  lemma SetIsPure(lead: Pieces, trail: Pieces)
    requires Pure(lead) && Pure(trail)
    ensures Pure(Weld(lead, Set9(trail))) && NUL in Flat(Weld(lead, Set9(trail)))
  {
    assert Clean(SET9);
    FlatGlue("", SET9, trail);
    FlatWeld(lead, Set9(trail));
    SetPieces(trail);
    NullsWeld(lead, Set9(trail));
    CutAtNul(Weld(lead, Set9(trail)));
  }

  lemma {:induction false} NeverSettles(lits: seq<string>, lead: Pieces, trail: Pieces, rounds: nat)
    requires Literals8(lits) && Plain(lead, trail)
    ensures !Settles(Rendered(Held(lits)), Flat(Weld(lead, Set9(trail))), rounds)
    decreases rounds
  {
    var p := Weld(lead, Set9(trail));
    SetIsPure(lead, trail);
    if rounds > 0 {
      var lead2, trail2 := MoreLead(lead, lits[0]), MoreTrail(trail, lits[0]);
      MoreIsPlain(lits, lead, trail);
      SetIsPure(lead2, trail2);
      HeldIs(lits);
      ForwardSwaps(Held(lits), p, 0);
      OneRound(lits, lead, trail);
      Grows(lead, trail, lits[0]);
      if Flat(p) == Flat(Weld(lead2, Set9(trail2))) { SamePieces(p, Weld(lead2, Set9(trail2))); }
      NeverSettles(lits, lead2, trail2, rounds - 1);
    }
  }

  lemma Grows(lead: Pieces, trail: Pieces, p: string)
    ensures Nulls(Weld(MoreLead(lead, p), Set9(MoreTrail(trail, p)))) == Nulls(Weld(lead, Set9(trail))) + 2
  {
    NullsWeld(MoreLead(lead, p), Set9(MoreTrail(trail, p)));
    NullsWeld(lead, Nul("{", Last("4" + p + "5")));
    NullsWeld(lead, Set9(trail));
    NullsWeld(Last("}"), trail);
    NullsSet(trail);
    NullsSet(MoreTrail(trail, p));
  }

  // ----- what the newest-first pass leaves -----

  const FIRST := Nul("a", Nul("8", Last("+")))
  const SECOND := Nul("b", Nul("9", Last("")))

  function LeftLead(w: string): Pieces { Nul("a{", Last("0" + w + "1")) }

  function LeftTrail(w: string): Pieces { Nul("2" + w + "3", Last("}+")) }

  /** The first label set is wide, then its sevens are read as the last literal. */
  lemma FirstOpened(w: string)
    ensures Swap(FIRST, 9, SET9) == FIRST
    ensures Swap(Swap(FIRST, 8, SET8), 7, Tail(w)) == Nine(LeftLead(w), LeftTrail(w))
  {
    OneDigit(0); OneDigit(1); OneDigit(2); OneDigit(3); OneDigit(7); OneDigit(8); OneDigit(9);
    var end: Pieces := Last("}+");
    assert "" + "}" + "+" == "}+" && "" + "7" == "7" && "" + "9" == "9" && "a" + "{" == "a{";
    assert Glue("", Tail("}"), Last("+")) == end;
    assert Glue("", Hole("7", 3, Tail("}")), Last("+")) == Nul("7", Nul("3", end));
    var two := Nul("2", Nul("7", Nul("3", end)));
    assert Glue("", Hole("9", 2, Hole("7", 3, Tail("}"))), Last("+")) == Nul("9", two);
    var one := Nul("1", Nul("9", two));
    var wide := Nul("a{", Nul("0", Nul("7", one)));
    assert Swap(FIRST, 8, SET8) == wide;
    assert Swap(Nul("3", end), 7, Tail(w)) == Nul("3", end);
    assert Swap(two, 7, Tail(w)) == Nul("2" + w + "3", end);
    assert Swap(Nul("9", two), 7, Tail(w)) == Nul("9", Swap(two, 7, Tail(w)));
    assert Swap(one, 7, Tail(w)) == Nul("1", Nul("9", Swap(two, 7, Tail(w))));
    assert Swap(Nul("0", Nul("7", one)), 7, Tail(w)) == Nul("0" + w + "1", Nul("9", Swap(two, 7, Tail(w))));
  }

  lemma {:induction false} NineLeft(held: seq<Doc>, a: Pieces, b: Pieces, n: nat)
    requires n <= |held| == 10 && n < 8 && Quiet(a) && Quiet(b) && a.Nul? && !AllDigits(LastPiece(a)) && !AllDigits(b.raw)
    ensures SwapDown(held, Nine(a, b), n) == Nine(a, b)
  {
    if n > 0 {
      NineStays(a, b, n - 1, held[n - 1]);
      NineLeft(held, a, b, n - 1);
    }
  }

  lemma LeftIsPlain(w: string)
    requires NUL !in w && !AllDigits(w)
    ensures var a, b := LeftLead(w), LeftTrail(w); Plain(a, b) && !AllDigits(LastPiece(a)) && !AllDigits(b.raw)
  {
    NotDigits("0", w, "1");
    NotDigits("2", w, "3");
  }

  lemma FirstLeft(lits: seq<string>)
    requires Literals8(lits)
    ensures SwapDown(Held(lits), FIRST, 10) == Nine(LeftLead(lits[7]), LeftTrail(lits[7]))
  {
    var held, w := Held(lits), lits[7];
    HeldIs(lits);
    FirstOpened(w);
    LeftIsPlain(w);
    var wide := Swap(FIRST, 8, SET8);
    NineLeft(held, LeftLead(w), LeftTrail(w), 7);
    assert SwapDown(held, wide, 8) == SwapDown(held, Nine(LeftLead(w), LeftTrail(w)), 7);
    assert SwapDown(held, FIRST, 9) == SwapDown(held, wide, 8);
  }

  lemma SecondReadable(lits: seq<string>)
    requires Literals8(lits)
    ensures Layered(Held(lits)) && Readable(Held(lits), 10, Hole("b", 9, Tail("")))
  {
    var held := Held(lits);
    HeldIs(lits);
    forall k: nat | 5 <= k < 9 ensures "0" != Digits(k) { OneDigit(k); }
    forall k: nat | 6 <= k < 9 ensures "9" != Digits(k) { OneDigit(k); }
    var last := Hole("0", 7, Tail("}"));
    assert Readable(held, 9, last);
    assert Readable(held, 9, Hole("9", 6, last));
    assert Readable(held, 9, Hole("0", 5, Hole("9", 6, last)));
    assert Readable(held, 9, SET9);
  }

  /** The second label set comes back whole. */
  lemma SecondLeft(lits: seq<string>) returns (text: string)
    requires Literals8(lits)
    ensures NUL !in text && SwapDown(Held(lits), SECOND, 10) == Last(text)
  {
    var held, d := Held(lits), Hole("b", 9, Tail(""));
    HeldIs(lits);
    SecondReadable(lits);
    BackwardExact(held, d, 10);
    PiecesOfDoc(d);
    OneDigit(9);
    assert PiecesOf(d) == SECOND;
    BackwardSwaps(held, SECOND, 10);
    CutAtNul(SwapDown(held, SECOND, 10));
    text := SwapDown(held, SECOND, 10).raw;
  }

  /** Both label sets masked. */
  const MASKED := Hole("a", 8, Hole("+b", 9, Tail("")))

  lemma BackwardLeaves(lits: seq<string>) returns (lead: Pieces, trail: Pieces)
    requires Literals8(lits)
    ensures Plain(lead, trail) && lead.Nul? && !AllDigits(LastPiece(lead)) && !AllDigits(trail.raw)
    ensures Pure(Nine(lead, trail)) && Backward(Rendered(Held(lits)), Render(MASKED), 10) == Flat(Nine(lead, trail))
  {
    var held, w := Held(lits), lits[7];
    HeldIs(lits);
    OneDigit(8); OneDigit(9);
    PiecesOfDoc(MASKED);
    assert "+" + "b" == "+b";
    assert PiecesOf(Hole("+b", 9, Tail(""))) == Weld(Last("+"), SECOND);
    assert PiecesOf(MASKED) == Weld(FIRST, SECOND);
    BackwardSwaps(held, PiecesOf(MASKED), 10);
    assert 'b' in SECOND.raw;
    SwapDownWeld(held, FIRST, SECOND, 10);
    FirstLeft(lits);
    var text := SecondLeft(lits);
    LeftIsPlain(w);
    lead, trail := LeftLead(w), Weld(LeftTrail(w), Last(text));
    NineWeld(lead, LeftTrail(w), Last(text));
    FlatWeld(LeftTrail(w), Last(text));
  }

  /** The clean-up never ends on what the newest-first pass leaves. */
  lemma NeverRestored(lits: seq<string>, rounds: nat)
    requires Literals8(lits)
    ensures !Settles(Rendered(Held(lits)), Backward(Rendered(Held(lits)), Render(MASKED), 10), rounds)
  {
    var held := Held(lits);
    var lead, trail := BackwardLeaves(lits);
    var p, q := Nine(lead, trail), Weld(lead, Set9(trail));
    HeldIs(lits);
    NullsNine(lead, trail);
    CutAtNul(p);
    if rounds > 0 {
      ForwardSwaps(held, p, 0);
      NinePass(held, lead, trail, 0);
      SetIsPure(lead, trail);
      NullsWeld(lead, Set9(trail));
      NullsSet(trail);
      if Flat(p) == Flat(q) { SamePieces(p, q); }
      NeverSettles(lits, lead, trail, rounds - 1);
    }
  }

  // ----- the query -----

  /** Plain text in front of each literal. */
  function Cuts(gaps: seq<string>, lits: seq<string>): seq<Cut>
    requires |gaps| == |lits|
  {
    if gaps == [] then [] else [Cut(Tail(gaps[0]), Tail(lits[0]))] + Cuts(gaps[1..], lits[1..])
  }

  function Woven(gaps: seq<string>, lits: seq<string>, last: string): string
    requires |gaps| == |lits|
  {
    if gaps == [] then last else gaps[0] + (lits[0] + Woven(gaps[1..], lits[1..], last))
  }

  function Holes(gaps: seq<string>, next: nat, last: string): Doc {
    if gaps == [] then Tail(last) else Hole(gaps[0], next, Holes(gaps[1..], next + 1, last))
  }

  lemma {:induction false} CutsWeave(gaps: seq<string>, lits: seq<string>, last: string, next: nat)
    requires |gaps| == |lits|
    ensures Whole(Cuts(gaps, lits), Tail(last)) == Tail(Woven(gaps, lits, last))
    ensures Masked(Cuts(gaps, lits), Tail(last), next) == Holes(gaps, next, last)
    ensures Takes(Cuts(gaps, lits)) == Texts(lits)
  {
    if gaps != [] {
      var cuts := Cuts(gaps, lits);
      CutsWeave(gaps[1..], lits[1..], last, next + 1);
      assert cuts[0] == Cut(Tail(gaps[0]), Tail(lits[0])) && cuts[1..] == Cuts(gaps[1..], lits[1..]);
      assert Takes(cuts) == [Tail(lits[0])] + Takes(cuts[1..]) && Texts(lits) == [Tail(lits[0])] + Texts(lits[1..]);
      assert gaps[0] + "" == gaps[0];
    }
  }

  lemma {:induction false} CutsClean(gaps: seq<string>, lits: seq<string>, last: string)
    requires |gaps| == |lits| && NUL !in last
    requires forall i :: 0 <= i < |gaps| ==> NUL !in gaps[i] && NUL !in lits[i] && !AllDigits(lits[i])
    ensures NUL !in Woven(gaps, lits, last) && Fits(Cuts(gaps, lits), Tail(last), 0)
    ensures forall c :: c in Cuts(gaps, lits) ==> Guarded(c.take)
  {
    if gaps != [] { CutsClean(gaps[1..], lits[1..], last); }
  }

  const GAPS: seq<string> := ["a{", "7", "9", "7", "}+b{", "0", "9", "0"]

  /** `a{"p"7"q"9"r"7"s"}+b{"t"0"u"9"v"0"w"}`, for any eight literals. */
  function Query(lits: seq<string>): string
    requires |lits| == 8
  {
    Woven(GAPS, lits, "}")
  }

  const SETS := [Cut(Tail("a"), SET8), Cut(Tail("+b"), SET9)]

  /** One pass over the literals, one over the label sets. */
  function Passes(lits: seq<string>): seq<Pass>
    requires |lits| == 8
  {
    [Pass(Cuts(GAPS, lits), Tail("}")), Pass(SETS, Tail(""))]
  }

  lemma SetsMasked()
    ensures Whole(SETS, Tail("")) == Holes(GAPS, 0, "}") && Masked(SETS, Tail(""), 8) == MASKED && Takes(SETS) == [SET8, SET9]
  {
    assert SETS[1..] == [SETS[1]] && SETS[1..][1..] == [];
    assert "+b" + "" == "+b" && "a" + "" == "a" && "a" + "{" == "a{";
    assert Masked(SETS[1..], Tail(""), 9) == Hole("+b", 9, Tail(""));
    HolesOfGaps();
    var last := Hole("0", 7, Tail("}"));
    var second := Hole("{", 4, Hole("0", 5, Hole("9", 6, last)));
    assert Join(last, Tail("")) == last && Join(Hole("9", 6, last), Tail("")) == Hole("9", 6, last);
    assert Join(SET9, Tail("")) == SET9 == second;
    assert Whole(SETS[1..], Tail("")) == Join(Tail("+b"), SET9) == Hole("+b{", 4, second.rest);
    var third := Hole("7", 3, Tail("}"));
    assert "}" + "+b{" == "}+b{";
    assert Join(third, Hole("+b{", 4, second.rest)) == Hole("7", 3, Hole("}+b{", 4, second.rest));
    assert Join(Hole("9", 2, third), Hole("+b{", 4, second.rest)) == Hole("9", 2, Hole("7", 3, Hole("}+b{", 4, second.rest)));
  }

  lemma HolesOfGaps()
    ensures Holes(GAPS, 0, "}")
         == Hole("a{", 0, Hole("7", 1, Hole("9", 2, Hole("7", 3, Hole("}+b{", 4, Hole("0", 5, Hole("9", 6, Hole("0", 7, Tail("}")))))))))
  {
    assert GAPS[7..][1..] == [] && GAPS[6..][1..] == GAPS[7..] && GAPS[5..][1..] == GAPS[6..] && GAPS[4..][1..] == GAPS[5..];
    assert GAPS[3..][1..] == GAPS[4..] && GAPS[2..][1..] == GAPS[3..] && GAPS[1..][1..] == GAPS[2..];
    assert Holes(GAPS[7..], 7, "}") == Hole("0", 7, Tail("}"));
    assert Holes(GAPS[5..], 5, "}") == Hole("0", 5, Hole("9", 6, Hole("0", 7, Tail("}"))));
    assert Holes(GAPS[3..], 3, "}") == Hole("7", 3, Hole("}+b{", 4, Holes(GAPS[5..], 5, "}")));
    assert Holes(GAPS[1..], 1, "}") == Hole("7", 1, Hole("9", 2, Holes(GAPS[3..], 3, "}")));
  }

  lemma LiteralPass(lits: seq<string>)
    requires Literals8(lits)
    ensures NUL !in Query(lits) && Fits(Cuts(GAPS, lits), Tail("}"), 0)
    ensures Whole(Cuts(GAPS, lits), Tail("}")) == Tail(Query(lits)) && Takes(Cuts(GAPS, lits)) == Texts(lits)
    ensures Masked(Cuts(GAPS, lits), Tail("}"), 0) == Holes(GAPS, 0, "}")
    ensures forall c :: c in Cuts(GAPS, lits) ==> Guarded(c.take)
  {
    CutsWeave(GAPS, lits, "}", 0);
    CutsClean(GAPS, lits, "}");
  }

  lemma SetPass(lits: seq<string>)
    requires Literals8(lits)
    ensures Fits(SETS, Tail(""), 8) && Guarded(SET8) && Guarded(SET9)
    ensures forall i :: 0 <= i < |SETS| ==> Guarded(SETS[i].take)
  {
    HeldIs(lits);
    assert Guarded(Held(lits)[8]) && Guarded(Held(lits)[9]);
    assert Clean(SET8) && Clean(SET9) && KeysBelow(SET8, 8) && KeysBelow(SET9, 8);
  }

  lemma PassesGuarded(lits: seq<string>)
    requires Literals8(lits)
    ensures GuardedPasses(Passes(lits))
  {
    var passes := Passes(lits);
    LiteralPass(lits);
    SetPass(lits);
    forall i, j | 0 <= i < |passes| && 0 <= j < |passes[i].cuts|
      ensures Guarded(passes[i].cuts[j].take)
    {
      if i == 0 { assert passes[0].cuts[j] in Cuts(GAPS, lits); }
    }
  }

  lemma SecondPass(lits: seq<string>)
    requires Literals8(lits)
    ensures var rest := [Pass(SETS, Tail(""))];
      && Chain(Texts(lits), Holes(GAPS, 0, "}"), rest)
      && Spans(Texts(lits), rest) == Held(lits) && Text(Texts(lits), Holes(GAPS, 0, "}"), rest) == MASKED
  {
    SetPass(lits);
    SetsMasked();
    assert [Pass(SETS, Tail(""))][1..] == [];
  }

  lemma QueryMasked(lits: seq<string>)
    requires Literals8(lits)
    ensures NUL !in Query(lits) && Chain([], Tail(Query(lits)), Passes(lits))
    ensures Spans([], Passes(lits)) == Held(lits) && Text([], Tail(Query(lits)), Passes(lits)) == MASKED
  {
    LiteralPass(lits);
    SecondPass(lits);
    assert [] + Texts(lits) == Texts(lits) && Passes(lits)[1..] == [Pass(SETS, Tail(""))];
  }

  /** Whatever its literals hold: masked as the program masks it, this query is never
      restored, however many rounds the clean-up takes. */
  lemma RestoringHangs(lits: seq<string>, rounds: nat)
    requires Literals8(lits)
    ensures var h, e := Spans([], Passes(lits)), Text([], Tail(Query(lits)), Passes(lits));
      && Chain([], Tail(Query(lits)), Passes(lits)) && GuardedPasses(Passes(lits))
      && |h| == 10 && !Settles(Rendered(h), Backward(Rendered(h), Render(e), 10), rounds)
  {
    QueryMasked(lits);
    PassesGuarded(lits);
    HeldIs(lits);
    NeverRestored(lits, rounds);
  }
}
