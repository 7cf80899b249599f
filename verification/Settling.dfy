/** Whether the clean-up loop ends: on every text when no span holds a number that could
    be read as a placeholder, and not on every text otherwise. */
module Settling {
  import opened Masking
  import opened Restoring
  import opened Maskers

  // ----- passes over pieces -----

  function PiecesIn(text: string): Pieces {
    if text == "" then Last("")
    else
      var p := PiecesIn(text[1..]);
      if text[0] == NUL then Nul("", p) else p.(raw := [text[0]] + p.raw)
  }

  lemma {:induction false} PiecesInText(text: string)
    ensures Pure(PiecesIn(text)) && Flat(PiecesIn(text)) == text
  {
    if text != "" {
      PiecesInText(text[1..]);
      assert [text[0]] + text[1..] == text;
      var p := PiecesIn(text[1..]);
      if text[0] == NUL {
        assert "" + ([NUL] + Flat(p)) == [NUL] + Flat(p);
      } else if p.Nul? {
        assert ([text[0]] + p.raw) + ([NUL] + Flat(p.rest)) == [text[0]] + (p.raw + ([NUL] + Flat(p.rest)));
      }
    }
  }

  function SwapUp(held: seq<Doc>, p: Pieces, i: nat): Pieces
    requires i <= |held|
    decreases |held| - i
  {
    if i == |held| then p else SwapUp(held, Swap(p, i, held[i]), i + 1)
  }

  function SwapDown(held: seq<Doc>, p: Pieces, n: nat): Pieces
    requires n <= |held|
    decreases n
  {
    if n == 0 then p else SwapDown(held, Swap(p, n - 1, held[n - 1]), n - 1)
  }

  lemma {:induction false} ForwardSwaps(held: seq<Doc>, p: Pieces, i: nat)
    requires Layered(held) && i <= |held| && Pure(p)
    ensures Pure(SwapUp(held, p, i)) && Forward(Rendered(held), Flat(p), i) == Flat(SwapUp(held, p, i))
    decreases |held| - i
  {
    if i < |held| {
      ReplaceSwaps(p, i, held[i]);
      ForwardSwaps(held, Swap(p, i, held[i]), i + 1);
    }
  }

  lemma {:induction false} BackwardSwaps(held: seq<Doc>, p: Pieces, n: nat)
    requires Layered(held) && n <= |held| && Pure(p)
    ensures Pure(SwapDown(held, p, n)) && Backward(Rendered(held), Flat(p), n) == Flat(SwapDown(held, p, n))
    decreases n
  {
    if n > 0 {
      ReplaceSwaps(p, n - 1, held[n - 1]);
      BackwardSwaps(held, Swap(p, n - 1, held[n - 1]), n - 1);
    }
  }

  // ----- where the loop always ends -----

  /** No two neighbouring placeholders of a span have a span's number between them. */
  predicate Gapless(d: Doc, n: nat) {
    d.Hole? ==> (d.rest.Hole? ==> IsNoNumber(d.rest.raw, 0, n)) && Gapless(d.rest, n)
  }

  predicate AllGapless(held: seq<Doc>) { forall i :: 0 <= i < |held| ==> Gapless(held[i], |held|) }

  /** Placeholders in a span, those inside them included. */
  function DocWeight(held: seq<Doc>, bound: nat, d: Doc): nat
    requires bound <= |held| && Layered(held) && KeysBelow(d, bound)
    decreases bound, d
  {
    if d.Tail? then 0 else 1 + DocWeight(held, d.key, held[d.key]) + DocWeight(held, bound, d.rest)
  }

  /** What a piece between two NULs can still open when it is a number below `n`. */
  function PieceWeight(held: seq<Doc>, raw: string, n: nat): nat
    requires n <= |held| && Layered(held)
  {
    if n == 0 then 0
    else if raw == Digits(n - 1) then 1 + DocWeight(held, n - 1, held[n - 1])
    else PieceWeight(held, raw, n - 1)
  }

  function WeightIn(held: seq<Doc>, p: Pieces): nat
    requires Layered(held)
  {
    match p
    case Last(_) => 0
    case Nul(raw, rest) => PieceWeight(held, raw, |held|) + WeightIn(held, rest)
  }

  lemma {:induction false} KeyWeight(held: seq<Doc>, k: nat, n: nat)
    requires k < n <= |held| && Layered(held)
    ensures PieceWeight(held, Digits(k), n) == 1 + DocWeight(held, k, held[k])
  {
    if k != n - 1 {
      if Digits(k) == Digits(n - 1) { DigitsInjective(k, n - 1); }
      KeyWeight(held, k, n - 1);
    }
  }

  lemma {:induction false} NoNumberWeight(held: seq<Doc>, raw: string, n: nat)
    requires n <= |held| && Layered(held) && IsNoNumber(raw, 0, n)
    ensures PieceWeight(held, raw, n) == 0
  {
    if n > 0 { NoNumberWeight(held, raw, n - 1); }
  }

  lemma NonDigitWeight(held: seq<Doc>, raw: string)
    requires Layered(held) && !AllDigits(raw)
    ensures PieceWeight(held, raw, |held|) == 0
  {
    NoNumberWeight(held, raw, |held|);
  }

  /** The pieces of a span behind its first, with what follows: a gap, then a placeholder. */
  lemma {:induction false} GlueRestWeight(held: seq<Doc>, bound: nat, span: Doc, after: Pieces)
    requires bound <= |held| && Layered(held) && KeysBelow(span, bound) && Gapless(span, |held|)
    requires !AllDigits(LastRaw(span)) && (span.Hole? ==> IsNoNumber(span.raw, 0, |held|))
    ensures WeightIn(held, Glue("", span, after)) <= DocWeight(held, bound, span) + WeightIn(held, after)
    decreases span
  {
    match span
    case Tail(s) =>
      if after.Nul? {
        NotDigits("", s, after.raw);
        NonDigitWeight(held, "" + s + after.raw);
      }
    case Hole(s, key, more) =>
      assert "" + s == s;
      NoNumberWeight(held, s, |held|);
      KeyWeight(held, key, |held|);
      GlueRestWeight(held, bound, more, after);
  }

  lemma GlueWeight(held: seq<Doc>, k: nat, raw: string, after: Pieces)
    requires Layered(held) && AllGuarded(held) && AllGapless(held) && k < |held|
    ensures WeightIn(held, Glue(raw, held[k], after)) <= DocWeight(held, k, held[k]) + WeightIn(held, after)
  {
    match held[k]
    case Tail(s) =>
      if after.Nul? {
        NotDigits(raw, s, after.raw);
        NonDigitWeight(held, raw + s + after.raw);
      }
    case Hole(s, key, more) =>
      NotDigits(raw, s, "");
      assert raw + s + "" == raw + s;
      NonDigitWeight(held, raw + s);
      KeyWeight(held, key, |held|);
      GlueRestWeight(held, k, more, after);
  }

  /** Putting a span back takes weight away or changes nothing. */
  lemma {:induction false} SwapWeight(held: seq<Doc>, p: Pieces, k: nat)
    requires Layered(held) && AllGuarded(held) && AllGapless(held) && k < |held|
    ensures var q := Swap(p, k, held[k]); q == p || WeightIn(held, q) < WeightIn(held, p)
  {
    if p.Nul? && p.rest.Nul? {
      if p.rest.raw == Digits(k) {
        var after := p.rest.rest;
        SwapWeight(held, after, k);
        GlueWeight(held, k, p.raw, Swap(after, k, held[k]));
        KeyWeight(held, k, |held|);
      } else {
        SwapWeight(held, p.rest, k);
      }
    }
  }

  lemma {:induction false} SwapUpWeight(held: seq<Doc>, p: Pieces, i: nat)
    requires Layered(held) && AllGuarded(held) && AllGapless(held) && i <= |held|
    ensures var q := SwapUp(held, p, i); q == p || WeightIn(held, q) < WeightIn(held, p)
    decreases |held| - i
  {
    if i < |held| {
      SwapWeight(held, p, i);
      SwapUpWeight(held, Swap(p, i, held[i]), i + 1);
    }
  }

  lemma {:induction false} PiecesSettle(held: seq<Doc>, p: Pieces, rounds: nat)
    requires Layered(held) && AllGuarded(held) && AllGapless(held) && Pure(p) && rounds > WeightIn(held, p)
    ensures Settles(Rendered(held), Flat(p), rounds)
    decreases rounds
  {
    var q := SwapUp(held, p, 0);
    ForwardSwaps(held, p, 0);
    SwapUpWeight(held, p, 0);
    if q != p { PiecesSettle(held, q, rounds - 1); }
  }

  /** When no span holds a number between placeholders, the clean-up ends on every text. */
  lemma GaplessSettles(held: seq<Doc>, text: string) returns (rounds: nat)
    requires Layered(held) && AllGuarded(held) && AllGapless(held)
    ensures Settles(Rendered(held), text, rounds)
  {
    PiecesInText(text);
    rounds := WeightIn(held, PiecesIn(text)) + 1;
    PiecesSettle(held, PiecesIn(text), rounds);
  }
}
