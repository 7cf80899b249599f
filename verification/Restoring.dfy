/** Putting masked spans back: what the text replacements give for every masked
    text, and exactly when that is the text meant.

    A placeholder is looked for as text, so the NUL closing one placeholder, digits
    and the NUL opening the next can be taken for a placeholder themselves. */
module Restoring {
  import opened Masking

  // ----- text cut at every NUL -----

  datatype Pieces = Last(raw: string) | Nul(raw: string, rest: Pieces)

  function Flat(p: Pieces): string {
    match p
    case Last(raw) => raw
    case Nul(raw, rest) => raw + ([NUL] + Flat(rest))
  }

  predicate Pure(p: Pieces) { NUL !in p.raw && (p.Nul? ==> Pure(p.rest)) }

  function PiecesOf(d: Doc): Pieces {
    match d
    case Tail(raw) => Last(raw)
    case Hole(raw, key, rest) => Nul(raw, Nul(Digits(key), PiecesOf(rest)))
  }

  /** The pieces of `raw`, then a span, then `after`. */
  function Glue(raw: string, span: Doc, after: Pieces): Pieces
    decreases span
  {
    match span
    case Tail(s) => after.(raw := raw + s + after.raw)
    case Hole(s, key, more) => Nul(raw + s, Nul(Digits(key), Glue("", more, after)))
  }

  lemma {:induction false} PiecesOfDoc(d: Doc)
    requires Clean(d)
    ensures Pure(PiecesOf(d)) && Flat(PiecesOf(d)) == Render(d)
  {
    if d.Hole? {
      PiecesOfDoc(d.rest);
      assert [NUL] + (Digits(d.key) + ([NUL] + Render(d.rest))) == KeyText(d.key) + Render(d.rest);
    }
  }

  lemma Regroup(raw: string, s: string, key: nat, more: string, after: string)
    ensures (raw + s) + ([NUL] + (Digits(key) + ([NUL] + (more + after)))) == raw + ((s + (KeyText(key) + more)) + after)
  {
    assert [NUL] + (Digits(key) + ([NUL] + (more + after))) == KeyText(key) + (more + after);
    assert (s + (KeyText(key) + more)) + after == s + (KeyText(key) + (more + after));
  }

  lemma {:induction false} FlatGlue(raw: string, span: Doc, after: Pieces)
    requires Clean(span) && Pure(after) && NUL !in raw
    ensures Pure(Glue(raw, span, after)) && Flat(Glue(raw, span, after)) == raw + (Render(span) + Flat(after))
    decreases span
  {
    match span
    case Tail(s) =>
      if after.Nul? {
        assert (raw + s + after.raw) + ([NUL] + Flat(after.rest)) == raw + (s + Flat(after));
      }
    case Hole(s, key, more) =>
      FlatGlue("", more, after);
      assert "" + (Render(more) + Flat(after)) == Render(more) + Flat(after);
      Regroup(raw, s, key, Render(more), Flat(after));
  }

  lemma {:induction false} GlueDocs(raw: string, span: Doc, d: Doc)
    ensures Glue(raw, span, PiecesOf(d)) == PiecesOf(Prefixed(raw, Join(span, d)))
    decreases span
  {
    match span
    case Tail(s) => assert raw + s + d.raw == raw + (s + d.raw);
    case Hole(s, key, more) =>
      GlueDocs("", more, d);
      var rest := Join(more, d);
      assert Prefixed("", rest) == rest by { assert "" + rest.raw == rest.raw; }
  }

  // ----- one replacement -----

  /** The key is read wherever its digits stand between two NULs, leftmost first. */
  function Swap(p: Pieces, key: nat, span: Doc): Pieces {
    match p
    case Last(_) => p
    case Nul(raw, Nul(digits, after)) =>
      if digits == Digits(key) then Glue(raw, span, Swap(after, key, span)) else Nul(raw, Swap(p.rest, key, span))
    case Nul(_, Last(_)) => p
  }

  lemma DigitsHead(p: Pieces, key: nat, more: string)
    requires Pure(p) && Flat(p) == Digits(key) + [NUL] + more
    ensures p.Nul? && p.raw == Digits(key)
  {
    assert (Digits(key) + [NUL] + more)[|Digits(key)|] == NUL;
    if p.Nul? {
      assert Flat(p) == p.raw + [NUL] + Flat(p.rest);
      SameStop(p.raw, Digits(key), Flat(p.rest), more);
    }
  }

  lemma KeyHead(key: nat, more: string)
    ensures KeyText(key) + more == [NUL] + (Digits(key) + [NUL] + more)
  {}

  lemma Unread(p: Pieces, key: nat)
    requires Pure(p) && !(p.Nul? && p.raw == Digits(key))
    ensures !Starts([NUL] + Flat(p), KeyText(key))
  {
    var text, k := [NUL] + Flat(p), KeyText(key);
    if Starts(text, k) {
      var more := text[|k|..];
      assert text == k + more;
      KeyHead(key, more);
      assert Flat(p) == text[1..];
      DigitsHead(p, key, more);
    }
  }

  lemma SkipsUnread(p: Pieces, key: nat, span: string)
    requires Pure(p) && !(p.Nul? && p.raw == Digits(key))
    ensures Replace([NUL] + Flat(p), KeyText(key), span) == [NUL] + Replace(Flat(p), KeyText(key), span)
  {
    var more := [NUL] + Flat(p);
    Unread(p, key);
    NoMatch(more, KeyText(key), span);
    assert more[1..] == Flat(p);
  }

  lemma TakesRead(key: nat, after: string, span: string)
    ensures Replace([NUL] + (Digits(key) + ([NUL] + after)), KeyText(key), span)
         == span + Replace(after, KeyText(key), span)
  {
    var k, more := KeyText(key), [NUL] + (Digits(key) + ([NUL] + after));
    assert more == k + after;
    assert more[..|k|] == k && more[|k|..] == after;
  }

  /** Replacing text is replacing pieces, whatever the text. */
  lemma {:induction false} ReplaceSwaps(p: Pieces, key: nat, span: Doc)
    requires Pure(p) && Clean(span)
    ensures Pure(Swap(p, key, span)) && Replace(Flat(p), KeyText(key), Render(span)) == Flat(Swap(p, key, span))
  {
    var k, t := KeyText(key), Render(span);
    if p.Last? {
      SkipRaw(p.raw, "", k, t);
      assert p.raw + "" == p.raw;
    } else {
      SkipRaw(p.raw, [NUL] + Flat(p.rest), k, t);
      if p.rest.Nul? && p.rest.raw == Digits(key) {
        ReplaceSwaps(p.rest.rest, key, span);
        TakesRead(key, Flat(p.rest.rest), t);
        FlatGlue(p.raw, span, Swap(p.rest.rest, key, span));
      } else {
        SkipsUnread(p.rest, key, t);
        ReplaceSwaps(p.rest, key, span);
      }
    }
  }

  // ----- when one replacement is right -----

  /** No other placeholder is followed, up to the next one, by the key's digits. */
  predicate Reads(d: Doc, key: nat) {
    d.Hole? ==> (d.key != key && d.rest.Hole? ==> d.rest.raw != Digits(key)) && Reads(d.rest, key)
  }

  /** What every span a pattern matches is like: quotes around a literal, a keyword
      and a parenthesis, braces. */
  predicate Guarded(d: Doc) { !AllDigits(d.raw) && !AllDigits(LastRaw(d)) }

  function LastRaw(d: Doc): string { if d.Tail? then d.raw else LastRaw(d.rest) }

  lemma {:induction false} SwapOpens(d: Doc, key: nat, span: Doc)
    requires Reads(d, key)
    ensures Swap(PiecesOf(d), key, span) == PiecesOf(Open(d, key, span))
  {
    if d.Hole? {
      SwapOpens(d.rest, key, span);
      if d.key == key {
        GlueDocs(d.raw, span, Open(d.rest, key, span));
      } else if Digits(d.key) == Digits(key) {
        DigitsInjective(d.key, key);
      }
    }
  }

  /** Some run of NULs with nothing but digits between neighbours has an odd length;
      `odd` says whether the run that reaches up to here has. */
  predicate Odd(odd: bool, p: Pieces)
    decreases p
  {
    match p
    case Last(_) => odd
    case Nul(raw, rest) => if raw != "" && AllDigits(raw) then Odd(!odd, rest) else odd || Odd(true, rest)
  }

  lemma {:induction false} DocIsEven(d: Doc)
    ensures !Odd(false, PiecesOf(d))
  {
    if d.Hole? { DocIsEven(d.rest); }
  }

  lemma NotDigits(a: string, b: string, c: string)
    requires !AllDigits(b)
    ensures !AllDigits(a + b + c)
  {
    var ch :| ch in b && !('0' <= ch <= '9');
    var i :| 0 <= i < |b| && b[i] == ch;
    assert (a + b + c)[|a| + i] == ch;
    assert ch in a + b + c;
  }

  /** Behind a guarded span a new run starts. */
  lemma {:induction false} OddBehind(odd: bool, raw: string, span: Doc, after: Pieces)
    requires !AllDigits(LastRaw(span)) && Odd(false, after)
    ensures Odd(odd, Glue(raw, span, after))
    decreases span
  {
    match span
    case Tail(s) => NotDigits(raw, s, after.raw);
    case Hole(s, _, more) =>
      OddBehind(odd, "", more, after);
      OddBehind(false, "", more, after);
  }

  /** A guarded span ends the run before it. */
  lemma OddBefore(raw: string, span: Doc, after: Pieces)
    requires Guarded(span)
    ensures Odd(true, Glue(raw, span, after))
  {
    match span
    case Tail(s) => NotDigits(raw, s, after.raw);
    case Hole(s, _, _) => NotDigits(raw, s, "");
      assert raw + s + "" == raw + s;
  }

  /** Replacing takes two neighbouring NULs of one run, so an odd run leaves one. */
  lemma {:induction false} OddStays(odd: bool, p: Pieces, key: nat, span: Doc)
    requires Guarded(span) && Odd(odd, p)
    ensures Odd(odd, Swap(p, key, span))
    decreases p
  {
    if p.Nul? && p.rest.Nul? {
      if p.rest.raw == Digits(key) {
        if odd {
          OddBefore(p.raw, span, Swap(p.rest.rest, key, span));
        } else {
          OddStays(false, p.rest.rest, key, span);
          OddBehind(false, p.raw, span, Swap(p.rest.rest, key, span));
        }
      } else if p.raw != "" && AllDigits(p.raw) {
        OddStays(!odd, p.rest, key, span);
      } else if !odd {
        OddStays(true, p.rest, key, span);
      }
    }
  }

  /** Misreading breaks up a placeholder's pair of NULs. */
  lemma {:induction false} MisreadIsOdd(d: Doc, key: nat, span: Doc)
    requires Guarded(span) && !Reads(d, key)
    ensures Odd(false, Swap(PiecesOf(d), key, span))
  {
    var rest := PiecesOf(d.rest);
    if d.key == key {
      MisreadIsOdd(d.rest, key, span);
      OddBehind(false, d.raw, span, Swap(rest, key, span));
    } else {
      if Digits(d.key) == Digits(key) { DigitsInjective(d.key, key); }
      if d.rest.Hole? && d.rest.raw == Digits(key) {
        OddBefore(Digits(d.key), span, Swap(rest.rest, key, span));
      } else {
        MisreadIsOdd(d.rest, key, span);
      }
    }
  }

  /** Text whose NULs do not pair up. */
  ghost predicate Stuck(text: string) {
    exists p :: Pure(p) && Odd(false, p) && Flat(p) == text
  }

  lemma StuckStays(text: string, key: nat, span: Doc)
    requires Stuck(text) && Clean(span) && Guarded(span)
    ensures Stuck(Replace(text, KeyText(key), Render(span)))
  {
    var p :| Pure(p) && Odd(false, p) && Flat(p) == text;
    ReplaceSwaps(p, key, span);
    OddStays(false, p, key, span);
  }

  lemma StuckHasNul(text: string)
    requires Stuck(text)
    ensures NUL in text
  {
    var p :| Pure(p) && Odd(false, p) && Flat(p) == text;
    CutAtNul(p);
  }

  lemma CutAtNul(p: Pieces)
    requires Pure(p)
    ensures p.Nul? <==> NUL in Flat(p)
  {
    if p.Nul? { assert Flat(p)[|p.raw|] == NUL; }
  }

  lemma {:induction false} SamePieces(p: Pieces, q: Pieces)
    requires Pure(p) && Pure(q) && Flat(p) == Flat(q)
    ensures p == q
  {
    CutAtNul(p);
    CutAtNul(q);
    if p.Nul? {
      assert Flat(p) == p.raw + [NUL] + Flat(p.rest) && Flat(q) == q.raw + [NUL] + Flat(q.rest);
      SameStop(p.raw, q.raw, Flat(p.rest), Flat(q.rest));
      SamePieces(p.rest, q.rest);
    }
  }

  lemma DocIsNotStuck(d: Doc)
    requires Clean(d)
    ensures !Stuck(Render(d))
  {
    if Stuck(Render(d)) {
      var p :| Pure(p) && Odd(false, p) && Flat(p) == Render(d);
      PiecesOfDoc(d);
      SamePieces(p, PiecesOf(d));
      DocIsEven(d);
    }
  }

  /** Replacing a key as text opens exactly its placeholders if and only if no other
      placeholder is followed by the key's digits and then the next placeholder. */
  lemma ReplaceOpens(d: Doc, key: nat, span: Doc)
    requires Clean(d) && Clean(span) && Guarded(span)
    ensures Replace(Render(d), KeyText(key), Render(span)) == Render(Open(d, key, span)) <==> Reads(d, key)
    ensures !Reads(d, key) ==> Stuck(Replace(Render(d), KeyText(key), Render(span)))
  {
    PiecesOfDoc(d);
    ReplaceSwaps(PiecesOf(d), key, span);
    OpenClean(d, key, span);
    if Reads(d, key) {
      SwapOpens(d, key, span);
      PiecesOfDoc(Open(d, key, span));
    } else {
      MisreadIsOdd(d, key, span);
      DocIsNotStuck(Open(d, key, span));
    }
  }

  // ----- every replacement of a restoration -----

  /** The pass that puts the newest spans back first. */
  function Backward(spans: seq<string>, text: string, n: nat): string
    requires n <= |spans|
    decreases n
  {
    if n == 0 then text else Backward(spans, Replace(text, KeyText(n - 1), spans[n - 1]), n - 1)
  }

  /** One round of the clean-up. */
  function Forward(spans: seq<string>, text: string, i: nat): string
    requires i <= |spans|
    decreases |spans| - i
  {
    if i == |spans| then text else Forward(spans, Replace(text, KeyText(i), spans[i]), i + 1)
  }

  /** The clean-up stops within this many rounds. */
  predicate Settles(spans: seq<string>, text: string, rounds: nat)
    decreases rounds
  {
    NUL in text ==> rounds > 0 && var next := Forward(spans, text, 0); next == text || Settles(spans, next, rounds - 1)
  }

  function CleanedUp(spans: seq<string>, text: string, rounds: nat): string
    requires Settles(spans, text, rounds)
    decreases rounds
  {
    if NUL !in text then text
    else var next := Forward(spans, text, 0); if next == text then text else CleanedUp(spans, next, rounds - 1)
  }

  /** The text of each stored span. */
  function Rendered(held: seq<Doc>): seq<string> { seq(|held|, i requires 0 <= i < |held| => Render(held[i])) }

  predicate AllGuarded(held: seq<Doc>) { forall i :: 0 <= i < |held| ==> Guarded(held[i]) }

  /** Between two neighbouring placeholders there is never the number of a span that
      is put back while both are still closed. Spans are put back from the newest on,
      and a span's own placeholders appear once it is back. */
  predicate Readable(held: seq<Doc>, bound: nat, d: Doc)
    requires bound <= |held| && Layered(held) && KeysBelow(d, bound)
    decreases bound, d
  {
    d.Hole? ==>
      && GapReads(d.key, d.rest, bound)
      && Readable(held, d.key, held[d.key])
      && Readable(held, bound, d.rest)
  }

  predicate GapReads(left: nat, d: Doc, bound: nat) {
    d.Hole? ==> IsNoNumber(d.raw, if left < d.key then d.key else left + 1, bound)
  }

  predicate IsNoNumber(text: string, from: nat, to: nat) { forall k: nat :: from <= k < to ==> text != Digits(k) }

  lemma {:induction false} GapDigits(left: nat, d: Doc, bound: nat)
    requires !AllDigits(d.raw)
    ensures GapReads(left, d, bound)
  {}

  lemma {:induction false} ReadableJoin(held: seq<Doc>, bound: nat, raw: string, span: Doc, d: Doc)
    requires bound <= |held| && Layered(held) && KeysBelow(span, bound) && KeysBelow(d, bound) && !AllDigits(LastRaw(span))
    ensures KeysBelow(Prefixed(raw, Join(span, d)), bound)
    ensures Readable(held, bound, Prefixed(raw, Join(span, d))) <==> Readable(held, bound, span) && Readable(held, bound, d)
    decreases span
  {
    match span
    case Tail(_) =>
    case Hole(_, key, more) =>
      ReadableJoin(held, bound, "", more, d);
      var rest := Join(more, d);
      assert Prefixed("", rest) == rest by { assert "" + rest.raw == rest.raw; }
      if more.Tail? {
        NotDigits("", more.raw, d.raw);
        assert "" + more.raw + d.raw == rest.raw;
        GapDigits(key, rest, bound);
      }
  }

  /** A gap behind an older placeholder, before and after the newest key is put back. */
  lemma GapStep(left: nat, d: Doc, n: nat, span: Doc)
    requires left < n && KeysBelow(d, n + 1) && Guarded(span)
    ensures GapReads(left, d, n + 1) <==> (d.Hole? ==> d.raw != Digits(n)) && GapReads(left, Open(d, n, span), n)
  {
    if d.Hole? && d.key == n {
      NotDigits(d.raw, span.raw, "");
      var e := Open(d, n, span);
      if span.Tail? {
        NotDigits(d.raw, span.raw, Open(d.rest, n, span).raw);
        assert e.raw == d.raw + span.raw + Open(d.rest, n, span).raw;
      } else {
        assert e.raw == d.raw + span.raw + "";
      }
      GapDigits(left, e, n);
    }
  }

  /** Readable texts are those whose newest key is read rightly and that stay readable. */
  lemma {:induction false} ReadableStep(held: seq<Doc>, n: nat, d: Doc)
    requires n < |held| && Layered(held) && KeysBelow(d, n + 1) && AllGuarded(held)
    ensures KeysBelow(Open(d, n, held[n]), n)
    ensures Readable(held, n + 1, d) <==> Reads(d, n) && Readable(held, n, Open(d, n, held[n]))
  {
    OpenNewest(held, d, n);
    if d.Hole? {
      ReadableStep(held, n, d.rest);
      if d.key == n {
        ReadableJoin(held, n, d.raw, held[n], Open(d.rest, n, held[n]));
      } else {
        GapStep(d.key, d.rest, n, held[n]);
      }
    }
  }

  /** The newest-first pass gives the text meant if the text is readable, and is
      stuck otherwise. */
  lemma {:induction false} BackwardExact(held: seq<Doc>, d: Doc, n: nat)
    requires n <= |held| && Layered(held) && AllGuarded(held) && Clean(d) && KeysBelow(d, n)
    ensures var out := Backward(Rendered(held), Render(d), n);
      if Readable(held, n, d) then out == Expand(held, n, d) && NUL !in out else Stuck(out)
    decreases n
  {
    if n == 0 { return; }
    var k := n - 1;
    KeysRise(d, n, |held|);
    ReplaceOpens(d, k, held[k]);
    OpenKeeps(held, d, k);
    OpenNewest(held, d, k);
    ReadableStep(held, k, d);
    var e := Open(d, k, held[k]);
    if Reads(d, k) {
      BackwardExact(held, e, k);
      ExpandBound(held, n, |held|, d);
      ExpandBound(held, k, |held|, e);
    } else {
      StuckBackward(held, Replace(Render(d), KeyText(k), Render(held[k])), k);
    }
  }

  lemma {:induction false} StuckBackward(held: seq<Doc>, text: string, n: nat)
    requires n <= |held| && Layered(held) && AllGuarded(held) && Stuck(text)
    ensures Stuck(Backward(Rendered(held), text, n))
    decreases n
  {
    if n > 0 {
      StuckStays(text, n - 1, held[n - 1]);
      StuckBackward(held, Replace(text, KeyText(n - 1), Render(held[n - 1])), n - 1);
    }
  }

  lemma {:induction false} StuckForward(held: seq<Doc>, text: string, i: nat)
    requires i <= |held| && Layered(held) && AllGuarded(held) && Stuck(text)
    ensures Stuck(Forward(Rendered(held), text, i))
    decreases |held| - i
  {
    if i < |held| {
      StuckStays(text, i, held[i]);
      StuckForward(held, Replace(text, KeyText(i), Render(held[i])), i + 1);
    }
  }

  lemma {:induction false} StuckCleanedUp(held: seq<Doc>, text: string, rounds: nat)
    requires Layered(held) && AllGuarded(held) && Stuck(text) && Settles(Rendered(held), text, rounds)
    ensures Stuck(CleanedUp(Rendered(held), text, rounds))
    decreases rounds
  {
    StuckHasNul(text);
    var next := Forward(Rendered(held), text, 0);
    StuckForward(held, text, 0);
    if next != text { StuckCleanedUp(held, next, rounds - 1); }
  }

  /** Restoring gives the text meant if and only if the text is readable. A readable
      text needs no clean-up, and no number of clean-up rounds repairs another one. */
  lemma RestoredExactly(held: seq<Doc>, d: Doc, rounds: nat)
    requires Layered(held) && AllGuarded(held) && Clean(d) && KeysBelow(d, |held|)
    ensures var spans := Rendered(held); var back := Backward(spans, Render(d), |held|);
      && (Readable(held, |held|, d) ==> Settles(spans, back, rounds))
      && (Settles(spans, back, rounds) ==>
            && (CleanedUp(spans, back, rounds) == Expand(held, |held|, d) <==> Readable(held, |held|, d))
            && (NUL !in CleanedUp(spans, back, rounds) <==> Readable(held, |held|, d)))
  {
    var spans := Rendered(held);
    var back := Backward(spans, Render(d), |held|);
    BackwardExact(held, d, |held|);
    if !Readable(held, |held|, d) && Settles(spans, back, rounds) {
      StuckCleanedUp(held, back, rounds);
      StuckHasNul(CleanedUp(spans, back, rounds));
      ExpandPlain(held, |held|, d);
    }
  }
}
