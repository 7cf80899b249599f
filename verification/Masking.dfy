/** The rewriter's placeholder machinery, character by character.

    A span is replaced by its number between two NUL characters; a later pass may
    mask a span that already holds placeholders. Restoring replaces the
    placeholders as text, newest first. */
module Masking {
  const NUL: char := '\0'

  // ----- numbers as text -----

  function Digit(n: nat): char
    requires n < 10
  {
    (n + 48) as char
  }

  function Digits(n: nat): (s: string)
    ensures |s| > 0 && AllDigits(s)
  {
    if n < 10 then [Digit(n)] else Digits(n / 10) + [Digit(n % 10)]
  }

  predicate AllDigits(s: string) { forall c :: c in s ==> '0' <= c <= '9' }

  lemma {:induction false} DigitsInjective(m: nat, n: nat)
    requires Digits(m) == Digits(n)
    ensures m == n
  {
    var a, b := Digits(m), Digits(n);
    assert a[|a| - 1] == b[|b| - 1] && a[..|a| - 1] == b[..|b| - 1];
    if m >= 10 && n >= 10 {
      assert a[..|a| - 1] == Digits(m / 10) && b[..|b| - 1] == Digits(n / 10);
      DigitsInjective(m / 10, n / 10);
    }
  }

  function KeyText(n: nat): string { [NUL] + Digits(n) + [NUL] }

  // ----- text with placeholders in it -----

  /** Plain text, then a placeholder, then more of the same. */
  datatype Doc = Tail(raw: string) | Hole(raw: string, key: nat, rest: Doc)

  function Render(d: Doc): string {
    match d
    case Tail(raw) => raw
    case Hole(raw, key, rest) => raw + (KeyText(key) + Render(rest))
  }

  predicate Clean(d: Doc) {
    NUL !in d.raw && (d.Hole? ==> Clean(d.rest))
  }

  predicate KeysBelow(d: Doc, bound: nat) {
    d.Hole? ==> d.key < bound && KeysBelow(d.rest, bound)
  }

  function Prefixed(s: string, d: Doc): Doc {
    match d
    case Tail(raw) => Tail(s + raw)
    case Hole(raw, key, rest) => Hole(s + raw, key, rest)
  }

  function Join(a: Doc, b: Doc): Doc {
    match a
    case Tail(raw) => Prefixed(raw, b)
    case Hole(raw, key, rest) => Hole(raw, key, Join(rest, b))
  }

  lemma RenderPrefixed(s: string, d: Doc)
    ensures Render(Prefixed(s, d)) == s + Render(d)
  {
    if d.Hole? { assert s + (d.raw + (KeyText(d.key) + Render(d.rest))) == (s + d.raw) + (KeyText(d.key) + Render(d.rest)); }
  }

  lemma {:induction false} RenderJoin(a: Doc, b: Doc)
    ensures Render(Join(a, b)) == Render(a) + Render(b)
  {
    match a
    case Tail(raw) => RenderPrefixed(raw, b);
    case Hole(raw, key, rest) =>
      RenderJoin(rest, b);
      assert raw + (KeyText(key) + (Render(rest) + Render(b))) == (raw + (KeyText(key) + Render(rest))) + Render(b);
  }

  /** Opens every placeholder numbered `key`. */
  function Open(d: Doc, key: nat, span: Doc): Doc {
    match d
    case Tail(_) => d
    case Hole(raw, k, rest) =>
      if k == key then Prefixed(raw, Join(span, Open(rest, key, span))) else Hole(raw, k, Open(rest, key, span))
  }

  // ----- replacing text -----

  /** `str.replace`: leftmost occurrences, none overlapping. */
  function Replace(text: string, old_: string, new_: string): string
    requires old_ != ""
  {
    if |text| < |old_| then text
    else if text[..|old_|] == old_ then new_ + Replace(text[|old_|..], old_, new_)
    else [text[0]] + Replace(text[1..], old_, new_)
  }

  lemma {:induction false} SkipRaw(raw: string, more: string, key: string, span: string)
    requires NUL !in raw && key != "" && key[0] == NUL
    ensures Replace(raw + more, key, span) == raw + Replace(more, key, span)
  {
    var text := raw + more;
    if raw == "" {
      assert text == more;
    } else {
      SkipRaw(raw[1..], more, key, span);
      assert text[1..] == raw[1..] + more && text[0] == raw[0];
      if |text| < |key| {
        assert Replace(more, key, span) == more;
      } else {
        assert text[..|key|][0] != key[0];
        assert raw == [raw[0]] + raw[1..];
        assert [raw[0]] + (raw[1..] + Replace(more, key, span)) == raw + Replace(more, key, span);
      }
    }
  }

  /** Two NUL-free texts followed by NUL agree as soon as one starts the other. */
  lemma SameStop(a: string, b: string, x: string, y: string)
    requires NUL !in a && NUL !in b && a + [NUL] + x == b + [NUL] + y
    ensures a == b && x == y
  {
    var s, t := a + [NUL] + x, b + [NUL] + y;
    assert s[|a|] == NUL && t[|b|] == NUL;
    assert forall i | 0 <= i < |a| :: s[i] == a[i] && s[i] != NUL;
    assert forall i | 0 <= i < |b| :: t[i] == b[i] && t[i] != NUL;
    assert |a| == |b|;
    assert a == s[..|a|] && b == t[..|b|];
    assert x == s[|a| + 1..] && y == t[|b| + 1..];
  }

  predicate Starts(text: string, key: string) { |text| >= |key| && text[..|key|] == key }

  lemma NoMatch(text: string, key: string, span: string)
    requires key != "" && text != ""
    requires !Starts(text, key)
    ensures Replace(text, key, span) == [text[0]] + Replace(text[1..], key, span)
  {
    if |text| < |key| {
      assert Replace(text[1..], key, span) == text[1..];
      assert text == [text[0]] + text[1..];
    }
  }

  // ----- what a masked text stands for -----

  /** Each span holds only older placeholders. */
  predicate Layered(held: seq<Doc>) {
    forall i :: 0 <= i < |held| ==> Clean(held[i]) && KeysBelow(held[i], i)
  }

  function Expand(held: seq<Doc>, bound: nat, d: Doc): string
    requires bound <= |held| && Layered(held) && KeysBelow(d, bound)
    decreases bound, d
  {
    match d
    case Tail(raw) => raw
    case Hole(raw, key, rest) => raw + (Expand(held, key, held[key]) + Expand(held, bound, rest))
  }

  lemma {:induction false} ExpandBound(held: seq<Doc>, b: nat, c: nat, d: Doc)
    requires b <= |held| && c <= |held| && Layered(held) && KeysBelow(d, b) && KeysBelow(d, c)
    ensures Expand(held, b, d) == Expand(held, c, d)
  {
    if d.Hole? { ExpandBound(held, b, c, d.rest); }
  }

  lemma {:induction false} ExpandGrown(held: seq<Doc>, more: seq<Doc>, b: nat, d: Doc)
    requires Layered(held) && Layered(held + more) && b <= |held| && KeysBelow(d, b)
    ensures Expand(held + more, b, d) == Expand(held, b, d)
    decreases b, d
  {
    if d.Hole? {
      assert (held + more)[d.key] == held[d.key];
      ExpandGrown(held, more, d.key, held[d.key]);
      ExpandGrown(held, more, b, d.rest);
    }
  }

  lemma {:induction false} JoinFits(a: Doc, b: Doc, bound: nat)
    ensures KeysBelow(a, bound) && KeysBelow(b, bound) <==> KeysBelow(Join(a, b), bound)
    ensures Clean(a) && Clean(b) <==> Clean(Join(a, b))
  {
    if a.Hole? {
      JoinFits(a.rest, b, bound);
    } else {
      var joined := a.raw + b.raw;
      assert forall i | 0 <= i < |b.raw| :: joined[|a.raw| + i] == b.raw[i];
      assert forall i | 0 <= i < |a.raw| :: joined[i] == a.raw[i];
      assert NUL in joined <==> NUL in a.raw || NUL in b.raw;
    }
  }

  lemma {:induction false} ExpandJoin(held: seq<Doc>, bound: nat, a: Doc, b: Doc)
    requires bound <= |held| && Layered(held) && KeysBelow(a, bound) && KeysBelow(b, bound)
    ensures KeysBelow(Join(a, b), bound)
    ensures Expand(held, bound, Join(a, b)) == Expand(held, bound, a) + Expand(held, bound, b)
  {
    JoinFits(a, b, bound);
    match a
    case Tail(raw) =>
      if b.Hole? {
        var x, y := Expand(held, b.key, held[b.key]), Expand(held, bound, b.rest);
        assert (raw + b.raw) + (x + y) == raw + (b.raw + (x + y));
      }
    case Hole(raw, key, rest) =>
      ExpandJoin(held, bound, rest, b);
      var x, y, z := Expand(held, key, held[key]), Expand(held, bound, rest), Expand(held, bound, b);
      assert raw + (x + (y + z)) == (raw + (x + y)) + z;
  }

  /** Opening a placeholder changes neither what the text stands for nor its form. */
  lemma {:induction false} OpenKeeps(held: seq<Doc>, d: Doc, key: nat)
    requires Layered(held) && key < |held| && KeysBelow(d, |held|) && Clean(d)
    ensures var e := Open(d, key, held[key]);
      KeysBelow(e, |held|) && Clean(e) && Expand(held, |held|, e) == Expand(held, |held|, d)
  {
    if d.Hole? {
      OpenKeeps(held, d.rest, key);
      var rest := Open(d.rest, key, held[key]);
      if d.key == key {
        KeysRise(held[key], key, |held|);
        JoinFits(held[key], rest, |held|);
        JoinFits(Tail(d.raw), Join(held[key], rest), |held|);
        ExpandJoin(held, |held|, held[key], rest);
        ExpandJoin(held, |held|, Tail(d.raw), Join(held[key], rest));
        ExpandBound(held, key, |held|, held[key]);
      }
    }
  }

  lemma {:induction false} OpenClean(d: Doc, key: nat, span: Doc)
    requires Clean(d) && Clean(span)
    ensures Clean(Open(d, key, span))
  {
    if d.Hole? {
      OpenClean(d.rest, key, span);
      JoinFits(span, Open(d.rest, key, span), 0);
      JoinFits(Tail(d.raw), Join(span, Open(d.rest, key, span)), 0);
    }
  }

  /** What a text stands for holds no placeholder. */
  lemma {:induction false} ExpandPlain(held: seq<Doc>, bound: nat, d: Doc)
    requires bound <= |held| && Layered(held) && KeysBelow(d, bound) && Clean(d)
    ensures NUL !in Expand(held, bound, d)
    decreases bound, d
  {
    if d.Hole? {
      ExpandPlain(held, d.key, held[d.key]);
      ExpandPlain(held, bound, d.rest);
    }
  }

  lemma KeysRise(d: Doc, b: nat, c: nat)
    requires b <= c && KeysBelow(d, b)
    ensures KeysBelow(d, c)
  {}

  /** The newest placeholder is gone once opened. */
  lemma {:induction false} OpenNewest(held: seq<Doc>, d: Doc, key: nat)
    requires Layered(held) && key < |held| && KeysBelow(d, key + 1)
    ensures KeysBelow(Open(d, key, held[key]), key)
  {
    if d.Hole? {
      OpenNewest(held, d.rest, key);
      if d.key == key {
        JoinFits(held[key], Open(d.rest, key, held[key]), key);
        JoinFits(Tail(d.raw), Join(held[key], Open(d.rest, key, held[key])), key);
      }
    }
  }

  // ----- one masking pass -----

  /** Text a pass skips, then text it masks. */
  datatype Cut = Cut(keep: Doc, take: Doc)

  function Whole(cuts: seq<Cut>, last: Doc): Doc {
    if cuts == [] then last else Join(cuts[0].keep, Join(cuts[0].take, Whole(cuts[1..], last)))
  }

  function Masked(cuts: seq<Cut>, last: Doc, next: nat): Doc {
    if cuts == [] then last
    else Join(cuts[0].keep, Hole("", next, Masked(cuts[1..], last, next + 1)))
  }

  predicate Fits(cuts: seq<Cut>, last: Doc, bound: nat) {
    && Clean(last) && KeysBelow(last, bound)
    && forall c :: c in cuts ==> Clean(c.keep) && Clean(c.take) && KeysBelow(c.keep, bound) && KeysBelow(c.take, bound)
  }

  function Takes(cuts: seq<Cut>): seq<Doc> { seq(|cuts|, i requires 0 <= i < |cuts| => cuts[i].take) }

  lemma TakesLayered(held: seq<Doc>, cuts: seq<Cut>, last: Doc)
    requires Layered(held) && Fits(cuts, last, |held|)
    ensures Layered(held + Takes(cuts))
  {
    var all := held + Takes(cuts);
    forall i | 0 <= i < |all|
      ensures Clean(all[i]) && KeysBelow(all[i], i)
    {
      if i >= |held| {
        assert all[i] == cuts[i - |held|].take;
        KeysRise(all[i], |held|, i);
      }
    }
  }

  lemma {:induction false} WholeFits(cuts: seq<Cut>, last: Doc, bound: nat)
    requires Fits(cuts, last, bound)
    ensures KeysBelow(Whole(cuts, last), bound) && Clean(Whole(cuts, last))
  {
    if cuts != [] {
      assert cuts[0] in cuts;
      WholeFits(cuts[1..], last, bound);
      JoinFits(cuts[0].take, Whole(cuts[1..], last), bound);
      JoinFits(cuts[0].keep, Join(cuts[0].take, Whole(cuts[1..], last)), bound);
    }
  }

  /** A pass changes the text but not what it stands for. */
  lemma {:induction false} MaskingKeeps(held: seq<Doc>, cuts: seq<Cut>, last: Doc, bound: nat)
    requires bound <= |held| && Layered(held) && Fits(cuts, last, bound)
    requires |cuts| <= |held| && bound <= |held| - |cuts|
    requires forall i :: 0 <= i < |cuts| ==> held[|held| - |cuts| + i] == cuts[i].take
    ensures KeysBelow(Whole(cuts, last), |held|) && Clean(Masked(cuts, last, |held| - |cuts|))
    ensures KeysBelow(Masked(cuts, last, |held| - |cuts|), |held|)
    ensures Expand(held, |held|, Masked(cuts, last, |held| - |cuts|)) == Expand(held, |held|, Whole(cuts, last))
  {
    var n := |held|;
    WholeFits(cuts, last, bound);
    KeysRise(Whole(cuts, last), bound, n);
    if cuts != [] {
      var c, next := cuts[0], n - |cuts|;
      assert c in cuts && held[next] == c.take;
      forall i | 0 <= i < |cuts[1..]|
        ensures held[n - |cuts[1..]| + i] == cuts[1..][i].take
      {
        assert held[n - |cuts| + (i + 1)] == cuts[i + 1].take;
      }
      MaskingKeeps(held, cuts[1..], last, bound);
      var whole, masked := Whole(cuts[1..], last), Masked(cuts[1..], last, next + 1);
      KeysRise(c.keep, bound, n);
      KeysRise(c.take, bound, n);
      JoinFits(c.keep, Hole("", next, masked), n);
      ExpandJoin(held, n, c.keep, Hole("", next, masked));
      ExpandJoin(held, n, c.take, whole);
      ExpandJoin(held, n, c.keep, Join(c.take, whole));
      ExpandBound(held, next, n, c.take);
      assert "" + (Expand(held, n, c.take) + Expand(held, n, masked)) == Expand(held, n, c.take) + Expand(held, n, masked);
    }
  }
}
