/** Names that end in a number of at least two digits: `t07`, `w-12`. */
module Numbering {
  import opened Masking

  function TwoDigits(n: nat): (s: string)
    ensures AllDigits(s) && s != ""
  {
    if n < 10 then "0" + Digits(n) else Digits(n)
  }

  lemma DigitsFront(s: string)
    requires AllDigits(s) && s != ""
    ensures AllDigits(s[..|s| - 1]) && '0' <= s[|s| - 1] <= '9'
  {
    assert s[|s| - 1] in s;
    forall i | 0 <= i < |s| ensures '0' <= s[i] <= '9' { assert s[i] in s; }
  }

  /** The number a run of digits stands for. */
  function Value(s: string): nat
    requires AllDigits(s)
  {
    if s == "" then 0
    else
      DigitsFront(s);
      10 * Value(s[..|s| - 1]) + (s[|s| - 1] as nat - '0' as nat)
  }

  lemma {:induction false} DigitsValue(n: nat)
    ensures Value(Digits(n)) == n
  {
    var s := Digits(n);
    if n >= 10 {
      assert s[..|s| - 1] == Digits(n / 10);
      DigitsValue(n / 10);
    }
  }

  /** Leading zeros and all. */
  lemma TwoDigitsValue(n: nat)
    ensures Value(TwoDigits(n)) == n
  {
    DigitsValue(n);
    if n < 10 {
      var s := TwoDigits(n);
      assert s[..1] == "0" && "0"[..0] == "" && Value("0") == 0;
    }
  }

  /** Reading the digits back is why no two numbers share a name. */
  lemma NumbersApart(prefix: string, i: nat, j: nat)
    requires prefix + TwoDigits(i) == prefix + TwoDigits(j)
    ensures i == j
  {
    assert (prefix + TwoDigits(i))[|prefix|..] == TwoDigits(i);
    assert (prefix + TwoDigits(j))[|prefix|..] == TwoDigits(j);
    TwoDigitsValue(i);
    TwoDigitsValue(j);
  }

  /** What follows the last dash. */
  function Suffix(s: string): string {
    if s == "" || s[|s| - 1] == '-' then "" else Suffix(s[..|s| - 1]) + [s[|s| - 1]]
  }

  /** The number an id ends in, when its suffix is one. */
  function NumberOf(id: string): nat { if Suffix(id) != "" && AllDigits(Suffix(id)) then Value(Suffix(id)) else 0 }

  lemma {:induction false} SuffixOf(prefix: string, digits: string)
    requires AllDigits(digits)
    ensures Suffix(prefix + "-" + digits) == digits
  {
    var s := prefix + "-" + digits;
    if digits != "" {
      DigitsFront(digits);
      assert s[..|s| - 1] == prefix + "-" + digits[..|digits| - 1];
      SuffixOf(prefix, digits[..|digits| - 1]);
    }
  }
}
