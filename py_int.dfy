/**
  Python's `int(s)` on a string, base 10: optional whitespace, an optional
  sign, decimal digits with single underscores allowed between digits, and
  optional whitespace; anything else raises ValueError, modelled as None.
  `str(n)` is its inverse.
 */
module PyInt {
  import opened Wrappers
  import opened Decimal

  /** The characters `int` strips around an ASCII number: the blank and \t \n \v \f \r. Unlike `str.isspace`, `int` does not strip \x1c to \x1f. */
  predicate IsSpace(c: char) {
    c == ' ' || 9 <= c as int <= 13
  }

  predicate AllSpace(w: string) {
    forall i :: 0 <= i < |w| ==> IsSpace(w[i])
  }

  function StripLeft(s: string): (r: string)
    ensures r == [] || !IsSpace(r[0])
  {
    if |s| > 0 && IsSpace(s[0]) then StripLeft(s[1..]) else s
  }

  function StripRight(s: string): (r: string)
    ensures r == [] || !IsSpace(r[|r| - 1])
  {
    if |s| > 0 && IsSpace(s[|s| - 1]) then StripRight(s[..|s| - 1]) else s
  }

  function Strip(s: string): string {
    StripRight(StripLeft(s))
  }

  predicate DigitsAndUnderscores(t: string) {
    forall i :: 0 <= i < |t| ==> IsDigit(t[i]) || t[i] == '_'
  }

  /** Digits, with an underscore allowed only between two digits. */
  predicate IsDigitGroups(t: string) {
    |t| > 0 && IsDigit(t[0]) && IsDigit(t[|t| - 1]) && DigitsAndUnderscores(t) &&
    forall i :: 0 <= i < |t| - 1 && t[i] == '_' ==> IsDigit(t[i + 1])
  }

  function WithoutUnderscores(t: string): (r: string)
    requires DigitsAndUnderscores(t)
    ensures AllDigits(r)
  {
    if t == [] then [] else if t[0] == '_' then WithoutUnderscores(t[1..]) else [t[0]] + WithoutUnderscores(t[1..])
  }

  function Unsigned(t: string): Option<nat> {
    if IsDigitGroups(t) then Some(DigitsValue(WithoutUnderscores(t))) else None
  }

  /** `int(s)`, None standing for the ValueError. */
  function Parse(s: string): Option<int> {
    var t := Strip(s);
    if |t| > 0 && (t[0] == '+' || t[0] == '-') then
      match Unsigned(t[1..])
      case Some(n) => Some(if t[0] == '-' then -(n as int) else n as int)
      case None => None
    else
      match Unsigned(t)
      case Some(n) => Some(n)
      case None => None
  }

  /** `str(n)` for an int. */
  function Format(n: int): string {
    if n < 0 then "-" + FormatNat(-n) else FormatNat(n)
  }

  lemma {:induction false} WithoutUnderscoresOfDigits(t: string)
    requires AllDigits(t)
    ensures WithoutUnderscores(t) == t
  {
    if t != [] {
      WithoutUnderscoresOfDigits(t[1..]);
    }
  }

  lemma StripOfUnspaced(s: string)
    requires |s| > 0 && !IsSpace(s[0]) && !IsSpace(s[|s| - 1])
    ensures Strip(s) == s
  {
  }

  lemma UnsignedOfDigits(k: nat)
    ensures Unsigned(FormatNat(k)) == Some(k)
  {
    var digits := FormatNat(k);
    assert IsDigitGroups(digits);
    WithoutUnderscoresOfDigits(digits);
    FormatNatValue(k);
  }

  /** `int(str(n)) == n`. */
  lemma RoundTrip(n: int)
    ensures Parse(Format(n)) == Some(n)
  {
    var s := Format(n);
    StripOfUnspaced(s);
    if n < 0 {
      assert s[1..] == FormatNat(-n);
      UnsignedOfDigits(-n);
    } else {
      UnsignedOfDigits(n);
    }
  }

  lemma {:induction false} StripLeftSpaces(w: string, s: string)
    requires AllSpace(w)
    ensures StripLeft(w + s) == StripLeft(s)
  {
    if w == [] {
      assert w + s == s;
    } else {
      assert IsSpace((w + s)[0]);
      assert (w + s)[1..] == w[1..] + s;
      StripLeftSpaces(w[1..], s);
    }
  }

  lemma {:induction false} StripRightSpaces(s: string, w: string)
    requires AllSpace(w)
    ensures StripRight(s + w) == StripRight(s)
    decreases |w|
  {
    if w == [] {
      assert s + w == s;
    } else {
      assert IsSpace((s + w)[|s + w| - 1]);
      assert (s + w)[..|s + w| - 1] == s + w[..|w| - 1];
      StripRightSpaces(s, w[..|w| - 1]);
    }
  }

  lemma {:induction false} StripLeftAppend(s: string, w: string)
    requires AllSpace(w)
    ensures StripLeft(s) != [] ==> StripLeft(s + w) == StripLeft(s) + w
    ensures StripLeft(s) == [] ==> StripLeft(s + w) == []
  {
    if s == [] {
      assert s + w == w + [];
      StripLeftSpaces(w, []);
    } else if !IsSpace(s[0]) {
      assert (s + w)[0] == s[0];
    } else {
      assert (s + w)[1..] == s[1..] + w;
      StripLeftAppend(s[1..], w);
    }
  }

  /** `int` ignores the whitespace around the number. */
  lemma ParseIgnoresSpace(w1: string, s: string, w2: string)
    requires AllSpace(w1) && AllSpace(w2)
    ensures Parse(w1 + s + w2) == Parse(s)
  {
    assert w1 + s + w2 == w1 + (s + w2);
    StripLeftSpaces(w1, s + w2);
    StripLeftAppend(s, w2);
    if StripLeft(s) != [] {
      StripRightSpaces(StripLeft(s), w2);
    }
  }
}
