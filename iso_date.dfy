/**
  `datetime.strptime(s, "%Y-%m-%d").date()` and `_parse_iso_date`.

  CPython's `_strptime` turns the format into a regular expression whose
  groups are %Y = \d\d\d\d, %m = 1[0-2]|0[1-9]|[1-9] and
  %d = 3[01]|[12]\d|0[1-9]|[1-9]| [1-9]; it takes the first match the regex
  engine finds at the start of the string, fails with "unconverted data
  remains" when that match stops short of the end, and then builds the date,
  which fails for a triple outside the calendar. Every failure is a
  ValueError, which `_parse_iso_date` turns into None.
 */
module IsoDate {
  import opened Wrappers
  import opened Decimal
  import opened Calendar

  function Pad2(n: nat): (s: string)
    requires n <= 99
    ensures |s| == 2 && AllDigits(s)
  {
    [DigitChar(n / 10), DigitChar(n % 10)]
  }

  function Pad4(n: nat): (s: string)
    requires n <= 9999
    ensures |s| == 4 && AllDigits(s)
  {
    [DigitChar(n / 1000), DigitChar(n / 100 % 10), DigitChar(n / 10 % 10), DigitChar(n % 10)]
  }

  /** `str(d)`, `d.isoformat()`: YYYY-MM-DD with zero padding. */
  function FormatIso(d: CalDate): string {
    Pad4(d.year) + "-" + Pad2(d.month) + "-" + Pad2(d.day)
  }

  /** A matched regex group: the number it denotes and how many characters it took. */
  datatype Token = Token(value: int, len: nat)

  const MONTH_ALTERNATIVES := 3
  const DAY_ALTERNATIVES := 5

  /** Alternative k of the %m group, tried at the start of t. */
  function MonthAlternative(t: string, k: nat): (r: Option<Token>)
    ensures r.Some? ==> 0 < r.value.len <= |t|
  {
    if k == 0 then
      if |t| >= 2 && t[0] == '1' && '0' <= t[1] <= '2' then Some(Token(10 + DigitValue(t[1]), 2)) else None
    else if k == 1 then
      if |t| >= 2 && t[0] == '0' && '1' <= t[1] <= '9' then Some(Token(DigitValue(t[1]), 2)) else None
    else if k == 2 then
      if |t| >= 1 && '1' <= t[0] <= '9' then Some(Token(DigitValue(t[0]), 1)) else None
    else None
  }

  /** Alternative k of the %d group, tried at the start of t. */
  function DayAlternative(t: string, k: nat): (r: Option<Token>)
    ensures r.Some? ==> 0 < r.value.len <= |t|
  {
    if k == 0 then
      if |t| >= 2 && t[0] == '3' && '0' <= t[1] <= '1' then Some(Token(30 + DigitValue(t[1]), 2)) else None
    else if k == 1 then
      if |t| >= 2 && '1' <= t[0] <= '2' && IsDigit(t[1]) then Some(Token(DigitValue(t[0]) * 10 + DigitValue(t[1]), 2)) else None
    else if k == 2 then
      if |t| >= 2 && t[0] == '0' && '1' <= t[1] <= '9' then Some(Token(DigitValue(t[1]), 2)) else None
    else if k == 3 then
      if |t| >= 1 && '1' <= t[0] <= '9' then Some(Token(DigitValue(t[0]), 1)) else None
    else if k == 4 then
      if |t| >= 2 && t[0] == ' ' && '1' <= t[1] <= '9' then Some(Token(DigitValue(t[1]), 2)) else None
    else None
  }

  /** The first %d alternative from k on that matches: the day group ends the pattern, so nothing backtracks into it. */
  function FirstDay(t: string, k: nat): (r: Option<Token>)
    ensures r.Some? ==> 0 < r.value.len <= |t|
    decreases DAY_ALTERNATIVES - k
  {
    if k >= DAY_ALTERNATIVES then None
    else if DayAlternative(t, k).Some? then DayAlternative(t, k)
    else FirstDay(t, k + 1)
  }

  /** The month, the day and the length of the text "%m-%d" matched at the start of t. */
  datatype MonthDay = MonthDay(month: int, day: int, len: nat)

  /** "%m-%d" at the start of t, trying the month alternatives from k on and backtracking when the rest fails. */
  function MatchMonthDay(t: string, k: nat): (r: Option<MonthDay>)
    ensures r.Some? ==> r.value.len <= |t|
    decreases MONTH_ALTERNATIVES - k
  {
    if k >= MONTH_ALTERNATIVES then None
    else match MonthAlternative(t, k)
      case Some(m) =>
        if m.len < |t| && t[m.len] == '-' && FirstDay(t[m.len + 1..], 0).Some? then
          var d := FirstDay(t[m.len + 1..], 0).value;
          Some(MonthDay(m.value, d.value, m.len + 1 + d.len))
        else MatchMonthDay(t, k + 1)
      case None => MatchMonthDay(t, k + 1)
  }

  /** The (year, month, day) strptime reads from s, before it checks the calendar. */
  function Fields(s: string): Option<Date> {
    if |s| >= 5 && AllDigits(s[..4]) && s[4] == '-' then
      match MatchMonthDay(s[5..], 0)
      case Some(md) =>
        if 5 + md.len == |s| then Some(Date(DigitsValue(s[..4]), md.month, md.day)) else None
      case None => None
    else None
  }

  /** `datetime.strptime(s, "%Y-%m-%d").date()`, None standing for the ValueError. */
  function Strptime(s: string): Option<CalDate> {
    match Fields(s)
    case Some(d) => if IsValid(d) then Some(d) else None
    case None => None
  }

  /** `_parse_iso_date`: None for a missing or empty argument and for whatever strptime rejects. */
  function ParseIsoDate(d: Option<string>): (r: Option<CalDate>)
    ensures d.None? || d == Some("") ==> r.None?
  {
    if d.None? || d.value == "" then None else Strptime(d.value)
  }

  // ---------------------------------------------------------------------------
  // What the pattern accepts, stated without the regex engine

  /** ms is a spelling %m accepts for month m: two digits, or one for months below 10. */
  predicate MonthSpelling(ms: string, m: int) {
    1 <= m <= 12 && (ms == Pad2(m) || (m < 10 && ms == [DigitChar(m)]))
  }

  /** ds is a spelling %d accepts for day d: two digits, or for days below 10 one digit with or without a leading blank. */
  predicate DaySpelling(ds: string, d: int) {
    1 <= d <= 31 && (ds == Pad2(d) || (d < 10 && (ds == [DigitChar(d)] || ds == [' ', DigitChar(d)])))
  }

  /** s spells (y, m, d) in a form "%Y-%m-%d" accepts. */
  ghost predicate Spells(s: string, y: int, m: int, d: int) {
    0 <= y <= 9999 &&
    exists ms, ds :: MonthSpelling(ms, m) && DaySpelling(ds, d) && s == Pad4(y) + "-" + ms + "-" + ds
  }

  lemma Value4(s: string)
    requires |s| == 4 && AllDigits(s)
    ensures DigitsValue(s) == DigitValue(s[0]) * 1000 + DigitValue(s[1]) * 100 + DigitValue(s[2]) * 10 + DigitValue(s[3])
  {
    var s3 := s[..3];
    var s2 := s3[..2];
    var s1 := s2[..1];
    assert s1[..0] == [];
    assert s1[0] == s[0] && s2[1] == s[1] && s3[2] == s[2];
    assert DigitsValue(s1) == DigitValue(s[0]);
    assert DigitsValue(s2) == DigitValue(s[0]) * 10 + DigitValue(s[1]);
    assert DigitsValue(s3) == DigitValue(s[0]) * 100 + DigitValue(s[1]) * 10 + DigitValue(s[2]);
  }

  lemma Pad4Value(y: nat)
    requires y <= 9999
    ensures DigitsValue(Pad4(y)) == y
  {
    Value4(Pad4(y));
    assert y == 1000 * (y / 1000) + 100 * (y / 100 % 10) + 10 * (y / 10 % 10) + y % 10 by {
      assert y / 100 == 10 * (y / 1000) + y / 100 % 10;
      assert y / 10 == 10 * (y / 100) + y / 10 % 10;
    }
  }

  lemma SplitDigits(a: nat, b: nat, c: nat, d: nat)
    requires a <= 9 && b <= 9 && c <= 9 && d <= 9
    ensures var v := a * 1000 + b * 100 + c * 10 + d;
      v <= 9999 && v / 1000 == a && v / 100 % 10 == b && v / 10 % 10 == c && v % 10 == d
  {
    var v := a * 1000 + b * 100 + c * 10 + d;
    assert v / 10 == a * 100 + b * 10 + c;
    assert v / 100 == a * 10 + b;
  }

  lemma Pad4OfDigits(s: string)
    requires |s| == 4 && AllDigits(s)
    ensures DigitsValue(s) <= 9999 && Pad4(DigitsValue(s)) == s
  {
    Value4(s);
    SplitDigits(DigitValue(s[0]), DigitValue(s[1]), DigitValue(s[2]), DigitValue(s[3]));
    DigitCharOfValue(s[0]);
    DigitCharOfValue(s[1]);
    DigitCharOfValue(s[2]);
    DigitCharOfValue(s[3]);
  }

  lemma DayOfSpelling(ds: string, d: int)
    requires DaySpelling(ds, d)
    ensures FirstDay(ds, 0) == Some(Token(d, |ds|))
  {
    if ds == Pad2(d) {
      if d >= 30 {
        assert DayAlternative(ds, 0) == Some(Token(d, 2));
      } else if d >= 10 {
        assert DayAlternative(ds, 0).None?;
        assert DayAlternative(ds, 1) == Some(Token(d, 2));
      } else {
        assert DayAlternative(ds, 0).None? && DayAlternative(ds, 1).None?;
        assert DayAlternative(ds, 2) == Some(Token(d, 2));
      }
    } else if ds == [DigitChar(d)] {
      assert DayAlternative(ds, 0).None? && DayAlternative(ds, 1).None? && DayAlternative(ds, 2).None?;
      assert DayAlternative(ds, 3) == Some(Token(d, 1));
    } else {
      assert DayAlternative(ds, 0).None? && DayAlternative(ds, 1).None? && DayAlternative(ds, 2).None?;
      assert DayAlternative(ds, 3).None?;
      assert DayAlternative(ds, 4) == Some(Token(d, 2));
    }
  }

  /** When alternative k of %m is followed by '-' and a day, the match takes it. */
  lemma MatchMonthDayTakes(t: string, k: nat, m: Token, d: Token)
    requires k < MONTH_ALTERNATIVES && MonthAlternative(t, k) == Some(m)
    requires m.len < |t| && t[m.len] == '-' && FirstDay(t[m.len + 1..], 0) == Some(d)
    ensures MatchMonthDay(t, k) == Some(MonthDay(m.value, d.value, m.len + 1 + d.len))
  {
  }

  lemma MatchMonthDaySkips(t: string, k: nat)
    requires k < MONTH_ALTERNATIVES && MonthAlternative(t, k).None?
    ensures MatchMonthDay(t, k) == MatchMonthDay(t, k + 1)
  {
  }

  lemma MonthDayOfSpelling(ms: string, rest: string, m: int, d: Token)
    requires MonthSpelling(ms, m) && FirstDay(rest, 0) == Some(d)
    ensures MatchMonthDay(ms + "-" + rest, 0) == Some(MonthDay(m, d.value, |ms| + 1 + d.len))
  {
    if ms == Pad2(m) {
      if m >= 10 {
        MonthDayTwoDigits(ms, rest, m, d);
      } else {
        MonthDayLeadingZero(ms, rest, m, d);
      }
    } else {
      MonthDayOneDigit(ms, rest, m, d);
    }
  }

  lemma MonthDayTwoDigits(ms: string, rest: string, m: int, d: Token)
    requires 10 <= m <= 12 && ms == Pad2(m) && FirstDay(rest, 0) == Some(d)
    ensures MatchMonthDay(ms + "-" + rest, 0) == Some(MonthDay(m, d.value, |ms| + 1 + d.len))
  {
    var t := ms + "-" + rest;
    assert m / 10 == 1 && m % 10 == m - 10;
    var c := DigitChar(m - 10);
    assert ms == [DigitChar(1), c];
    assert t[0] == '1' && t[1] == c && '0' <= c <= '2' && DigitValue(c) == m - 10;
    assert t[2] == '-' && t[3..] == rest;
    assert MonthAlternative(t, 0) == Some(Token(m, 2));
    MatchMonthDayTakes(t, 0, Token(m, 2), d);
  }

  lemma MonthDayLeadingZero(ms: string, rest: string, m: int, d: Token)
    requires 1 <= m <= 9 && ms == Pad2(m) && FirstDay(rest, 0) == Some(d)
    ensures MatchMonthDay(ms + "-" + rest, 0) == Some(MonthDay(m, d.value, |ms| + 1 + d.len))
  {
    var t := ms + "-" + rest;
    assert m / 10 == 0 && m % 10 == m;
    var c := DigitChar(m);
    assert ms == [DigitChar(0), c];
    assert t[0] == '0' && t[1] == c && '1' <= c <= '9';
    assert t[2] == '-' && t[3..] == rest;
    assert MonthAlternative(t, 0).None?;
    assert MonthAlternative(t, 1) == Some(Token(m, 2));
    MatchMonthDaySkips(t, 0);
    MatchMonthDayTakes(t, 1, Token(m, 2), d);
  }

  lemma MonthDayOneDigit(ms: string, rest: string, m: int, d: Token)
    requires 1 <= m <= 9 && ms == [DigitChar(m)] && FirstDay(rest, 0) == Some(d)
    ensures MatchMonthDay(ms + "-" + rest, 0) == Some(MonthDay(m, d.value, |ms| + 1 + d.len))
  {
    var t := ms + "-" + rest;
    var c := DigitChar(m);
    assert t[0] == c && '1' <= c <= '9';
    assert t[1] == '-' && t[2..] == rest;
    assert MonthAlternative(t, 0).None? && MonthAlternative(t, 1).None?;
    assert MonthAlternative(t, 2) == Some(Token(m, 1));
    MatchMonthDaySkips(t, 0);
    MatchMonthDaySkips(t, 1);
    MatchMonthDayTakes(t, 2, Token(m, 1), d);
  }

  lemma MonthAlternativeSpells(t: string, k: nat)
    requires MonthAlternative(t, k).Some?
    ensures var m := MonthAlternative(t, k).value;
      MonthSpelling(t[..m.len], m.value)
  {
    var m := MonthAlternative(t, k).value;
    DigitCharOfValue(t[0]);
    if m.len == 2 {
      DigitCharOfValue(t[1]);
      assert t[..2] == [t[0], t[1]] == Pad2(m.value);
    } else {
      assert t[..1] == [t[0]] == [DigitChar(m.value)];
    }
  }

  lemma DayAlternativeSpells(t: string, k: nat)
    requires DayAlternative(t, k).Some?
    ensures var d := DayAlternative(t, k).value;
      DaySpelling(t[..d.len], d.value)
  {
    var d := DayAlternative(t, k).value;
    if k == 4 {
      DigitCharOfValue(t[1]);
      assert t[..2] == [' ', t[1]] == [' ', DigitChar(d.value)];
    } else if d.len == 2 {
      DigitCharOfValue(t[0]);
      DigitCharOfValue(t[1]);
      assert t[..2] == [t[0], t[1]] == Pad2(d.value);
    } else {
      DigitCharOfValue(t[0]);
      assert t[..1] == [t[0]] == [DigitChar(d.value)];
    }
  }

  lemma {:induction false} FirstDaySpells(t: string, k: nat)
    requires FirstDay(t, k).Some?
    ensures var d := FirstDay(t, k).value;
      DaySpelling(t[..d.len], d.value)
    decreases DAY_ALTERNATIVES - k
  {
    if DayAlternative(t, k).Some? {
      DayAlternativeSpells(t, k);
    } else {
      FirstDaySpells(t, k + 1);
    }
  }

  lemma {:induction false} MatchMonthDaySpells(t: string, k: nat)
    requires MatchMonthDay(t, k).Some?
    ensures var md := MatchMonthDay(t, k).value;
      exists ms, ds :: MonthSpelling(ms, md.month) && DaySpelling(ds, md.day) && t[..md.len] == ms + "-" + ds
    decreases MONTH_ALTERNATIVES - k
  {
    var m := MonthAlternative(t, k);
    if m.Some? && m.value.len < |t| && t[m.value.len] == '-' && FirstDay(t[m.value.len + 1..], 0).Some? {
      var rest := t[m.value.len + 1..];
      var d := FirstDay(rest, 0).value;
      MonthAlternativeSpells(t, k);
      FirstDaySpells(rest, 0);
      var ms, ds := t[..m.value.len], rest[..d.len];
      assert t[..m.value.len + 1 + d.len] == ms + "-" + ds;
    } else {
      MatchMonthDaySpells(t, k + 1);
    }
  }

  lemma FieldsSpells(s: string, y: int, m: int, d: int)
    requires Fields(s) == Some(Date(y, m, d))
    ensures Spells(s, y, m, d)
  {
    var t := s[5..];
    var md := MatchMonthDay(t, 0).value;
    MatchMonthDaySpells(t, 0);
    Pad4OfDigits(s[..4]);
    assert t[..md.len] == t;
    var ms, ds :| MonthSpelling(ms, md.month) && DaySpelling(ds, md.day) && t[..md.len] == ms + "-" + ds;
    assert s == s[..4] + "-" + t;
    assert s == Pad4(y) + "-" + ms + "-" + ds;
  }

  lemma SpellsFields(s: string, y: int, m: int, d: int)
    requires Spells(s, y, m, d)
    ensures Fields(s) == Some(Date(y, m, d))
  {
    var ms, ds :| MonthSpelling(ms, m) && DaySpelling(ds, d) && s == Pad4(y) + "-" + ms + "-" + ds;
    var t := ms + "-" + ds;
    assert s == Pad4(y) + "-" + t;
    assert s[..4] == Pad4(y) && s[4] == '-' && s[5..] == t;
    Pad4Value(y);
    DayOfSpelling(ds, d);
    MonthDayOfSpelling(ms, ds, m, Token(d, |ds|));
  }

  /** strptime reads (y, m, d) from s exactly when s spells (y, m, d) in an accepted form. */
  lemma FieldsIffSpells(s: string, y: int, m: int, d: int)
    ensures Fields(s) == Some(Date(y, m, d)) <==> Spells(s, y, m, d)
  {
    if Fields(s) == Some(Date(y, m, d)) {
      FieldsSpells(s, y, m, d);
    }
    if Spells(s, y, m, d) {
      SpellsFields(s, y, m, d);
    }
  }

  /** `_parse_iso_date(s)` is the date c exactly when s spells c in a form "%Y-%m-%d" accepts. */
  lemma ParseIsoDateSpells(s: string, c: CalDate)
    ensures ParseIsoDate(Some(s)) == Some(c) <==> Spells(s, c.year, c.month, c.day)
  {
    FieldsIffSpells(s, c.year, c.month, c.day);
  }

  /** `_parse_iso_date(s)` is None exactly when s spells no date or only a triple outside the calendar (2024-02-30, 0000-01-01). */
  lemma ParseIsoDateRejects(s: string)
    ensures ParseIsoDate(Some(s)).None? <==> forall y, m, d :: Spells(s, y, m, d) ==> !IsValid(Date(y, m, d))
  {
    if ParseIsoDate(Some(s)).Some? {
      var c := ParseIsoDate(Some(s)).value;
      ParseIsoDateSpells(s, c);
    } else {
      forall y, m, d | Spells(s, y, m, d)
        ensures !IsValid(Date(y, m, d))
      {
        FieldsIffSpells(s, y, m, d);
      }
    }
  }

  /** Reading back `str(d)` gives d. */
  lemma FormatIsoRoundTrip(c: CalDate)
    ensures ParseIsoDate(Some(FormatIso(c))) == Some(c)
  {
    var s := FormatIso(c);
    assert MonthSpelling(Pad2(c.month), c.month) && DaySpelling(Pad2(c.day), c.day);
    assert Spells(s, c.year, c.month, c.day);
    ParseIsoDateSpells(s, c);
  }
}
