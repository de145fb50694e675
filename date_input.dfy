/**
 * `safe_date_input` of api/index.py: the optional `date` query parameter is
 * parsed with `datetime.strptime(s, "%Y-%m-%d")`, checked against the service's
 * first day and today, and re-serialised with `date.isoformat()`. Every
 * failure becomes `None`.
 *
 * The parse is modelled on the regular expression CPython's `strptime` builds
 * for that pattern: `%Y` is exactly four digits, `%m` is `1[0-2]|0[1-9]|[1-9]`,
 * `%d` is `3[01]|[12]\d|0[1-9]|[1-9]| [1-9]`, the match must use up the whole
 * string, and the `(year, month, day)` it yields must then be a real date.
 */
module DateInput {

  import opened Wrappers
  import opened Calendar

  /** 1995-06-16, the first day of the APOD archive. */
  const Inception := Date(1995, 6, 16)

  // ---------------------------------------------------------------------------
  // Digits

  predicate IsDigit(c: char)
  {
    '0' <= c <= '9'
  }

  function DigitValue(c: char): (n: int)
    requires IsDigit(c)
    ensures 0 <= n <= 9
  {
    c as int - '0' as int
  }

  function DigitChar(n: int): (c: char)
    requires 0 <= n <= 9
    ensures IsDigit(c) && DigitValue(c) == n
  {
    ('0' as int + n) as char
  }

  lemma DigitCharOfValue(c: char)
    requires IsDigit(c)
    ensures DigitChar(DigitValue(c)) == c
  {
  }

  /** `%02d`. */
  function Pad2(n: int): (s: string)
    requires 0 <= n <= 99
    ensures |s| == 2 && IsDigit(s[0]) && IsDigit(s[1])
    ensures 10 * DigitValue(s[0]) + DigitValue(s[1]) == n
  {
    [DigitChar(n / 10), DigitChar(n % 10)]
  }

  /** `%04d`. */
  function Pad4(n: int): (s: string)
    requires 0 <= n <= 9999
    ensures |s| == 4 && IsDigit(s[0]) && IsDigit(s[1]) && IsDigit(s[2]) && IsDigit(s[3])
    ensures FourDigitValue(s) == n
  {
    Pad2(n / 100) + Pad2(n % 100)
  }

  predicate FourDigits(s: string)
  {
    |s| == 4 && IsDigit(s[0]) && IsDigit(s[1]) && IsDigit(s[2]) && IsDigit(s[3])
  }

  /** The number a run of four digits spells, as `int()` reads the `%Y` group. */
  function FourDigitValue(s: string): (n: int)
    requires FourDigits(s)
    ensures 0 <= n <= 9999
  {
    1000 * DigitValue(s[0]) + 100 * DigitValue(s[1]) + 10 * DigitValue(s[2]) + DigitValue(s[3])
  }

  /** Four digits are the `%04d` rendering of the number they spell. */
  lemma Pad4OfValue(s: string)
    requires FourDigits(s)
    ensures Pad4(FourDigitValue(s)) == s
  {
  }

  // ---------------------------------------------------------------------------
  // datetime.strptime(s, "%Y-%m-%d")

  /** A matched group: the number it stands for and how many characters it took. */
  datatype Group = Group(value: int, width: nat)

  /**
   * The `%m` group at position `i`, followed by the literal `-`. The
   * alternatives are tried in the regular expression's order and the engine
   * backtracks to the next one when the `-` does not follow.
   */
  function MonthAt(s: string, i: nat): (g: Option<Group>)
    ensures g.Some? ==> 1 <= g.value.value <= 12 && 1 <= g.value.width <= 2
    ensures g.Some? ==> i + g.value.width < |s| && s[i + g.value.width] == '-'
  {
    if i + 2 < |s| && s[i] == '1' && '0' <= s[i + 1] <= '2' && s[i + 2] == '-' then
      Some(Group(10 + DigitValue(s[i + 1]), 2))
    else if i + 2 < |s| && s[i] == '0' && '1' <= s[i + 1] <= '9' && s[i + 2] == '-' then
      Some(Group(DigitValue(s[i + 1]), 2))
    else if i + 1 < |s| && '1' <= s[i] <= '9' && s[i + 1] == '-' then
      Some(Group(DigitValue(s[i]), 1))
    else
      None
  }

  /**
   * The `%d` group at position `j`: the first alternative that matches. It
   * ends the pattern, so nothing forces a longer match; `strptime` rejects
   * what is left over afterwards.
   */
  function DayAt(s: string, j: nat): (g: Option<Group>)
    ensures g.Some? ==> 1 <= g.value.value <= 31 && 1 <= g.value.width <= 2
    ensures g.Some? ==> j + g.value.width <= |s|
  {
    if j + 1 < |s| && s[j] == '3' && '0' <= s[j + 1] <= '1' then
      Some(Group(30 + DigitValue(s[j + 1]), 2))
    else if j + 1 < |s| && '1' <= s[j] <= '2' && IsDigit(s[j + 1]) then
      Some(Group(10 * DigitValue(s[j]) + DigitValue(s[j + 1]), 2))
    else if j + 1 < |s| && s[j] == '0' && '1' <= s[j + 1] <= '9' then
      Some(Group(DigitValue(s[j + 1]), 2))
    else if j < |s| && '1' <= s[j] <= '9' then
      Some(Group(DigitValue(s[j]), 1))
    else if j + 1 < |s| && s[j] == ' ' && '1' <= s[j + 1] <= '9' then
      Some(Group(DigitValue(s[j + 1]), 2))
    else
      None
  }

  /**
   * The triple the pattern reads from `s`, before any calendar check; `None`
   * when the pattern does not match or leaves characters unconsumed.
   */
  function MatchFormat(s: string): (r: Option<Date>)
    ensures r.Some? ==> 0 <= r.value.year <= 9999 && 1 <= r.value.month <= 12 && 1 <= r.value.day <= 31
  {
    if |s| < 5 || !FourDigits(s[..4]) || s[4] != '-' then None
    else
      match MonthAt(s, 5)
      case None => None
      case Some(m) =>
        var j := 5 + m.width + 1;
        match DayAt(s, j)
        case None => None
        case Some(d) =>
          if j + d.width == |s| then Some(Date(FourDigitValue(s[..4]), m.value, d.value)) else None
  }

  /**
   * `strptime(s, "%Y-%m-%d").date()`, with the `ValueError` it raises as
   * `None`: either the pattern fails, or the triple is no real date (day 0 of
   * a month, 30 February, 29 February of a common year, year 0).
   */
  function Strptime(s: string): (r: Option<Date>)
    ensures r.Some? ==> ValidDate(r.value)
  {
    match MatchFormat(s)
    case None => None
    case Some(d) => if ValidDate(d) then Some(d) else None
  }

  // ---------------------------------------------------------------------------
  // The spellings the pattern accepts for one date, as a reference definition

  ghost function MonthSpellings(m: int): set<string>
  {
    if 1 <= m <= 9 then {[DigitChar(m)], Pad2(m)}
    else if 10 <= m <= 12 then {Pad2(m)}
    else {}
  }

  ghost function DaySpellings(d: int): set<string>
  {
    if 1 <= d <= 9 then {[DigitChar(d)], Pad2(d), [' ', DigitChar(d)]}
    else if 10 <= d <= 31 then {Pad2(d)}
    else {}
  }

  /**
   * Every string that `"%Y-%m-%d"` reads as the triple `d`: four digits for
   * the year, a dash, the month with or without a leading zero, a dash, and
   * the day with a leading zero, a leading space or neither.
   */
  ghost function Spellings(d: Date): set<string>
  {
    if 0 <= d.year <= 9999 then
      set mt, dt | mt in MonthSpellings(d.month) && dt in DaySpellings(d.day) ::
        Pad4(d.year) + "-" + mt + "-" + dt
    else {}
  }

  // ---------------------------------------------------------------------------
  // date.isoformat()

  /** The shape `isoformat` produces: `YYYY-MM-DD`, ten characters. */
  predicate IsCanonical(s: string)
  {
    |s| == 10 && FourDigits(s[..4]) && s[4] == '-' && IsDigit(s[5]) && IsDigit(s[6]) &&
    s[7] == '-' && IsDigit(s[8]) && IsDigit(s[9])
  }

  /** `date.isoformat()`: `"%04d-%02d-%02d"`. */
  function IsoFormat(d: Date): (s: string)
    requires ValidDate(d)
    ensures IsCanonical(s)
    ensures s in Spellings(d)
  {
    var s := Pad4(d.year) + "-" + Pad2(d.month) + "-" + Pad2(d.day);
    assert s[..4] == Pad4(d.year);
    assert Pad2(d.month) in MonthSpellings(d.month);
    assert Pad2(d.day) in DaySpellings(d.day);
    s
  }

  // ---------------------------------------------------------------------------
  // safe_date_input

  /** Python truthiness of an optional string: present and non-empty. */
  predicate Truthy(s: Option<string>)
  {
    s.Some? && s.value != ""
  }

  /** The range `safe_date_input` accepts, both ends included. */
  predicate InRange(d: Date, today: Date)
  {
    !Less(d, Inception) && !Less(today, d)
  }

  /**
   * `safe_date_input(date_str)` with the clock read as `today`: the canonical
   * form of a real date between 1995-06-16 and today, or `None`.
   */
  function SafeDateInput(input: Option<string>, today: Date): (r: Option<string>)
    ensures !Truthy(input) ==> r.None?
    ensures r.Some? ==> IsCanonical(r.value) && Truthy(r)
  {
    if !Truthy(input) then None
    else
      match Strptime(input.value)
      case None => None
      case Some(d) => if Less(d, Inception) || Less(today, d) then None else Some(IsoFormat(d))
  }

  // ---------------------------------------------------------------------------
  // The parser against its reference

  /** The month group the pattern takes is one of the month's spellings. */
  lemma MonthAtSpelling(s: string, i: nat)
    requires MonthAt(s, i).Some?
    ensures s[i..i + MonthAt(s, i).value.width] in MonthSpellings(MonthAt(s, i).value.value)
  {
    var g := MonthAt(s, i).value;
    var t := s[i..i + g.width];
    if g.width == 2 {
      assert t == [s[i], s[i + 1]];
      DigitCharOfValue(s[i + 1]);
      assert t == Pad2(g.value);
    } else {
      assert t == [s[i]];
      DigitCharOfValue(s[i]);
    }
  }

  /** The day group the pattern takes is one of the day's spellings. */
  lemma DayAtSpelling(s: string, j: nat)
    requires DayAt(s, j).Some?
    ensures s[j..j + DayAt(s, j).value.width] in DaySpellings(DayAt(s, j).value.value)
  {
    var g := DayAt(s, j).value;
    var t := s[j..j + g.width];
    if g.width == 2 {
      assert t == [s[j], s[j + 1]];
      if IsDigit(s[j]) {
        DigitCharOfValue(s[j]);
      }
      DigitCharOfValue(s[j + 1]);
    } else {
      assert t == [s[j]];
      DigitCharOfValue(s[j]);
    }
  }

  /** Whatever the pattern reads, `s` is a spelling of it. */
  lemma MatchFormatSound(s: string)
    requires MatchFormat(s).Some?
    ensures s in Spellings(MatchFormat(s).value)
  {
    var d := MatchFormat(s).value;
    var m := MonthAt(s, 5).value;
    var j := 5 + m.width + 1;
    var g := DayAt(s, j).value;
    var mt := s[5..5 + m.width];
    var dt := s[j..];
    assert j + g.width == |s| && dt == s[j..j + g.width];
    MonthAtSpelling(s, 5);
    DayAtSpelling(s, j);
    Pad4OfValue(s[..4]);
    assert s == Pad4(d.year) + "-" + mt + "-" + dt;
    assert mt in MonthSpellings(d.month) && dt in DaySpellings(d.day);
  }

  /** Every spelling of a triple is read back as that triple. */
  lemma MatchFormatComplete(s: string, d: Date)
    requires s in Spellings(d)
    ensures MatchFormat(s) == Some(d)
  {
  }

  /**
   * `strptime` succeeds on `s` with date `d` exactly when `s` is one of the
   * spellings of `d` and `d` is a real date.
   */
  lemma StrptimeExact(s: string, d: Date)
    ensures Strptime(s) == Some(d) <==> s in Spellings(d) && ValidDate(d)
  {
    if s in Spellings(d) {
      MatchFormatComplete(s, d);
    }
    if Strptime(s) == Some(d) {
      MatchFormatSound(s);
    }
  }

  /** `isoformat` is read back by `strptime` as the same date. */
  lemma IsoFormatRoundTrip(d: Date)
    requires ValidDate(d)
    ensures Strptime(IsoFormat(d)) == Some(d)
  {
  }

  /** Distinct dates have distinct canonical forms. */
  lemma IsoFormatInjective(a: Date, b: Date)
    requires ValidDate(a) && ValidDate(b) && IsoFormat(a) == IsoFormat(b)
    ensures a == b
  {
  }

  // ---------------------------------------------------------------------------
  // What safe_date_input accepts

  /**
   * On a spelling of `d`, `safe_date_input` returns the canonical form of `d`
   * when `d` is a real date in the range, and `None` otherwise.
   */
  lemma SafeDateInputOnSpelling(s: string, d: Date, today: Date)
    requires s in Spellings(d)
    ensures SafeDateInput(Some(s), today) ==
      if ValidDate(d) && InRange(d, today) then Some(IsoFormat(d)) else None
  {
    MatchFormatComplete(s, d);
  }

  /** Anything `safe_date_input` accepts spells a real date in the range. */
  lemma SafeDateInputAcceptsOnlySpellings(s: string, today: Date)
    requires SafeDateInput(Some(s), today).Some?
    ensures exists d :: s in Spellings(d) && ValidDate(d) && InRange(d, today) &&
                        SafeDateInput(Some(s), today) == Some(IsoFormat(d))
  {
    var d := Strptime(s).value;
    StrptimeExact(s, d);
  }

  /** Strings the pattern cannot read, or that name no real date, give `None`. */
  lemma SafeDateInputRejectsUnparsable(s: string, today: Date)
    requires Strptime(s).None?
    ensures SafeDateInput(Some(s), today).None?
  {
  }

  /** Both ends of the range are accepted, each as its own canonical form. */
  lemma SafeDateInputBoundaries(today: Date)
    requires ValidDate(today) && !Less(today, Inception)
    ensures SafeDateInput(Some("1995-06-16"), today) == Some("1995-06-16")
    ensures SafeDateInput(Some(IsoFormat(today)), today) == Some(IsoFormat(today))
  {
    assert IsoFormat(Inception) == "1995-06-16";
    IsoFormatRoundTrip(Inception);
    IsoFormatRoundTrip(today);
  }

  /** Feeding a result back in returns it unchanged. */
  lemma SafeDateInputIdempotent(input: Option<string>, today: Date)
    requires SafeDateInput(input, today).Some?
    ensures SafeDateInput(SafeDateInput(input, today), today) == SafeDateInput(input, today)
  {
    var d := Strptime(input.value).value;
    IsoFormatRoundTrip(d);
  }

  /** Non-canonical spellings are accepted and canonicalised; 29 February in a leap year is real. */
  lemma SafeDateInputAcceptsExamples()
    ensures SafeDateInput(Some("2024-2- 3"), Date(2026, 10, 14)) == Some("2024-02-03")
    ensures SafeDateInput(Some("2024-02-29"), Date(2026, 10, 14)) == Some("2024-02-29")
  {
    var today := Date(2026, 10, 14);
    assert Pad4(2024) == "2024";
    assert "2024-2- 3" == Pad4(2024) + "-" + [DigitChar(2)] + "-" + [' ', DigitChar(3)];
    assert [DigitChar(2)] in MonthSpellings(2) && [' ', DigitChar(3)] in DaySpellings(3);
    SafeDateInputOnSpelling("2024-2- 3", Date(2024, 2, 3), today);
    assert ValidDate(Date(2024, 2, 3)) && InRange(Date(2024, 2, 3), today);
    assert Pad2(2) == "02" && Pad2(3) == "03";
    assert IsoFormat(Date(2024, 2, 3)) == "2024-02-03";
    assert "2024-02-29" == Pad4(2024) + "-" + Pad2(2) + "-" + Pad2(29);
    assert Pad2(2) in MonthSpellings(2) && Pad2(29) in DaySpellings(29);
    SafeDateInputOnSpelling("2024-02-29", Date(2024, 2, 29), today);
    assert ValidDate(Date(2024, 2, 29)) && InRange(Date(2024, 2, 29), today);
  }

  /** 29 February of a common year is no date; the day before the archive began is out of range. */
  lemma SafeDateInputRejectsExamples()
    ensures SafeDateInput(Some("2023-02-29"), Date(2026, 10, 14)) == None
    ensures SafeDateInput(Some("1995-06-15"), Date(2026, 10, 14)) == None
  {
    var today := Date(2026, 10, 14);
    assert Pad4(2023) == "2023" && Pad4(1995) == "1995";
    assert "2023-02-29" == Pad4(2023) + "-" + Pad2(2) + "-" + Pad2(29);
    assert Pad2(2) in MonthSpellings(2) && Pad2(29) in DaySpellings(29);
    SafeDateInputOnSpelling("2023-02-29", Date(2023, 2, 29), today);
    assert "1995-06-15" == Pad4(1995) + "-" + Pad2(6) + "-" + Pad2(15);
    assert Pad2(6) in MonthSpellings(6) && Pad2(15) in DaySpellings(15);
    SafeDateInputOnSpelling("1995-06-15", Date(1995, 6, 15), today);
  }

  /** Month 13 does not match `%m`; a trailing space is unconverted data. */
  lemma MatchFormatRejectsExamples()
    ensures MatchFormat("2024-13-01").None?
    ensures MatchFormat("2024-01-01 ").None?
  {
    assert MonthAt("2024-13-01", 5).None?;
    var t := "2024-01-01 ";
    assert MonthAt(t, 5) == Some(Group(1, 2));
    assert DayAt(t, 8) == Some(Group(1, 2));
  }
}
