/** utils/date_utils.py: the date parser and the preferred-range matcher.

    Python's naive `datetime` is modelled as an integer count of microseconds
    since 0001-01-01T00:00 (the proleptic Gregorian calendar Python uses), so
    "now" is a timestamp and a parsed date is the midnight that starts its day. */
module DateUtils {
  import opened Common

  datatype CivilDate = CivilDate(year: int, month: int, day: int)

  predicate IsLeap(y: int) { y % 4 == 0 && (y % 100 != 0 || y % 400 == 0) }

  function DaysInMonth(y: int, m: int): int
    requires 1 <= m <= 12
  {
    if m == 2 then (if IsLeap(y) then 29 else 28)
    else if m == 4 || m == 6 || m == 9 || m == 11 then 30
    else 31
  }

  /** What `datetime(year, month, day)` accepts (MINYEAR 1, MAXYEAR 9999). */
  predicate ValidDate(d: CivilDate) {
    1 <= d.year <= 9999 && 1 <= d.month <= 12 && 1 <= d.day <= DaysInMonth(d.year, d.month)
  }

  function DaysBeforeMonth(y: int, m: int): int
    requires 1 <= m <= 12
  {
    var table := [0, 31, 59, 90, 120, 151, 181, 212, 243, 273, 304, 334];
    table[m - 1] + (if m > 2 && IsLeap(y) then 1 else 0)
  }

  /** `date.toordinal()`: 0001-01-01 is day 1. */
  function Ordinal(d: CivilDate): int
    requires ValidDate(d)
  {
    var y1 := d.year - 1;
    y1 * 365 + y1 / 4 - y1 / 100 + y1 / 400 + DaysBeforeMonth(d.year, d.month) + d.day
  }

  const MicrosPerDay: int := 86_400_000_000

  /** The `datetime` that `strptime` returns for a date: its midnight. */
  function Midnight(d: CivilDate): int
    requires ValidDate(d)
  {
    (Ordinal(d) - 1) * MicrosPerDay
  }

  // ---------------------------------------------------------------------------
  // Fixed-width decimal fields

  /** The value of a string of decimal digits. */
  function Num(s: string): nat
    requires AllDigits(s)
  {
    if s == [] then 0 else Num(s[..|s| - 1]) * 10 + DigitValue(s[|s| - 1])
  }

  /** `n` written with exactly `width` digits, zero-padded (`%02d`, `%04d`). */
  function Pad(n: nat, width: nat): (r: string)
    ensures |r| == width && AllDigits(r)
  {
    if width == 0 then [] else Pad(n / 10, width - 1) + [DigitChar(n % 10)]
  }

  function Pow10(k: nat): (r: nat)
    ensures r >= 1
  {
    if k == 0 then 1 else 10 * Pow10(k - 1)
  }

  lemma {:induction false} PadOfNum(s: string)
    requires AllDigits(s)
    ensures Pad(Num(s), |s|) == s
  {
    if s != [] {
      var init := s[..|s| - 1];
      PadOfNum(init);
      assert Num(s) / 10 == Num(init);
      assert Num(s) % 10 == DigitValue(s[|s| - 1]);
      assert s == init + [s[|s| - 1]];
    }
  }

  lemma {:induction false} NumOfPad(n: nat, width: nat)
    requires n < Pow10(width)
    ensures Num(Pad(n, width)) == n
  {
    if width > 0 {
      NumOfPad(n / 10, width - 1);
      var p := Pad(n, width);
      assert p[..|p| - 1] == Pad(n / 10, width - 1);
    }
  }

  // ---------------------------------------------------------------------------
  // parse_date

  /** `re.match(r'\d{2}\.\d{2}\.\d{4}', s)`: a prefix match. */
  predicate DayFirstPrefix(s: string) {
    |s| >= 10 && AllDigits(s[..2]) && s[2] == '.' && AllDigits(s[3..5]) && s[5] == '.'
    && AllDigits(s[6..10])
  }

  /** `re.match(r'\d{4}-\d{2}-\d{2}', s)`: a prefix match. */
  predicate IsoPrefix(s: string) {
    |s| >= 10 && AllDigits(s[..4]) && s[4] == '-' && AllDigits(s[5..7]) && s[7] == '-'
    && AllDigits(s[8..10])
  }

  function Validated(d: CivilDate): (r: Option<CivilDate>)
  {
    if ValidDate(d) then Some(d) else None
  }

  /** `parse_date`: the regular expression only checks a prefix, then `strptime`
      rejects trailing characters and impossible dates with a `ValueError`,
      which the function turns into `None`. */
  function ParseDate(s: string): (r: Option<CivilDate>)
    ensures r.Some? ==> ValidDate(r.value) && |s| == 10
  {
    if DayFirstPrefix(s) then
      (if |s| == 10 then Validated(CivilDate(Num(s[6..10]), Num(s[3..5]), Num(s[..2]))) else None)
    else if IsoPrefix(s) then
      (if |s| == 10 then Validated(CivilDate(Num(s[..4]), Num(s[5..7]), Num(s[8..10]))) else None)
    else None
  }

  /** `strftime('%d.%m.%Y')`. */
  function FormatDayFirst(d: CivilDate): string
    requires ValidDate(d)
  {
    Pad(d.day, 2) + "." + Pad(d.month, 2) + "." + Pad(d.year, 4)
  }

  /** `strftime('%Y-%m-%d')`, the calendar date extended form of ISO 8601. */
  function FormatIso(d: CivilDate): string
    requires ValidDate(d)
  {
    Pad(d.year, 4) + "-" + Pad(d.month, 2) + "-" + Pad(d.day, 2)
  }

  /** The three fields of a `DD.MM.YYYY` string, rendered back, give the string. */
  lemma DayFirstFields(s: string)
    requires |s| == 10 && DayFirstPrefix(s)
    ensures s == Pad(Num(s[..2]), 2) + "." + Pad(Num(s[3..5]), 2) + "." + Pad(Num(s[6..10]), 4)
  {
    PadOfNum(s[..2]);
    PadOfNum(s[3..5]);
    PadOfNum(s[6..10]);
    assert s == s[..2] + [s[2]] + s[3..5] + [s[5]] + s[6..10];
  }

  /** The three fields of a `YYYY-MM-DD` string, rendered back, give the string. */
  lemma IsoFields(s: string)
    requires |s| == 10 && IsoPrefix(s)
    ensures s == Pad(Num(s[..4]), 4) + "-" + Pad(Num(s[5..7]), 2) + "-" + Pad(Num(s[8..10]), 2)
  {
    PadOfNum(s[..4]);
    PadOfNum(s[5..7]);
    PadOfNum(s[8..10]);
    assert s == s[..4] + [s[4]] + s[5..7] + [s[7]] + s[8..10];
  }

  /** Whatever `parse_date` accepts is exactly one of the two spellings of the
      date it returns: no other format, no trailing characters. */
  lemma ParseDateSound(s: string)
    requires ParseDate(s).Some?
    ensures var d := ParseDate(s).value; s == FormatDayFirst(d) || s == FormatIso(d)
  {
    if DayFirstPrefix(s) {
      DayFirstFields(s);
    } else {
      IsoFields(s);
    }
  }

  lemma PadFields(d: CivilDate)
    requires ValidDate(d)
    ensures Num(Pad(d.day, 2)) == d.day && Num(Pad(d.month, 2)) == d.month
    ensures Num(Pad(d.year, 4)) == d.year
  {
    assert Pow10(2) == 100 && Pow10(4) == 10000 by {
      assert Pow10(1) == 10;
      assert Pow10(3) == 1000;
    }
    NumOfPad(d.day, 2);
    NumOfPad(d.month, 2);
    NumOfPad(d.year, 4);
  }

  lemma ParseDayFirstComplete(d: CivilDate)
    requires ValidDate(d)
    ensures ParseDate(FormatDayFirst(d)) == Some(d)
  {
    PadFields(d);
    var a := FormatDayFirst(d);
    assert a[..2] == Pad(d.day, 2) && a[3..5] == Pad(d.month, 2) && a[6..10] == Pad(d.year, 4);
    assert DayFirstPrefix(a);
  }

  lemma ParseIsoComplete(d: CivilDate)
    requires ValidDate(d)
    ensures ParseDate(FormatIso(d)) == Some(d)
  {
    PadFields(d);
    var b := FormatIso(d);
    assert b[..4] == Pad(d.year, 4) && b[5..7] == Pad(d.month, 2) && b[8..10] == Pad(d.day, 2);
    assert IsDigit(b[2]) && !DayFirstPrefix(b);
    assert IsoPrefix(b);
  }

  /** Every valid date is parsed back from both of its spellings. */
  lemma ParseDateComplete(d: CivilDate)
    requires ValidDate(d)
    ensures ParseDate(FormatDayFirst(d)) == Some(d)
    ensures ParseDate(FormatIso(d)) == Some(d)
  {
    ParseDayFirstComplete(d);
    ParseIsoComplete(d);
  }

  /** A string that parses followed by anything at all no longer parses. */
  lemma TrailingCharactersRejected(s: string, tail: string)
    requires ParseDate(s).Some? && tail != []
    ensures ParseDate(s + tail) == None
  {
  }

  // ---------------------------------------------------------------------------
  // check_if_dates_in_range

  /** The window lengths, in days, of the known range names. */
  function WindowDays(preferredRange: string): Option<nat>
  {
    if preferredRange == "week" then Some(7)
    else if preferredRange == "two_weeks" then Some(14)
    else if preferredRange == "month" then Some(31)
    else None
  }

  /** `today <= date_obj <= end_date` for one entry of the list; an entry that
      does not parse is skipped. */
  predicate DateInWindow(s: string, now: int, days: nat) {
    var p := ParseDate(s);
    p.Some? && now <= Midnight(p.value) <= now + days * MicrosPerDay
  }

  /** The search loop with its early return. */
  function AnyInWindow(dates: seq<string>, now: int, days: nat): (r: bool)
    ensures r <==> exists i :: 0 <= i < |dates| && DateInWindow(dates[i], now, days)
  {
    if dates == [] then false
    else DateInWindow(dates[0], now, days) || AnyInWindow(dates[1..], now, days)
  }

  /** `check_if_dates_in_range(dates, preferred_range)` with `datetime.now()`
      passed in as `now`. */
  function CheckIfDatesInRange(dates: seq<string>, preferredRange: string, now: int): (r: bool)
    ensures dates == [] || preferredRange == "any" || WindowDays(preferredRange) == None ==> r
    ensures dates != [] && preferredRange != "any" && WindowDays(preferredRange).Some? ==>
      (r <==> exists i :: 0 <= i < |dates| && DateInWindow(dates[i], now, WindowDays(preferredRange).value))
  {
    if dates == [] || preferredRange == "any" then true
    else match WindowDays(preferredRange)
      case None => true
      case Some(days) => AnyInWindow(dates, now, days)
  }

  /** Not fail-open: when no entry parses, a known range gives `False`. */
  lemma NothingParsesGivesFalse(dates: seq<string>, preferredRange: string, now: int)
    requires dates != [] && preferredRange != "any" && WindowDays(preferredRange).Some?
    requires forall i :: 0 <= i < |dates| ==> ParseDate(dates[i]) == None
    ensures !CheckIfDatesInRange(dates, preferredRange, now)
  {
  }

  /** OR semantics: on a non-empty list, more dates never turn `True` into `False`. */
  lemma AddingDatesKeepsMatch(dates: seq<string>, more: seq<string>, preferredRange: string, now: int)
    requires dates != [] && CheckIfDatesInRange(dates, preferredRange, now)
    ensures CheckIfDatesInRange(dates + more, preferredRange, now)
    ensures CheckIfDatesInRange(more + dates, preferredRange, now)
  {
    if preferredRange != "any" && WindowDays(preferredRange).Some? {
      var days := WindowDays(preferredRange).value;
      var i :| 0 <= i < |dates| && DateInWindow(dates[i], now, days);
      assert (dates + more)[i] == dates[i];
      assert (more + dates)[|more| + i] == dates[i];
    }
  }

  /** The empty list is the one exception: it matches by default, and adding an
      unparseable entry to it turns the answer into `False`. */
  lemma EmptyListMatchesByDefault(now: int)
    ensures CheckIfDatesInRange([], "week", now)
    ensures !CheckIfDatesInRange(["soon"], "week", now)
  {
    assert ParseDate("soon") == None;
  }

  /** Widening the range never turns `True` into `False`. */
  lemma WideningKeepsMatch(dates: seq<string>, now: int)
    ensures CheckIfDatesInRange(dates, "week", now) ==> CheckIfDatesInRange(dates, "two_weeks", now)
    ensures CheckIfDatesInRange(dates, "two_weeks", now) ==> CheckIfDatesInRange(dates, "month", now)
  {
    if dates != [] && CheckIfDatesInRange(dates, "week", now) {
      var i :| 0 <= i < |dates| && DateInWindow(dates[i], now, 7);
      assert DateInWindow(dates[i], now, 14);
    }
    if dates != [] && CheckIfDatesInRange(dates, "two_weeks", now) {
      var i :| 0 <= i < |dates| && DateInWindow(dates[i], now, 14);
      assert DateInWindow(dates[i], now, 31);
    }
  }

  /** The comparison is against the current timestamp: today's own date is in
      range only when `now` is exactly midnight. */
  lemma TodayMatchesOnlyAtMidnight(d: CivilDate, now: int, days: nat)
    requires ValidDate(d) && 0 <= now && Ordinal(d) - 1 == now / MicrosPerDay
    ensures DateInWindow(FormatIso(d), now, days) <==> now % MicrosPerDay == 0
    ensures DateInWindow(FormatDayFirst(d), now, days) <==> now % MicrosPerDay == 0
  {
    ParseDateComplete(d);
  }

  /** A date exactly `days` days after today's midnight is still inside the
      window when the check runs at midnight. */
  lemma LastDayOfWindowMatches(today: CivilDate, d: CivilDate, days: nat)
    requires ValidDate(today) && ValidDate(d) && Ordinal(d) == Ordinal(today) + days
    ensures DateInWindow(FormatDayFirst(d), Midnight(today), days)
    ensures DateInWindow(FormatIso(d), Midnight(today), days)
  {
    ParseDateComplete(d);
  }

  lemma ExampleOrdinals()
    ensures Ordinal(CivilDate(2025, 3, 10)) == 739320
    ensures Ordinal(CivilDate(2025, 3, 15)) == 739325
    ensures Ordinal(CivilDate(2025, 4, 15)) == 739356
  {
  }

  lemma ExampleSpellings()
    ensures FormatDayFirst(CivilDate(2025, 3, 15)) == "15.03.2025"
    ensures FormatDayFirst(CivilDate(2025, 4, 15)) == "15.04.2025"
  {
    PadExamples();
  }

  lemma PadExamples()
    ensures Pad(15, 2) == "15" && Pad(3, 2) == "03" && Pad(4, 2) == "04"
    ensures Pad(2025, 4) == "2025"
  {
    assert Pad(1, 1) == "1" && Pad(0, 1) == "0" && Pad(20, 2) == "20";
    assert Pad(15, 2) == Pad(1, 1) + "5";
    assert Pad(3, 2) == Pad(0, 1) + "3";
    assert Pad(4, 2) == Pad(0, 1) + "4";
    assert Pad(202, 3) == Pad(20, 2) + "2";
    assert Pad(2025, 4) == Pad(202, 3) + "5";
  }

  /** A worked case: on 2025-03-10 at midnight, 15.03.2025 is within a week and
      15.04.2025 is not. */
  lemma WeekExample()
    ensures CheckIfDatesInRange(["15.03.2025"], "week", Midnight(CivilDate(2025, 3, 10)))
    ensures !CheckIfDatesInRange(["15.04.2025"], "week", Midnight(CivilDate(2025, 3, 10)))
  {
    ExampleOrdinals();
    ExampleSpellings();
    ParseDateComplete(CivilDate(2025, 3, 15));
    ParseDateComplete(CivilDate(2025, 4, 15));
    assert ParseDate("15.03.2025") == Some(CivilDate(2025, 3, 15));
    assert ParseDate("15.04.2025") == Some(CivilDate(2025, 4, 15));
  }
}
