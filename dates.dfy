/**
 * `DataProcessor.parse_date`: normalises a raw date value to the canonical
 * `YYYY-MM-DD` form, the extended complete calendar-date representation of
 * section 4.1.2.2 of ISO 8601:2004, or to null.  Also the string order SQLite
 * uses when the validator compares such dates.
 */
module Dates {
  import opened Common
  import opened Text

  /** What `^\d{4}-\d{2}-\d{2}$` accepts: the digit shape only, no calendar check. */
  predicate IsIsoShape(s: string) {
    |s| == 10 && AllDigits(s[..4]) && s[4] == '-' && AllDigits(s[5..7]) && s[7] == '-'
    && AllDigits(s[8..])
  }

  /** What `^\d{8}$` accepts: the basic format `YYYYMMDD`, again unchecked. */
  predicate IsCompactShape(s: string) {
    |s| == 8 && AllDigits(s)
  }

  function Year(s: string): nat
    requires IsIsoShape(s)
  {
    Value(s[..4])
  }

  function Month(s: string): nat
    requires IsIsoShape(s)
  {
    Value(s[5..7])
  }

  function Day(s: string): nat
    requires IsIsoShape(s)
  {
    Value(s[8..])
  }

  // ---------------------------------------------------------------------
  // The calendar `datetime` enforces

  predicate IsLeapYear(y: int) {
    y % 4 == 0 && (y % 100 != 0 || y % 400 == 0)
  }

  function DaysInMonth(y: int, m: int): nat
    requires 1 <= m <= 12
  {
    if m == 2 then (if IsLeapYear(y) then 29 else 28)
    else if m == 4 || m == 6 || m == 9 || m == 11 then 30
    else 31
  }

  /** A date `datetime(y, m, d)` accepts (years 1 to 9999). */
  predicate IsCalendarDate(y: int, m: int, d: int) {
    1 <= y <= 9999 && 1 <= m <= 12 && 1 <= d <= DaysInMonth(y, m)
  }

  /** `strftime("%Y-%m-%d")`. */
  function Canonical(y: nat, m: nat, d: nat): (r: string)
    requires y < 10000 && m < 100 && d < 100
    ensures IsIsoShape(r) && Year(r) == y && Month(r) == m && Day(r) == d
  {
    var r := Padded(y, 4) + "-" + Padded(m, 2) + "-" + Padded(d, 2);
    assert r[..4] == Padded(y, 4) && r[5..7] == Padded(m, 2) && r[8..] == Padded(d, 2);
    r
  }

  // ---------------------------------------------------------------------
  // strptime(t, "%d - %B - %Y")

  /** The English month names `strptime` matches `%B` against, lower-cased
      as its locale table keeps them; the match ignores case. */
  const MonthNames: seq<string> := ["january", "february", "march", "april", "may", "june",
    "july", "august", "september", "october", "november", "december"]

  function MonthFrom(lower: string, k: nat): (m: nat)
    requires k <= 12
    ensures m == 0 || k < m <= 12
    ensures m != 0 ==> lower == MonthNames[m - 1]
    ensures m == 0 ==> forall j | k <= j < 12 :: lower != MonthNames[j]
    decreases 12 - k
  {
    if k == 12 then 0
    else if lower == MonthNames[k] then k + 1
    else MonthFrom(lower, k + 1)
  }

  /** The month number `%B` reads from a word, or 0 when it names no month. */
  function MonthNumber(w: string): (m: nat)
    ensures m <= 12
    ensures m != 0 ==> Lower(w) == MonthNames[m - 1]
    ensures m == 0 <==> forall j | 0 <= j < 12 :: Lower(w) != MonthNames[j]
  {
    MonthFrom(Lower(w), 0)
  }

  /** What `%d` accepts in front of whitespace: one or two digits, 1 to 31. */
  predicate IsDayWord(w: string) {
    1 <= |w| <= 2 && AllDigits(w) && 1 <= Value(w) <= 31
  }

  /** What `%Y` accepts at the end of the input: exactly four digits. */
  predicate IsYearWord(w: string) {
    |w| == 4 && AllDigits(w)
  }

  /** The words `strptime(t, "%d - %B - %Y")` accepts before its calendar
      check: a day, `-`, an English month name, `-`, a four-digit year. */
  predicate IsDayMonthYearForm(t: string) {
    var ws := Words(t);
    |ws| == 5 && IsDayWord(ws[0]) && ws[1] == "-" && MonthNumber(ws[2]) != 0
    && ws[3] == "-" && IsYearWord(ws[4])
  }

  /** `datetime.strptime(t, "%d - %B - %Y").strftime("%Y-%m-%d")` on a
      stripped `t`, `None` where `strptime` raises.  Each space of the format
      matches a run of whitespace, so the input must consist of exactly the
      five words day, `-`, month, `-`, year; then `datetime` rejects dates
      that are not in the calendar. */
  function ParseDayMonthYear(t: string): (r: Option<string>)
    ensures r.Some? ==> IsDayMonthYearForm(t)
    ensures r.Some? ==> IsIsoShape(r.value)
    ensures r.Some? ==> IsCalendarDate(Year(r.value), Month(r.value), Day(r.value))
    ensures r.Some? ==> var ws := Words(t);
      Day(r.value) == Value(ws[0]) && Month(r.value) == MonthNumber(ws[2]) && Year(r.value) == Value(ws[4])
    ensures (IsDayMonthYearForm(t) &&
             IsCalendarDate(Value(Words(t)[4]), MonthNumber(Words(t)[2]), Value(Words(t)[0])))
            ==> r.Some?
  {
    var ws := Words(t);
    if IsDayMonthYearForm(t) then
      var d, m, y := Value(ws[0]), MonthNumber(ws[2]), Value(ws[4]);
      if IsCalendarDate(y, m, d) then Some(Canonical(y, m, d)) else None
    else None
  }

  // ---------------------------------------------------------------------
  // parse_date

  /** `parse_date`: null stays null; the stripped value passes through when it
      has the `YYYY-MM-DD` shape, is re-sliced when it has the `YYYYMMDD`
      shape, goes through `strptime` when it contains `" - "`, and is null
      (with a warning) otherwise.  It never raises. */
  function ParseDate(raw: Option<string>): (r: Option<string>)
    ensures raw.None? ==> r.None?
    ensures r.Some? ==> IsIsoShape(r.value)
    ensures r.Some? ==> var t := Strip(raw.value);
      IsIsoShape(t) || IsCompactShape(t) || (Contains(t, " - ") && IsDayMonthYearForm(t))
  {
    match raw
    case None => None
    case Some(s) => ParseStripped(Strip(s))
  }

  /** `parse_date` once the value is stripped. */
  function ParseStripped(t: string): (r: Option<string>)
    ensures r.Some? ==> IsIsoShape(r.value)
    ensures r.Some? ==>
      IsIsoShape(t) || IsCompactShape(t) || (Contains(t, " - ") && IsDayMonthYearForm(t))
  {
    if IsIsoShape(t) then Some(t)
    else if IsCompactShape(t) then Some(Reslice(t))
    else if Contains(t, " - ") then ParseDayMonthYear(t)
    else None
  }

  /** `f"{t[:4]}-{t[4:6]}-{t[6:8]}"` for an 8-digit `t`. */
  function Reslice(t: string): (r: string)
    requires IsCompactShape(t)
    ensures IsIsoShape(r)
    ensures Year(r) == Value(t[..4]) && Month(r) == Value(t[4..6]) && Day(r) == Value(t[6..])
  {
    var r := t[..4] + "-" + t[4..6] + "-" + t[6..];
    assert r[..4] == t[..4] && r[5..7] == t[4..6] && r[8..] == t[6..];
    r
  }

  /** A value already in `YYYY-MM-DD` shape passes through unchanged, even
      when it is no calendar date. */
  lemma ParseDateKeepsIsoShape(s: string)
    requires IsIsoShape(Strip(s))
    ensures ParseDate(Some(s)) == Some(Strip(s))
  {
  }

  /** The source leaves month 13 and day 45 alone. */
  lemma ParseDateNoCalendarCheck()
    ensures ParseDate(Some(" 2023-13-45\n")) == Some("2023-13-45")
  {
    NoCalendarCheckStrip();
    NoCalendarCheckShape();
  }

  lemma NoCalendarCheckStrip()
    ensures Strip(" 2023-13-45\n") == "2023-13-45"
  {
    var s := " 2023-13-45\n";
    var t := "2023-13-45";
    var u := t + "\n";
    assert s[1..] == u && u[..10] == t;
    assert !IsSpace(u[0]) && LeadingSpaces(u) == 0;
    assert LeadingSpaces(s) == 1;
    assert !IsSpace(t[9]) && TrailingSpaces(t) == 0;
    assert u[..|u| - 1] == t;
    assert TrailingSpaces(u) == 1;
  }

  lemma NoCalendarCheckShape()
    ensures IsIsoShape("2023-13-45")
  {
    var t := "2023-13-45";
    assert t[..4] == "2023" && t[5..7] == "13" && t[8..] == "45";
  }

  /** An 8-digit value is cut into year, month and day digits unchanged. */
  lemma ParseDateCompact(s: string)
    requires IsCompactShape(Strip(s))
    ensures var t := Strip(s);
      ParseDate(Some(s)) == Some(t[..4] + "-" + t[4..6] + "-" + t[6..])
    ensures var t := Strip(s); var r := ParseDate(Some(s)).value;
      |r| == 10 && Year(r) == Value(t[..4]) && Month(r) == Value(t[4..6]) && Day(r) == Value(t[6..])
  {
    var t := Strip(s);
    assert !IsIsoShape(t);
    var r := t[..4] + "-" + t[4..6] + "-" + t[6..];
    assert r[..4] == t[..4] && r[5..7] == t[4..6] && r[8..] == t[6..];
  }

  /** Every result of `parse_date` is itself parsed to itself: cleaning a
      cleaned date changes nothing. */
  lemma ParseDateIdempotent(raw: Option<string>)
    ensures ParseDate(raw).Some? ==> ParseDate(ParseDate(raw)) == ParseDate(raw)
  {
    var r := ParseDate(raw);
    if r.Some? {
      IsoShapeIsStripped(r.value);
    }
  }

  lemma IsoShapeIsStripped(s: string)
    requires IsIsoShape(s)
    ensures Strip(s) == s
  {
    assert s[..4][0] == s[0] && s[8..][1] == s[9];
    assert IsDigit(s[0]) && IsDigit(s[9]);
    StripStripped(s);
  }

  lemma {:induction false} NoSpacesOfLower(w: string)
    requires NoSpaces(Lower(w))
    ensures NoSpaces(w)
  {
    forall i | 0 <= i < |w|
      ensures !IsSpace(w[i])
    {
      assert Lower(w)[i] == LowerChar(w[i]);
    }
  }

  /** Every month name is a single word of at least three letters. */
  lemma MonthNamesAreWords(m: nat)
    requires 1 <= m <= 12
    ensures |MonthNames[m - 1]| >= 3 && NoSpaces(MonthNames[m - 1])
  {
  }

  /** A month word is a word: no whitespace, at least three characters. */
  lemma MonthWord(mw: string)
    requires MonthNumber(mw) != 0
    ensures |mw| >= 3 && NoSpaces(mw)
  {
    MonthNamesAreWords(MonthNumber(mw));
    NoSpacesOfLower(mw);
  }

  /** The words of `"<day> - <month> - <year>"`. */
  lemma WordsOfDayMonthYear(dw: string, mw: string, yw: string)
    requires IsDayWord(dw) && MonthNumber(mw) != 0 && IsYearWord(yw)
    ensures Words(dw + " - " + mw + " - " + yw) == [dw, "-", mw, "-", yw]
  {
    MonthWord(mw);
    var ws := [dw, "-", mw, "-", yw];
    assert Spaced(ws) == dw + " - " + mw + " - " + yw by {
      assert Spaced(ws[3..]) == "-" + " " + yw;
      assert Spaced(ws[1..]) == "-" + " " + (mw + " " + ("-" + " " + yw));
    }
    assert forall i | 0 <= i < |ws| :: ws[i] != [] && NoSpaces(ws[i]);
    WordsOfSpaced(ws);
  }

  /** The textual form: for a day word, a month word and a year word, the
      value `"<day> - <month> - <year>"` yields the canonical form of that
      date when `datetime` accepts it and null when it does not. */
  lemma ParseDateDayMonthYear(dw: string, mw: string, yw: string)
    requires IsDayWord(dw) && MonthNumber(mw) != 0 && IsYearWord(yw)
    ensures var y, m, d := Value(yw), MonthNumber(mw), Value(dw);
      ParseDate(Some(dw + " - " + mw + " - " + yw))
        == if IsCalendarDate(y, m, d) then Some(Canonical(y, m, d)) else None
  {
    var t := dw + " - " + mw + " - " + yw;
    DayMonthYearIsStripped(dw, mw, yw);
    DayMonthYearTakesTextualBranch(dw, mw, yw);
    WordsOfDayMonthYear(dw, mw, yw);
    DayMonthYearOfWords(t, dw, mw, yw);
  }

  lemma DayMonthYearIsStripped(dw: string, mw: string, yw: string)
    requires IsDayWord(dw) && IsYearWord(yw)
    ensures var t := dw + " - " + mw + " - " + yw; Strip(t) == t
  {
    var t := dw + " - " + mw + " - " + yw;
    assert t[0] == dw[0] && t[|t| - 1] == yw[3];
    StripStripped(t);
  }

  lemma DayMonthYearTakesTextualBranch(dw: string, mw: string, yw: string)
    requires IsDayWord(dw) && MonthNumber(mw) != 0 && IsYearWord(yw)
    ensures var t := dw + " - " + mw + " - " + yw; ParseStripped(t) == ParseDayMonthYear(t)
  {
    var t := dw + " - " + mw + " - " + yw;
    MonthWord(mw);
    assert !IsIsoShape(t) && !IsCompactShape(t);
    assert t[|dw|..|dw| + 3] == " - ";
    assert OccursAt(t, " - ", |dw|);
  }

  lemma DayMonthYearOfWords(t: string, dw: string, mw: string, yw: string)
    requires IsDayWord(dw) && MonthNumber(mw) != 0 && IsYearWord(yw)
    requires Words(t) == [dw, "-", mw, "-", yw]
    ensures var y, m, d := Value(yw), MonthNumber(mw), Value(dw);
      ParseDayMonthYear(t) == if IsCalendarDate(y, m, d) then Some(Canonical(y, m, d)) else None
  {
  }

  /** For example, `"05 - November - 2023"` becomes `"2023-11-05"`. */
  lemma ParseDateExample()
    ensures ParseDate(Some("05 - November - 2023")) == Some("2023-11-05")
  {
    ExampleWords();
    ExampleSplit();
    ParseDateDayMonthYear("05", "November", "2023");
    ExampleCanonical();
  }

  lemma ExampleSplit()
    ensures "05 - November - 2023" == "05" + " - " + "November" + " - " + "2023"
  {
  }

  lemma ExampleWords()
    ensures Value("05") == 5 && Value("2023") == 2023 && MonthNumber("November") == 11
    ensures IsDayWord("05") && IsYearWord("2023")
  {
    assert Value("05") == 5 by { assert "05"[..1] == "0"; }
    assert Value("2023") == 2023 by {
      assert "2023"[..3] == "202" && "202"[..2] == "20" && "20"[..1] == "2";
    }
    assert Lower("November") == "november";
  }

  lemma ExampleCanonical()
    ensures Canonical(2023, 11, 5) == "2023-11-05"
  {
    PaddedYear();
    PaddedMonth();
    PaddedDay();
  }

  lemma PaddedYear()
    ensures Padded(2023, 4) == "2023"
  {
    assert Padded(202, 3) == "202";
  }

  lemma PaddedMonth()
    ensures Padded(11, 2) == "11"
  {
    assert Padded(1, 1) == "1";
  }

  lemma PaddedDay()
    ensures Padded(5, 2) == "05"
  {
    assert Padded(0, 1) == "0";
  }

  /** `strptime` refuses the 31st of February, so the value becomes null. */
  lemma ParseDateRejectsImpossibleDay()
    ensures ParseDate(Some("31 - February - 2023")) == None
  {
    ImpossibleDayWords();
    ImpossibleDaySplit();
    ParseDateDayMonthYear("31", "February", "2023");
  }

  lemma ImpossibleDaySplit()
    ensures "31 - February - 2023" == "31" + " - " + "February" + " - " + "2023"
  {
  }

  lemma ImpossibleDayWords()
    ensures Value("31") == 31 && Value("2023") == 2023 && MonthNumber("February") == 2
    ensures IsDayWord("31") && IsYearWord("2023")
    ensures !IsCalendarDate(2023, 2, 31)
  {
    assert Value("31") == 31 by { assert "31"[..1] == "3"; }
    assert Value("2023") == 2023 by {
      assert "2023"[..3] == "202" && "202"[..2] == "20" && "20"[..1] == "2";
    }
    assert Lower("February") == "february";
  }

  /** `"11/05/2023"`, in none of the three forms, becomes null. */
  lemma ParseDateUnrecognised()
    ensures ParseDate(Some("11/05/2023")) == None
  {
    var s := "11/05/2023";
    StripStripped(s);
    assert !IsIsoShape(s) by { assert s[4] == '5'; }
    UnrecognisedHasNoSeparator();
  }

  lemma UnrecognisedHasNoSeparator()
    ensures !Contains("11/05/2023", " - ")
  {
    var s := "11/05/2023";
    forall i | 0 <= i <= |s| - 3
      ensures !OccursAt(s, " - ", i)
    {
      assert s[i] != ' ';
    }
  }

  // ---------------------------------------------------------------------
  // SQLite's comparison of TEXT values (BINARY collation)

  /** `a < b` on text as SQLite compares it: code point by code point, a
      proper prefix first. */
  predicate LexLess(a: string, b: string) {
    if a == [] then b != []
    else if b == [] then false
    else if a[0] != b[0] then a[0] < b[0]
    else LexLess(a[1..], b[1..])
  }

  /** Calendar order of two canonical dates, field by field. */
  predicate ChronoBefore(a: string, b: string)
    requires IsIsoShape(a) && IsIsoShape(b)
  {
    Year(a) < Year(b)
    || (Year(a) == Year(b) && (Month(a) < Month(b) || (Month(a) == Month(b) && Day(a) < Day(b))))
  }

  lemma {:induction false} LexLessAppend(x: string, y: string, u: string, v: string)
    requires |x| == |y|
    ensures LexLess(x + u, y + v) <==> LexLess(x, y) || (x == y && LexLess(u, v))
  {
    if x == [] {
      assert x + u == u && y + v == v;
    } else {
      assert (x + u)[0] == x[0] && (y + v)[0] == y[0];
      assert (x + u)[1..] == x[1..] + u && (y + v)[1..] == y[1..] + v;
      LexLessAppend(x[1..], y[1..], u, v);
      if x[0] == y[0] {
        assert x == y <==> x[1..] == y[1..];
      }
    }
  }

  lemma {:induction false} LexTrichotomy(x: string, y: string)
    requires |x| == |y| && x != y
    ensures LexLess(x, y) || LexLess(y, x)
  {
    if x[0] == y[0] {
      assert x[1..] != y[1..];
      LexTrichotomy(x[1..], y[1..]);
    }
  }

  lemma LexLessIrreflexive(x: string)
    ensures !LexLess(x, x)
  {
  }

  /** For digit strings of one length, text order is numeric order. */
  lemma {:induction false} LexLessDigits(x: string, y: string)
    requires |x| == |y| && AllDigits(x) && AllDigits(y)
    ensures LexLess(x, y) <==> Value(x) < Value(y)
    decreases |x|
  {
    if x != [] {
      var n := |x| - 1;
      var x', y' := x[..n], y[..n];
      assert x == x' + [x[n]] && y == y' + [y[n]];
      LexLessAppend(x', y', [x[n]], [y[n]]);
      LexLessDigits(x', y');
      LexLessDigits(y', x');
      LexLessIrreflexive(x');
      if x' != y' {
        LexTrichotomy(x', y');
      }
      var c, e := DigitValue(x[n]), DigitValue(y[n]);
      assert Value(x) == Value(x') * 10 + c;
      assert Value(y) == Value(y') * 10 + e;
      assert x[n] < y[n] <==> c < e;
      if Value(x') < Value(y') {
        assert Value(x') * 10 + 10 <= Value(y') * 10;
      } else if Value(y') < Value(x') {
        assert Value(y') * 10 + 10 <= Value(x') * 10;
      }
    }
  }

  /** For canonical dates, the text comparison SQLite applies is calendar
      order. */
  lemma LexLessIsChronological(a: string, b: string)
    requires IsIsoShape(a) && IsIsoShape(b)
    ensures LexLess(a, b) <==> ChronoBefore(a, b)
  {
    assert a == a[..4] + (a[4..5] + (a[5..7] + (a[7..8] + a[8..])));
    assert b == b[..4] + (b[4..5] + (b[5..7] + (b[7..8] + b[8..])));
    LexLessAppend(a[..4], b[..4], a[4..], b[4..]);
    LexLessAppend(a[4..5], b[4..5], a[5..], b[5..]);
    LexLessAppend(a[5..7], b[5..7], a[7..], b[7..]);
    LexLessAppend(a[7..8], b[7..8], a[8..], b[8..]);
    assert a[4..] == a[4..5] + a[5..] && b[4..] == b[4..5] + b[5..];
    assert a[5..] == a[5..7] + a[7..] && b[5..] == b[5..7] + b[7..];
    assert a[7..] == a[7..8] + a[8..] && b[7..] == b[7..8] + b[8..];
    assert a[4..5] == b[4..5] && a[7..8] == b[7..8];
    LexLessIrreflexive(a[4..5]);
    LexLessIrreflexive(a[7..8]);
    LexLessDigits(a[..4], b[..4]);
    LexLessDigits(a[5..7], b[5..7]);
    LexLessDigits(a[8..], b[8..]);
    DigitsEqualIffValuesEqual(a[..4], b[..4]);
    DigitsEqualIffValuesEqual(a[5..7], b[5..7]);
  }

  lemma DigitsEqualIffValuesEqual(x: string, y: string)
    requires |x| == |y| && AllDigits(x) && AllDigits(y)
    ensures x == y <==> Value(x) == Value(y)
  {
    if x != y {
      LexTrichotomy(x, y);
      LexLessDigits(x, y);
      LexLessDigits(y, x);
    }
  }
}
