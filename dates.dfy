/**
 * The calendar day held by a JavaScript `Date`, as the form screens use it:
 * `formatDate` (dd/mm/yyyy), the reading of that text back into a `Date` when
 * a stored tutorial is loaded, and the `>` comparison of two dates.
 */
module Dates {
  import opened JsText

  /**
   * `Day` holds what `getFullYear()`, `getMonth()` and `getDate()` return;
   * the month is zero-based, as `getMonth()` returns it. `Invalid` is the
   * Invalid Date, whose getters all return NaN.
   */
  datatype Date = Day(year: int, month: int, day: int) | Invalid

  predicate IsLeapYear(y: int) {
    y % 4 == 0 && (y % 100 != 0 || y % 400 == 0)
  }

  function DaysInMonth(y: int, m: int): int
    requires 0 <= m < 12
  {
    if m == 1 then (if IsLeapYear(y) then 29 else 28)
    else if m == 3 || m == 5 || m == 8 || m == 10 then 30
    else 31
  }

  /** A day that a JavaScript `Date` can hold once its constructor has normalised it. */
  predicate IsCalendarDate(d: Date) {
    d.Day? && 0 <= d.month < 12 && 1 <= d.day <= DaysInMonth(d.year, d.month)
  }

  /** `formatDate(date)`: day and calendar month padded to two digits, then the year. */
  function FormatDate(d: Date): string {
    match d
    case Invalid => "NaN/NaN/NaN"
    case Day(year, month, day) =>
      PadStart2(IntToString(day)) + "/" + PadStart2(IntToString(month + 1)) + "/" + IntToString(year)
  }

  /** `s` reads as two digits of day, `/`, two digits of month, `/`, then the digits of the year. */
  predicate ReadsAs(s: string, day: nat, month: nat, year: nat) {
    && |s| >= 7 && s[2] == '/' && s[5] == '/'
    && NumeralOf(s[..2], day) && NumeralOf(s[3..5], month) && NumeralOf(s[6..], year)
  }

  /** `p` is a run of decimal digits whose value is `v`. */
  predicate NumeralOf(p: string, v: nat) {
    IsNumeral(p) && ParseDigits(p) == v
  }

  /** Three numerals joined by `/`, the first two of two digits, read back as their values. */
  lemma ReadsAsOfParts(dd: string, mm: string, yyyy: string)
    requires |dd| == 2 && |mm| == 2 && IsNumeral(dd) && IsNumeral(mm) && IsNumeral(yyyy)
    ensures ReadsAs(dd + "/" + mm + "/" + yyyy, ParseDigits(dd), ParseDigits(mm), ParseDigits(yyyy))
  {
    var head := dd + "/" + mm + "/";
    var s := head + yyyy;
    assert s[6..] == yyyy;
    assert s[..2] == dd by {
      assert s[..2] == head[..2];
    }
    assert s[3..5] == mm by {
      assert s[3..5] == head[3..5];
    }
    assert NumeralOf(dd, ParseDigits(dd)) && NumeralOf(mm, ParseDigits(mm)) && NumeralOf(yyyy, ParseDigits(yyyy));
  }

  /** The layout `formatDate` produces: `dd/mm/yyyy`, with the calendar month one more than `getMonth()`. */
  lemma FormatDateLayout(d: Date)
    requires d.Day? && 0 <= d.day < 100 && 0 <= d.month + 1 < 100 && d.year >= 0
    ensures ReadsAs(FormatDate(d), d.day, d.month + 1, d.year)
  {
    PadStart2OfSmall(d.day);
    PadStart2OfSmall(d.month + 1);
    ReadsAsOfParts(PadStart2(NatToString(d.day)), PadStart2(NatToString(d.month + 1)), NatToString(d.year));
  }

  /** The year the `Date` constructor uses: 0 to 99 stand for 1900 to 1999. */
  function FullYear(y: int): (full: int)
    ensures 0 <= y <= 99 ==> full == 1900 + y
    ensures !(0 <= y <= 99) ==> full == y
  {
    if 0 <= y <= 99 then 1900 + y else y
  }

  /**
   * Reading a stored `dd/mm/yyyy` back: `split('/')`, then
   * `new Date(ano, mes - 1, dia)`, which reads each part as `Number` does.
   * A missing part or one that is not a number gives the Invalid Date.
   */
  function ParseDate(s: string): Date {
    var parts := Split(s, '/');
    if |parts| < 3 then Invalid
    else
      var dia, mes, ano := StringToNumber(parts[0]), StringToNumber(parts[1]), StringToNumber(parts[2]);
      if dia.None? || mes.None? || ano.None? then Invalid
      else Day(FullYear(ano.value), mes.value - 1, dia.value)
  }

  lemma NoSlashInNumeral(p: string)
    requires AllDigits(p)
    ensures '/' !in p
  {
    assert forall i :: 0 <= i < |p| ==> p[i] != '/' by {
      forall i | 0 <= i < |p| ensures p[i] != '/' {
        assert IsDigit(p[i]);
      }
    }
  }

  lemma NoSlashInIntToString(n: int)
    ensures '/' !in IntToString(n)
  {
    var s := IntToString(n);
    if n >= 0 {
      NoSlashInNumeral(s);
    } else {
      forall i | 0 <= i < |s| ensures s[i] != '/' {
        if i > 0 {
          assert s[i] == s[1..][i - 1];
        }
      }
    }
  }

  /** Three parts without a slash, joined by slashes, split back into those three parts. */
  lemma SplitThree(a: string, b: string, c: string)
    requires '/' !in a && '/' !in b && '/' !in c
    ensures Split(a + "/" + b + "/" + c, '/') == [a, b, c]
  {
    assert a + "/" + b + "/" + c == a + ['/'] + (b + ['/'] + c);
    SplitAtSeparator(a, '/', b + ['/'] + c);
    SplitAtSeparator(b, '/', c);
    SplitWithoutSeparator(c, '/');
  }

  /** Text laid out as `dd/mm/yyyy` reads back as the date it describes, a two-digit year in the 1900s. */
  lemma ParseOfLayout(s: string, day: nat, month: nat, year: nat)
    requires ReadsAs(s, day, month, year)
    ensures ParseDate(s) == Day(FullYear(year), month - 1, day)
  {
    var a, b, c := s[..2], s[3..5], s[6..];
    assert s == a + "/" + b + "/" + c;
    NoSlashInNumeral(a);
    NoSlashInNumeral(b);
    NoSlashInNumeral(c);
    SplitThree(a, b, c);
    StringToNumberOfNumeral(a);
    StringToNumberOfNumeral(b);
    StringToNumberOfNumeral(c);
  }

  /**
   * `Number("NaN")` is NaN.
   * The text is a parameter fixed by the precondition rather than a literal
   * in the contract: the verifier unfolds functions applied to literals, and
   * with the literal in place this proof runs out of resources.
   */
  lemma NaNIsNotANumber(nan: string)
    requires nan == "NaN"
    ensures StringToNumber(nan).None?
  {
    TrimOfUnpadded(nan);
    assert !IsDigit(nan[0]);
  }

  /** A date whose day part is not a number is the Invalid Date. */
  lemma ParseOfNonNumber(a: string, b: string, c: string)
    requires '/' !in a && '/' !in b && '/' !in c
    requires StringToNumber(a).None?
    ensures ParseDate(a + "/" + b + "/" + c) == Invalid
  {
    SplitThree(a, b, c);
  }

  /**
   * The text `formatDate` gives the Invalid Date reads back as the Invalid Date.
   * The text is a parameter fixed by the precondition rather than a literal
   * in the contract: the verifier unfolds functions applied to literals, and
   * with the literal in place this proof runs out of resources.
   */
  lemma ParseOfNaN(nan: string)
    requires nan == "NaN"
    ensures FormatDate(Invalid) == nan + "/" + nan + "/" + nan
    ensures ParseDate(FormatDate(Invalid)) == Invalid
  {
    NaNIsNotANumber(nan);
    ParseOfNonNumber(nan, nan, nan);
  }

  /** A blank in front of a part is trimmed away before it is read. */
  lemma LeadingBlankIgnored(x: string)
    ensures StringToNumber(" " + x) == StringToNumber(x)
  {
    var p := " " + x;
    assert p[1..] == x;
    assert TrimStart(p) == TrimStart(x);
  }

  /** Blanks in front of the parts do not change the date read, as `Number` trims them. */
  lemma ParseIsLenient(a: string, b: string, c: string)
    requires '/' !in a && '/' !in b && '/' !in c
    ensures ParseDate(" " + a + "/ " + b + "/ " + c) == ParseDate(a + "/" + b + "/" + c)
  {
    var a', b', c' := " " + a, " " + b, " " + c;
    assert " " + a + "/ " + b + "/ " + c == a' + "/" + b' + "/" + c';
    assert '/' !in a' && '/' !in b' && '/' !in c';
    SplitThree(a', b', c');
    SplitThree(a, b, c);
    LeadingBlankIgnored(a);
    LeadingBlankIgnored(b);
    LeadingBlankIgnored(c);
  }

  /**
   * The dates whose `formatDate` text reads back as themselves: the Invalid
   * Date, and every calendar date outside the years 0 to 99 (which the
   * constructor reads as 1900 plus the year).
   */
  predicate Canonical(d: Date) {
    d.Invalid? || (IsCalendarDate(d) && !(0 <= d.year <= 99))
  }

  /** Formatting a date and reading it back gives the same date, negative years included. */
  lemma FormatParseRoundTrip(d: Date)
    requires Canonical(d)
    ensures ParseDate(FormatDate(d)) == d
  {
    if d.Day? {
      var a, b, c := PadStart2(IntToString(d.day)), PadStart2(IntToString(d.month + 1)), IntToString(d.year);
      PadStart2OfSmall(d.day);
      PadStart2OfSmall(d.month + 1);
      assert FormatDate(d) == a + "/" + b + "/" + c;
      NoSlashInNumeral(a);
      NoSlashInNumeral(b);
      NoSlashInIntToString(d.year);
      SplitThree(a, b, c);
      StringToNumberOfNumeral(a);
      StringToNumberOfNumeral(b);
      StringToNumberOfIntToString(d.year);
    } else {
      ParseOfNaN("NaN");
    }
  }

  /**
   * `formatDate` writes a negative year with its sign.
   * The date is a parameter fixed by the precondition rather than a literal
   * in the contract: the verifier unfolds functions applied to literals, and
   * with the literal in place this proof runs out of resources.
   */
  lemma NegativeYearText(d: Date)
    requires d == Day(-50, 0, 1)
    ensures FormatDate(d) == "01/01/-50"
  {
    assert NatToString(5) == "5";
    assert NatToString(50) == "50";
    assert IntToString(-50) == "-50";
    assert PadStart2(IntToString(1)) == "01";
  }

  /**
   * A negative year survives the round trip: `formatDate` writes its sign and `Number` reads it.
   * The date is a parameter fixed by the precondition rather than a literal
   * in the contract: the verifier unfolds functions applied to literals, and
   * with the literal in place this proof runs out of resources.
   */
  lemma NegativeYearRoundTrip(d: Date)
    requires d == Day(-50, 0, 1)
    ensures ParseDate("01/01/-50") == d
  {
    NegativeYearText(d);
    FormatParseRoundTrip(d);
  }

  /** `a > b` on two dates: later in (year, month, day) order; false when either is the Invalid Date. */
  predicate After(a: Date, b: Date) {
    && a.Day? && b.Day?
    && (|| a.year > b.year
        || (a.year == b.year && a.month > b.month)
        || (a.year == b.year && a.month == b.month && a.day > b.day))
  }

  /** `After` is a strict total order on days and never holds next to the Invalid Date. */
  lemma AfterIsStrictOrder(a: Date, b: Date, c: Date)
    ensures !After(a, a)
    ensures After(a, b) ==> !After(b, a)
    ensures After(a, b) && After(b, c) ==> After(a, c)
    ensures a.Day? && b.Day? && a != b ==> After(a, b) || After(b, a)
    ensures a.Invalid? || b.Invalid? ==> !After(a, b)
  {
  }
}
