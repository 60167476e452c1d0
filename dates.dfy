/**
 * Calendar dates as Python's `datetime` holds them (proleptic Gregorian, years 1..9999), the
 * day and month arithmetic `relativedelta` performs on them, and the date range a cost report
 * covers.
 */
module Dates {
  import opened Common
  import opened Strings

  datatype Date = Date(year: int, month: int, day: int)

  const MinYear := 1
  const MaxYear := 9999

  predicate IsLeapYear(y: int)
  {
    y % 4 == 0 && (y % 100 != 0 || y % 400 == 0)
  }

  function DaysInMonth(y: int, m: int): (n: int)
    requires 1 <= m <= 12
    ensures 28 <= n <= 31
  {
    if m == 2 then (if IsLeapYear(y) then 29 else 28)
    else if m == 4 || m == 6 || m == 9 || m == 11 then 30
    else 31
  }

  function DaysInYear(y: int): int
  {
    if IsLeapYear(y) then 366 else 365
  }

  predicate ValidDate(d: Date)
  {
    MinYear <= d.year <= MaxYear && 1 <= d.month <= 12 && 1 <= d.day <= DaysInMonth(d.year, d.month)
  }

  const FirstDate := Date(MinYear, 1, 1)
  const LastDate := Date(MaxYear, 12, 31)

  // ---------------------------------------------------------------- day numbers

  /** Days in the years before `y`, counting from year 1. */
  function DaysBeforeYear(y: int): nat
    requires y >= MinYear
  {
    if y == MinYear then 0 else DaysBeforeYear(y - 1) + DaysInYear(y - 1)
  }

  /** Days in the months of year `y` before month `m`. */
  function DaysBeforeMonth(y: int, m: int): nat
    requires 1 <= m <= 12
  {
    var common :=
      if m == 1 then 0 else if m == 2 then 31 else if m == 3 then 59 else if m == 4 then 90
      else if m == 5 then 120 else if m == 6 then 151 else if m == 7 then 181
      else if m == 8 then 212 else if m == 9 then 243 else if m == 10 then 273
      else if m == 11 then 304 else 334;
    common + (if m > 2 && IsLeapYear(y) then 1 else 0)
  }

  /** The first day of month m of year y, counted in days from 0001-01-01 (which is 0). */
  function MonthStart(y: int, m: int): nat
    requires y >= MinYear && 1 <= m <= 12
  {
    DaysBeforeYear(y) + DaysBeforeMonth(y, m)
  }

  /** Days from 0001-01-01 to `d`: Python's `d.toordinal() - 1`. */
  function DayNumber(d: Date): nat
    requires ValidDate(d)
  {
    MonthStart(d.year, d.month) + d.day - 1
  }

  lemma MonthsFollowEachOther(y: int, m: int)
    requires y >= MinYear && 1 <= m <= 12
    ensures m < 12 ==> MonthStart(y, m + 1) == MonthStart(y, m) + DaysInMonth(y, m)
    ensures m == 12 ==> MonthStart(y + 1, 1) == MonthStart(y, m) + DaysInMonth(y, m)
  {
  }

  /** Month index counting months from January of year 0: `year * 12 + month - 1`. */
  function MonthIndex(y: int, m: int): int
  {
    y * 12 + m - 1
  }

  /** Month starts grow with the month index. */
  lemma {:induction false} MonthStartMonotone(y1: int, m1: int, y2: int, m2: int)
    requires y1 >= MinYear && 1 <= m1 <= 12 && y2 >= MinYear && 1 <= m2 <= 12
    requires MonthIndex(y1, m1) < MonthIndex(y2, m2)
    ensures MonthStart(y1, m1) + DaysInMonth(y1, m1) <= MonthStart(y2, m2)
    decreases MonthIndex(y2, m2) - MonthIndex(y1, m1)
  {
    MonthsFollowEachOther(y1, m1);
    var (y, m) := if m1 < 12 then (y1, m1 + 1) else (y1 + 1, 1);
    if MonthIndex(y, m) < MonthIndex(y2, m2) {
      MonthStartMonotone(y, m, y2, m2);
    } else {
      assert y == y2 && m == m2;
    }
  }

  /** Every valid date lies in [0, DayNumber(LastDate)]. */
  lemma DayNumberAtMostLast(d: Date)
    requires ValidDate(d)
    ensures DayNumber(d) <= DayNumber(LastDate)
  {
    if MonthIndex(d.year, d.month) < MonthIndex(MaxYear, 12) {
      MonthStartMonotone(d.year, d.month, MaxYear, 12);
    }
  }

  // ---------------------------------------------------------------- timedelta(days=±1)

  function NextDay(d: Date): (r: Option<Date>)
    requires ValidDate(d)
    ensures r.Some? ==> ValidDate(r.value) && DayNumber(r.value) == DayNumber(d) + 1
    ensures r.None? <==> d == LastDate
  {
    if d.day < DaysInMonth(d.year, d.month) then Some(Date(d.year, d.month, d.day + 1))
    else if d.month < 12 then
      MonthsFollowEachOther(d.year, d.month);
      Some(Date(d.year, d.month + 1, 1))
    else if d.year < MaxYear then
      MonthsFollowEachOther(d.year, d.month);
      Some(Date(d.year + 1, 1, 1))
    else None
  }

  function PreviousDay(d: Date): (r: Option<Date>)
    requires ValidDate(d)
    ensures r.Some? ==> ValidDate(r.value) && DayNumber(r.value) + 1 == DayNumber(d)
    ensures r.None? <==> d == FirstDate
  {
    if d.day > 1 then Some(Date(d.year, d.month, d.day - 1))
    else if d.month > 1 then
      MonthsFollowEachOther(d.year, d.month - 1);
      Some(Date(d.year, d.month - 1, DaysInMonth(d.year, d.month - 1)))
    else if d.year > MinYear then
      MonthsFollowEachOther(d.year - 1, 12);
      Some(Date(d.year - 1, 12, 31))
    else None
  }

  /**
   * `d + relativedelta(days=k)`: k days later (earlier for negative k), or None where Python
   * raises OverflowError because the result leaves years 1..9999.
   */
  function AddDays(d: Date, k: int): (r: Option<Date>)
    requires ValidDate(d)
    ensures r.Some? ==> ValidDate(r.value) && DayNumber(r.value) == DayNumber(d) + k
    decreases if k < 0 then -k else k
  {
    if k == 0 then Some(d)
    else if k > 0 then
      match NextDay(d)
      case None => None
      case Some(n) => AddDays(n, k - 1)
    else
      match PreviousDay(d)
      case None => None
      case Some(p) => AddDays(p, k + 1)
  }

  /** AddDays fails exactly when the target day number lies outside years 1..9999. */
  lemma {:induction false} AddDaysFailsOnlyOutOfRange(d: Date, k: int)
    requires ValidDate(d)
    ensures AddDays(d, k).None? <==> !(0 <= DayNumber(d) + k <= DayNumber(LastDate))
    decreases if k < 0 then -k else k
  {
    if k == 0 {
      DayNumberAtMostLast(d);
    } else if k > 0 {
      match NextDay(d)
      case None => {
        assert d == LastDate && AddDays(d, k) == None;
      }
      case Some(n) => {
        assert AddDays(d, k) == AddDays(n, k - 1);
        AddDaysFailsOnlyOutOfRange(n, k - 1);
      }
    } else {
      match PreviousDay(d)
      case None => {
        assert d == FirstDate && DayNumber(d) == 0 && AddDays(d, k) == None;
      }
      case Some(p) => {
        assert AddDays(d, k) == AddDays(p, k + 1);
        AddDaysFailsOnlyOutOfRange(p, k + 1);
      }
    }
  }

  // ---------------------------------------------------------------- relativedelta(months=k) on a 1st

  /**
   * The 1st of the month k months before month m of year y, or None where Python raises
   * ValueError because the year leaves 1..9999.
   */
  function FirstOfMonthsBefore(y: int, m: int, k: int): (r: Option<Date>)
    ensures r.Some? ==> ValidDate(r.value) && r.value.day == 1
    ensures r.Some? ==> MonthIndex(r.value.year, r.value.month) == MonthIndex(y, m) - k
    ensures r.None? <==> !(MinYear <= (MonthIndex(y, m) - k) / 12 <= MaxYear)
  {
    var index := MonthIndex(y, m) - k;
    var year, month := index / 12, index % 12 + 1;
    if MinYear <= year <= MaxYear then Some(Date(year, month, 1)) else None
  }

  // ---------------------------------------------------------------- the report's date range

  /** The cost-related command-line options: `--days`, `--months`, `--ignore-service-usage`. */
  datatype CostOptions = CostOptions(days: Option<int>, months: int, ignoreServiceUsage: bool)

  /** `if opts.days:` -- None and 0 are falsy and select month mode. */
  predicate DaysMode(opts: CostOptions)
  {
    opts.days.Some? && opts.days.value != 0
  }

  /** The TimePeriod of every billing request: Start is inclusive, End is today. */
  datatype DateRange = DateRange(start: Date, end: Date)

  /** The head of `get_costs`: the start and end dates for the report, given today's date. */
  function ResolveRange(opts: CostOptions, today: Date): (r: Result<DateRange>)
    requires ValidDate(today)
    ensures r.Success? ==> ValidDate(r.value.start) && r.value.end == today
    ensures r.Failure? ==> r.error == DateOutOfRange
  {
    var start :=
      if DaysMode(opts) then AddDays(today, -opts.days.value)
      else if opts.months > 1 then FirstOfMonthsBefore(today.year, today.month, opts.months - 1)
      else if today.day == 1 then FirstOfMonthsBefore(today.year, today.month, 1)
      else Some(Date(today.year, today.month, 1));
    match start
    case None => Failure(DateOutOfRange)
    case Some(s) => Success(DateRange(s, today))
  }

  /** Days mode: start is exactly `days` days before today, and fails only outside 1..9999. */
  lemma DaysModeRange(opts: CostOptions, today: Date)
    requires ValidDate(today) && DaysMode(opts)
    ensures var r := ResolveRange(opts, today);
      && (r.Success? ==> DayNumber(r.value.start) == DayNumber(today) - opts.days.value)
      && (r.Failure? <==> !(0 <= DayNumber(today) - opts.days.value <= DayNumber(LastDate)))
  {
    AddDaysFailsOnlyOutOfRange(today, -opts.days.value);
  }

  /** Number of months month mode steps back from the current month. */
  function MonthsBack(opts: CostOptions, today: Date): nat
  {
    if opts.months > 1 then opts.months - 1 else if today.day == 1 then 1 else 0
  }

  /**
   * Month mode: start is the 1st of the month MonthsBack months before today's month --
   * months - 1 back for months > 1; otherwise the current month, or the previous one when
   * today is the 1st -- and it is strictly before today.
   */
  lemma {:induction false} MonthModeRange(opts: CostOptions, today: Date)
    requires ValidDate(today) && !DaysMode(opts)
    ensures var r := ResolveRange(opts, today);
      && (r.Success? ==> r.value.start.day == 1)
      && (r.Success? ==> MonthIndex(r.value.start.year, r.value.start.month)
                         == MonthIndex(today.year, today.month) - MonthsBack(opts, today))
      && (r.Success? ==> DayNumber(r.value.start) < DayNumber(today))
      && (r.Failure? ==> opts.months > 1 || today == FirstDate)
  {
    var r := ResolveRange(opts, today);
    if r.Success? {
      var s := r.value.start;
      if MonthsBack(opts, today) > 0 {
        MonthStartMonotone(s.year, s.month, today.year, today.month);
      }
    } else if opts.months <= 1 {
      assert today.day == 1;
      assert (MonthIndex(today.year, today.month) - 1) / 12 < MinYear;
    }
  }

  // ---------------------------------------------------------------- strftime and strptime

  /**
   * `d.strftime("%Y-%m-%d")`: month and day as two digits; the C library prints the year
   * without padding.
   */
  function FormatIsoDate(d: Date): (s: string)
    requires ValidDate(d)
  {
    NatToString(d.year) + "-" + PadDigits(d.month, 2) + "-" + PadDigits(d.day, 2)
  }

  /** The forms `strptime` accepts for `%m`: 1[0-2] | 0[1-9] | [1-9]. */
  predicate MonthField(t: string)
  {
    || (|t| == 1 && '1' <= t[0] <= '9')
    || (|t| == 2 && t[0] == '0' && '1' <= t[1] <= '9')
    || (|t| == 2 && t[0] == '1' && '0' <= t[1] <= '2')
  }

  /** The forms `strptime` accepts for `%d`: 3[01] | [12][0-9] | 0[1-9] | [1-9] | a space and [1-9]. */
  predicate DayField(t: string)
  {
    || (|t| == 1 && '1' <= t[0] <= '9')
    || (|t| == 2 && t[0] == ' ' && '1' <= t[1] <= '9')
    || (|t| == 2 && t[0] == '0' && '1' <= t[1] <= '9')
    || (|t| == 2 && (t[0] == '1' || t[0] == '2') && IsDigit(t[1]))
    || (|t| == 2 && t[0] == '3' && (t[1] == '0' || t[1] == '1'))
  }

  function FieldValue(t: string): nat
    requires MonthField(t) || DayField(t)
  {
    if t[0] == ' ' then DigitValue(t[1]) else DigitsValue(t)
  }

  /**
   * `datetime.strptime(s, "%Y-%m-%d")`: four digits, '-', a month field, '-', a day field, and
   * nothing after; the fields must name a real date. Anything else raises ValueError.
   */
  function ParseIsoDate(s: string): (r: Result<Date>)
    ensures r.Success? ==> ValidDate(r.value)
    ensures r.Failure? ==> r.error == MalformedDate(s)
  {
    if |s| < 5 || !AllDigits(s[..4]) || s[4] != '-' then Failure(MalformedDate(s))
    else
      var rest := s[5..];
      var dash := IndexOf(rest, '-');
      if dash == |rest| then Failure(MalformedDate(s))
      else
        var month, day := rest[..dash], rest[dash + 1..];
        if !MonthField(month) || !DayField(day) then Failure(MalformedDate(s))
        else
          var d := Date(DigitsValue(s[..4]), FieldValue(month), FieldValue(day));
          if ValidDate(d) then Success(d) else Failure(MalformedDate(s))
  }

  /** A text made of a year, a month field and a day field parses to the date they spell. */
  lemma ParseIsoDateParts(year: string, month: string, day: string)
    requires |year| == 4 && AllDigits(year) && MonthField(month) && DayField(day)
    ensures var d := Date(DigitsValue(year), FieldValue(month), FieldValue(day));
      ParseIsoDate(year + "-" + month + "-" + day)
        == if ValidDate(d) then Success(d) else Failure(MalformedDate(year + "-" + month + "-" + day))
  {
    var s := year + "-" + month + "-" + day;
    assert s[..4] == year && s[4] == '-';
    var rest := s[5..];
    assert rest == month + "-" + day;
    IndexOfIs(rest, '-', |month|);
    assert rest[..|month|] == month && rest[|month| + 1..] == day;
  }

  lemma TwoDigits(n: nat)
    requires n < 100
    ensures PadDigits(n, 2) == [DigitChar(n / 10), DigitChar(n % 10)]
    ensures DigitsValue(PadDigits(n, 2)) == n
  {
    PadDigitsRoundTrip(n, 2);
    var tens := n / 10;
    assert tens < 10 && tens % 10 == tens && tens / 10 == 0;
    assert PadDigits(tens, 1) == PadDigits(0, 0) + [DigitChar(tens)];
    assert PadDigits(n, 2) == PadDigits(tens, 1) + [DigitChar(n % 10)];
  }

  /** strftime's two-digit month and day are forms strptime reads back. */
  lemma TwoDigitFields(d: Date)
    requires ValidDate(d)
    ensures MonthField(PadDigits(d.month, 2)) && FieldValue(PadDigits(d.month, 2)) == d.month
    ensures DayField(PadDigits(d.day, 2)) && FieldValue(PadDigits(d.day, 2)) == d.day
  {
    TwoDigits(d.month);
    TwoDigits(d.day);
  }

  /** strptime reads back what strftime printed, for four-digit years. */
  lemma ParseFormatIsoDate(d: Date)
    requires ValidDate(d) && d.year >= 1000
    ensures ParseIsoDate(FormatIsoDate(d)) == Success(d)
  {
    NatToStringFixedWidth(d.year, 4);
    PadDigitsRoundTrip(d.year, 4);
    TwoDigitFields(d);
    ParseIsoDateParts(NatToString(d.year), PadDigits(d.month, 2), PadDigits(d.day, 2));
  }

  lemma YearDigits()
    ensures DigitsValue("2024") == 2024 && DigitsValue("2023") == 2023
  {
    assert "2024"[..3] == "202" && "2023"[..3] == "202" && "202"[..2] == "20" && "20"[..1] == "2";
    assert DigitsValue("2") == 2 && DigitsValue("20") == 20 && DigitsValue("202") == 202;
  }

  lemma FieldDigits()
    ensures FieldValue("2") == 2 && FieldValue("02") == 2 && FieldValue("29") == 29 && FieldValue(" 9") == 9
  {
    assert "29"[..1] == "2" && "02"[..1] == "0";
    assert DigitsValue("2") == 2 && DigitsValue("0") == 0;
  }

  /** strptime also takes a one-digit month ... */
  lemma OneDigitMonth()
    ensures ParseIsoDate("2024-2-29") == Success(Date(2024, 2, 29))
  {
    YearDigits();
    FieldDigits();
    assert ValidDate(Date(2024, 2, 29));
    ParseIsoDateParts("2024", "2", "29");
    assert "2024" + "-" + "2" + "-" + "29" == "2024-2-29";
  }

  /** ... and a day padded with a space. */
  lemma SpacePaddedDay()
    ensures ParseIsoDate("2024-02- 9") == Success(Date(2024, 2, 9))
  {
    YearDigits();
    FieldDigits();
    ParseIsoDateParts("2024", "02", " 9");
    assert "2024" + "-" + "02" + "-" + " 9" == "2024-02- 9";
  }

  /** strptime checks the calendar: there is no 29 February in 2023. */
  lemma CalendarChecked()
    ensures ParseIsoDate("2023-02-29") == Failure(MalformedDate("2023-02-29"))
  {
    YearDigits();
    FieldDigits();
    assert !ValidDate(Date(2023, 2, 29)) by {
      assert !IsLeapYear(2023) && DaysInMonth(2023, 2) == 28;
    }
    ParseIsoDateParts("2023", "02", "29");
    assert "2023" + "-" + "02" + "-" + "29" == "2023-02-29";
  }

  const MonthNames: seq<string> := ["January", "February", "March", "April", "May", "June",
    "July", "August", "September", "October", "November", "December"]

  /** `d.strftime("%B %Y")` in the C locale. */
  function MonthYearLabel(d: Date): (s: string)
    requires ValidDate(d)
  {
    MonthNames[d.month - 1] + " " + NatToString(d.year)
  }

  /** The month a full English month name stands for (what `%B` reads back), 0 for none. */
  function MonthOfName(name: string): int
  {
    if name == "January" then 1 else if name == "February" then 2 else if name == "March" then 3
    else if name == "April" then 4 else if name == "May" then 5 else if name == "June" then 6
    else if name == "July" then 7 else if name == "August" then 8 else if name == "September" then 9
    else if name == "October" then 10 else if name == "November" then 11
    else if name == "December" then 12 else 0
  }

  lemma MonthNameFacts(m: int)
    requires 1 <= m <= 12
    ensures MonthOfName(MonthNames[m - 1]) == m
    ensures IndexOf(MonthNames[m - 1] + [' '], ' ') == |MonthNames[m - 1]|
  {
    var name := MonthNames[m - 1];
    IndexOfIs(name + [' '], ' ', |name|);
  }

  /** Different months get different labels. */
  lemma MonthYearLabelInjective(d1: Date, d2: Date)
    requires ValidDate(d1) && ValidDate(d2)
    requires MonthYearLabel(d1) == MonthYearLabel(d2)
    ensures d1.year == d2.year && d1.month == d2.month
  {
    var n1, n2 := MonthNames[d1.month - 1], MonthNames[d2.month - 1];
    var y1, y2 := NatToString(d1.year), NatToString(d2.year);
    MonthNameFacts(d1.month);
    MonthNameFacts(d2.month);
    assert n1 + [' '] + y1 == n2 + [' '] + y2;
    SplitAtFirst(n1, y1, n2, y2, ' ');
    if d1.year != d2.year {
      NatToStringInjective(d1.year, d2.year);
    }
  }
}
