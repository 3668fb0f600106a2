/** The weekday feature (cpp-bidder/src/feature_store.cpp) against the calendar: days counted one by one in the
    proleptic Gregorian calendar (section 3.2.1 of ISO 8601:2004). */
module Weekdays {
  import opened Arithmetic

  // ---------- the program's formula ----------

  /** Division of the implementation language: towards zero, with the remainder of the dividend's sign. */
  function Quotient(a: int, b: int): int
    requires b > 0
  {
    if a >= 0 then a / b else -(-a / b)
  }

  function Remainder(a: int, b: int): int
    requires b > 0
  {
    a - b * Quotient(a, b)
  }

  const MONTH_OFFSETS: seq<int> := [0, 3, 2, 5, 0, 3, 5, 1, 4, 6, 2, 4]

  /** Monday is 0. A month or day out of range answers 0 as well. */
  function WeekdayMonday0(y: int, m: int, d: int): int {
    if m < 1 || m > 12 || d < 1 then 0
    else
      var yy := if m < 3 then y - 1 else y;
      var leaps := Quotient(yy, 4) - Quotient(yy, 100) + Quotient(yy, 400);
      var sakamoto := Remainder(yy + leaps + MONTH_OFFSETS[m - 1] + d, 7);
      Remainder(sakamoto + 6, 7)
  }

  /** The year, month and day digits of a YYYYMMDDHHmmss timestamp. */
  function YearOf(ts: int): int {
    Quotient(Quotient(ts, 1_000_000), 10_000)
  }

  function MonthOf(ts: int): int {
    Remainder(Quotient(Quotient(ts, 1_000_000), 100), 100)
  }

  function DayOf(ts: int): int {
    Remainder(Quotient(ts, 1_000_000), 100)
  }

  /** The feature computed for a request. */
  function Weekday(ts: int): int {
    WeekdayMonday0(YearOf(ts), MonthOf(ts), DayOf(ts))
  }

  // ---------- the calendar ----------

  predicate IsLeap(y: nat) {
    y % 4 == 0 && (y % 100 != 0 || y % 400 == 0)
  }

  function YearLength(y: nat): nat {
    if IsLeap(y) then 366 else 365
  }

  function MonthLength(y: nat, m: nat): nat
    requires 1 <= m <= 12
  {
    if m == 2 then (if IsLeap(y) then 29 else 28)
    else if m == 4 || m == 6 || m == 9 || m == 11 then 30
    else 31
  }

  datatype Date = Date(year: nat, month: nat, day: nat)

  predicate IsDate(a: Date) {
    1 <= a.month <= 12 && 1 <= a.day <= MonthLength(a.year, a.month)
  }

  /** Counted from the first of January of year 1; year 0 lies before it. */
  function DaysBeforeYear(y: nat): int {
    if y == 0 then 0 - YearLength(0) else DaysBeforeYear(y - 1) + YearLength(y - 1)
  }

  function DaysBeforeMonth(y: nat, m: nat): nat
    requires 1 <= m <= 12
  {
    if m == 1 then 0 else DaysBeforeMonth(y, m - 1) + MonthLength(y, m - 1)
  }

  /** Days since the first of January of year 1. */
  function DayNumber(a: Date): int
    requires IsDate(a)
  {
    DaysBeforeYear(a.year) + DaysBeforeMonth(a.year, a.month) + a.day - 1
  }

  /** The following day. */
  function Tomorrow(a: Date): (b: Date)
    requires IsDate(a)
    ensures IsDate(b)
  {
    if a.day < MonthLength(a.year, a.month) then a.(day := a.day + 1)
    else if a.month < 12 then Date(a.year, a.month + 1, 1)
    else Date(a.year + 1, 1, 1)
  }

  // ---------- proofs ----------

  function Leaps(y: nat): int {
    y / 4 - y / 100 + y / 400
  }

  lemma LeapsStep(y: nat)
    requires y >= 1
    ensures Leaps(y) == Leaps(y - 1) + if IsLeap(y) then 1 else 0
  {
    assert y / 4 == (y - 1) / 4 + if y % 4 == 0 then 1 else 0;
    assert y / 100 == (y - 1) / 100 + if y % 100 == 0 then 1 else 0;
    assert y / 400 == (y - 1) / 400 + if y % 400 == 0 then 1 else 0;
    Divisors(y);
  }

  lemma Divisors(y: nat)
    ensures y % 100 == 0 ==> y % 4 == 0
    ensures y % 400 == 0 ==> y % 100 == 0
  {
    if y % 100 == 0 {
      DivisionIsUnique(y, 4, 25 * (y / 100), 0);
    }
    if y % 400 == 0 {
      DivisionIsUnique(y, 100, 4 * (y / 400), 0);
    }
  }

  lemma {:induction false} YearsInClosedForm(y: nat)
    requires y >= 1
    ensures DaysBeforeYear(y) == 365 * (y - 1) + Leaps(y - 1)
  {
    if y > 1 {
      YearsInClosedForm(y - 1);
      LeapsStep(y - 1);
    }
  }

  function CommonMonthStart(m: nat): nat
    requires 1 <= m <= 12
  {
    [0, 31, 59, 90, 120, 151, 181, 212, 243, 273, 304, 334][m - 1]
  }

  lemma {:induction false} MonthsInClosedForm(y: nat, m: nat)
    requires 1 <= m <= 12
    ensures DaysBeforeMonth(y, m) == CommonMonthStart(m) + if m > 2 && IsLeap(y) then 1 else 0
  {
    if m > 1 {
      MonthsInClosedForm(y, m - 1);
    }
  }

  lemma OffsetsMatchTheMonths(m: nat)
    requires 1 <= m <= 12
    ensures (CommonMonthStart(m) - MONTH_OFFSETS[m - 1]) % 7 == if m < 3 then 0 else 1
  {
  }

  lemma SameRemainder(a: int, b: int, k: int)
    requires a == b + 7 * k
    ensures a % 7 == b % 7
  {
  }

  lemma CountFromYearOne(a: Date)
    requires IsDate(a) && a.year >= 1
    ensures WeekdayMonday0(a.year, a.month, a.day) == DayNumber(a) % 7
  {
    var y, m, d := a.year, a.month, a.day;
    var yy, offset := if m < 3 then y - 1 else y, MONTH_OFFSETS[m - 1];
    YearsInClosedForm(y);
    MonthsInClosedForm(y, m);
    OffsetsMatchTheMonths(m);
    LeapsStep(y);
    FormulaInClosedForm(y, m, d);
    hide WeekdayMonday0, DaysBeforeYear, DaysBeforeMonth, CommonMonthStart, Leaps, IsLeap, MonthLength;
    var q := (CommonMonthStart(m) - offset) / 7;
    SameRemainder(DayNumber(a), yy + Leaps(yy) + offset + d + 6, 52 * (if m < 3 then yy else y - 1) + q - 1);
  }

  lemma CountInYearZero(a: Date)
    requires IsDate(a) && a.year == 0
    ensures WeekdayMonday0(0, a.month, a.day) == (DayNumber(a) + if a.month < 3 then 1 else 0) % 7
  {
    hide WeekdayMonday0, DaysBeforeYear, DaysBeforeMonth, CommonMonthStart, MonthLength, Leaps;
    var m, d, offset := a.month, a.day, MONTH_OFFSETS[a.month - 1];
    YearZero();
    MonthsInClosedForm(0, m);
    OffsetsMatchTheMonths(m);
    var q := (CommonMonthStart(m) - offset) / 7;
    if m < 3 {
      JanuaryAndFebruaryOfYearZero(m, d);
      SameRemainder(DayNumber(a) + 1, offset + d + 5, q - 53);
    } else {
      FormulaInClosedForm(0, m, d);
      SameRemainder(DayNumber(a), offset + d + 6, q - 53);
    }
  }

  lemma YearZero()
    ensures DaysBeforeYear(0) == -366 && Leaps(0) == 0 && IsLeap(0)
  {
  }

  lemma JanuaryAndFebruaryOfYearZero(m: nat, d: nat)
    requires 1 <= m < 3 && d >= 1
    ensures WeekdayMonday0(0, m, d) == (MONTH_OFFSETS[m - 1] + d + 5) % 7
  {
    assert Quotient(-1, 4) == 0 && Quotient(-1, 100) == 0 && Quotient(-1, 400) == 0;
    assert 0 <= MONTH_OFFSETS[m - 1];
    hide Quotient, Remainder;
    TwoRemainders(MONTH_OFFSETS[m - 1] + d - 1);
  }

  /** The formula is the calendar exactly from March of year 0 on: for every date it gives the weekday reached by
      counting days from the first of January of year 1, a Monday, unless the date is in January or February of
      year 0, where the truncated -1 / 4 loses the leap day. */
  lemma FormulaCountsDaysExactlyIf(a: Date)
    requires IsDate(a)
    ensures WeekdayMonday0(a.year, a.month, a.day) == DayNumber(a) % 7 <==> a.year >= 1 || a.month >= 3
  {
    hide WeekdayMonday0, DayNumber, MonthLength;
    if a.year >= 1 {
      CountFromYearOne(a);
    } else {
      CountInYearZero(a);
      NextRemainder(DayNumber(a));
    }
  }

  lemma NextRemainder(n: int)
    ensures (n + 1) % 7 != n % 7
    ensures (n + 1) % 7 == (n % 7 + 1) % 7
  {
    SameRemainder(n + 1, n % 7 + 1, n / 7);
  }

  lemma ShiftedRemainder(t: nat, k: nat)
    ensures Remainder(t, 7) == t % 7
    ensures (t % 7 + k) % 7 == (t + k) % 7
  {
    SameRemainder(t + k, t % 7 + k, t / 7);
  }

  lemma TwoRemainders(t: nat)
    ensures Remainder(Remainder(t, 7) + 6, 7) == (t + 6) % 7
  {
    ShiftedRemainder(t, 6);
    ShiftedRemainder(t % 7 + 6, 0);
    hide Remainder;
  }

  lemma QuotientsAreLeaps(yy: nat)
    ensures Quotient(yy, 4) - Quotient(yy, 100) + Quotient(yy, 400) == Leaps(yy) >= 0
  {
  }

  lemma FormulaInClosedForm(y: nat, m: nat, d: nat)
    requires 1 <= m <= 12 && d >= 1 && (y >= 1 || m >= 3)
    ensures var yy := if m < 3 then y - 1 else y;
            WeekdayMonday0(y, m, d) == (yy + Leaps(yy) + MONTH_OFFSETS[m - 1] + d + 6) % 7
  {
    hide Quotient, Remainder, Leaps;
    var yy, offset := if m < 3 then y - 1 else y, MONTH_OFFSETS[m - 1];
    QuotientsAreLeaps(yy);
    assert 0 <= offset;
    TwoRemainders(yy + Leaps(yy) + offset + d);
  }

  lemma {:induction false} TomorrowIsOneMore(a: Date)
    requires IsDate(a)
    ensures DayNumber(Tomorrow(a)) == DayNumber(a) + 1
  {
    MonthsInClosedForm(a.year, 12);
  }

  /** So across month ends, leap days and century years the weekday moves on by one, except over the one seam from
      February to March of year 0. */
  lemma WeekdayAdvancesExactlyIf(a: Date)
    requires IsDate(a)
    ensures var b := Tomorrow(a);
            WeekdayMonday0(b.year, b.month, b.day) == (WeekdayMonday0(a.year, a.month, a.day) + 1) % 7
            <==> a != Date(0, 2, 29)
  {
    var b, n := Tomorrow(a), DayNumber(a);
    TomorrowIsOneMore(a);
    SeamIsInYearZero(a);
    hide WeekdayMonday0, DayNumber, Tomorrow, MonthLength;
    FormulaAgainstTheCount(a);
    FormulaAgainstTheCount(b);
    ShiftsAgree(n, if BeforeMarchOfYearZero(a) then 1 else 0, if BeforeMarchOfYearZero(b) then 1 else 0);
    hide BeforeMarchOfYearZero;
  }

  lemma ShiftsAgree(n: int, s: nat, t: nat)
    requires s <= 1 && t <= s
    ensures (n + 1 + t) % 7 == ((n + s) % 7 + 1) % 7 <==> s == t
  {
    NextRemainder(n + s);
    NextRemainder(n + 1);
  }

  predicate BeforeMarchOfYearZero(a: Date) {
    a.year == 0 && a.month < 3
  }

  lemma FormulaAgainstTheCount(a: Date)
    requires IsDate(a)
    ensures WeekdayMonday0(a.year, a.month, a.day) == (DayNumber(a) + if BeforeMarchOfYearZero(a) then 1 else 0) % 7
  {
    hide WeekdayMonday0, DayNumber, MonthLength;
    if a.year >= 1 {
      CountFromYearOne(a);
    } else {
      CountInYearZero(a);
    }
  }

  lemma SeamIsInYearZero(a: Date)
    requires IsDate(a)
    ensures BeforeMarchOfYearZero(a) && !BeforeMarchOfYearZero(Tomorrow(a)) <==> a == Date(0, 2, 29)
    ensures !BeforeMarchOfYearZero(a) ==> !BeforeMarchOfYearZero(Tomorrow(a))
  {
  }

  /** The count is anchored where the standard's is: the first of January 2000 is a Saturday. */
  lemma FirstOfJanuary2000IsASaturday()
    ensures DayNumber(Date(2000, 1, 1)) % 7 == 5
  {
    hide DaysBeforeYear, DaysBeforeMonth;
    YearsInClosedForm(2000);
    MonthsInClosedForm(2000, 1);
  }

  // ---------- timestamps ----------

  /** The timestamp of a date, with any time-of-day digits. */
  function Stamp(a: Date, time: nat): nat
    requires time < 1_000_000
  {
    ((a.year * 100 + a.month) * 100 + a.day) * 1_000_000 + time
  }

  lemma StampsDecode(a: Date, time: nat)
    requires IsDate(a) && time < 1_000_000
    ensures var ts := Stamp(a, time); YearOf(ts) == a.year && MonthOf(ts) == a.month && DayOf(ts) == a.day
  {
    var date := (a.year * 100 + a.month) * 100 + a.day;
    DivisionIsUnique(Stamp(a, time), 1_000_000, date, time);
    DivisionIsUnique(date, 100, a.year * 100 + a.month, a.day);
    DivisionIsUnique(a.year * 100 + a.month, 100, a.year, a.month);
    DivisionIsUnique(date, 10_000, a.year, a.month * 100 + a.day);
  }

  /** The feature of every timestamp that denotes a date is the calendar's weekday, unless the date is in January or
      February of year 0. */
  lemma TimestampsCountDaysExactlyIf(a: Date, time: nat)
    requires IsDate(a) && time < 1_000_000
    ensures Weekday(Stamp(a, time)) == DayNumber(a) % 7 <==> a.year >= 1 || a.month >= 3
  {
    hide WeekdayMonday0, DayNumber, Stamp, YearOf, MonthOf, DayOf, MonthLength;
    StampsDecode(a, time);
    FormulaCountsDaysExactlyIf(a);
  }

  /** At any time on the first of January of year 0 the feature says Sunday, and the calendar Saturday. */
  lemma FirstOfJanuaryOfYearZeroIsWrong(time: nat)
    requires time < 1_000_000
    ensures var a := Date(0, 1, 1); Weekday(Stamp(a, time)) == 6 && DayNumber(a) % 7 == 5
  {
    hide WeekdayMonday0, Stamp, YearOf, MonthOf, DayOf, DaysBeforeYear, Leaps;
    StampsDecode(Date(0, 1, 1), time);
    JanuaryAndFebruaryOfYearZero(1, 1);
    YearZero();
  }

  /** A negative timestamp has no positive month and is answered 0. */
  lemma NegativeTimestampsAnswerZero(ts: int)
    requires ts < 0
    ensures Weekday(ts) == 0
  {
    TruncationKeepsTheSign(ts, 1_000_000);
    TruncationKeepsTheSign(Quotient(ts, 1_000_000), 100);
    TruncationKeepsTheSign(Quotient(Quotient(ts, 1_000_000), 100), 100);
    hide Quotient, Remainder;
  }

  lemma TruncationKeepsTheSign(a: int, b: int)
    requires a <= 0 < b
    ensures Quotient(a, b) <= 0 && Remainder(a, b) <= 0
  {
    hide Remainder;
    RemainderOfNegation(-a, b);
    if a == 0 {
      DivisionIsUnique(0, b, 0, 0);
    }
  }

  lemma RemainderOfNegation(n: int, b: int)
    requires n >= 0 && b > 0
    ensures n / b >= 0
    ensures Quotient(-n, b) == -(n / b) && Remainder(-n, b) == -(n % b)
  {
    assert n == b * (n / b) + n % b;
    if n == 0 {
      DivisionIsUnique(0, b, 0, 0);
    }
    OppositeFactor(b, n / b);
    QuotientIsNotNegative(n, b);
  }

  lemma OppositeFactor(b: int, q: int)
    ensures b * -q == -(b * q)
  {
  }

  lemma QuotientIsNotNegative(n: int, b: int)
    requires n >= 0 && b > 0
    ensures n / b >= 0
  {
    var q := n / b;
    assert q * b + n % b == n;
    MultipleIsFar(q, b);
  }
}
