/**
 * UTC timestamps YYYY-MM-DDTHH:MM:SSZ compared as text, as section 5.1 of RFC 3339 promises they may be:
 * text order and time order agree.
 */
module Timestamps {

  datatype Stamp = Stamp(year: nat, month: nat, day: nat, hour: nat, minute: nat, second: nat)

  // ----- the calendar

  predicate Leap(year: nat) { year % 4 == 0 && (year % 100 != 0 || year % 400 == 0) }

  function YearLength(year: nat): nat { if Leap(year) then 366 else 365 }

  function MonthLength(year: nat, month: nat): (n: nat)
    ensures 28 <= n <= 31
  {
    if month == 2 then (if Leap(year) then 29 else 28)
    else if month == 4 || month == 6 || month == 9 || month == 11 then 30
    else 31
  }

  /** Days from the start of year 1 to the start of `year`. */
  function DaysBeforeYear(year: nat): nat { if year <= 1 then 0 else DaysBeforeYear(year - 1) + YearLength(year - 1) }

  function DaysBeforeMonth(year: nat, month: nat): nat
  {
    if month <= 1 then 0 else DaysBeforeMonth(year, month - 1) + MonthLength(year, month - 1)
  }

  /** A real date and time of day. */
  predicate Calendar(t: Stamp)
  {
    && 1 <= t.year <= 9999 && 1 <= t.month <= 12 && 1 <= t.day <= MonthLength(t.year, t.month)
    && t.hour <= 23 && t.minute <= 59 && t.second <= 59
  }

  /** Four-digit years, so that every field has a fixed width. */
  predicate Valid(t: Stamp) { Calendar(t) && 1000 <= t.year }

  function Days(t: Stamp): int { DaysBeforeYear(t.year) + DaysBeforeMonth(t.year, t.month) + t.day - 1 }

  function SecondOfDay(t: Stamp): nat { t.hour * 3600 + t.minute * 60 + t.second }

  /** Seconds since the start of year 1. */
  function Seconds(t: Stamp): int { Days(t) * 86400 + SecondOfDay(t) }

  /** The years before `year` are 365 days each and one more for every leap year among them. */
  lemma {:induction false} DaysInClosedForm(year: nat)
    requires year >= 1
    ensures DaysBeforeYear(year) == (year - 1) * 365 + (year - 1) / 4 - (year - 1) / 100 + (year - 1) / 400
  {
    if year > 1 {
      DaysInClosedForm(year - 1);
      LeapStep(year - 1);
    }
  }

  lemma LeapStep(y: nat)
    requires y >= 1
    ensures y / 4 - y / 100 + y / 400 == (y - 1) / 4 - (y - 1) / 100 + (y - 1) / 400 + (if Leap(y) then 1 else 0)
  {
    StepBy4(y);
    StepBy100(y);
    StepBy400(y);
  }

  lemma StepBy4(y: nat)
    requires y >= 1
    ensures y / 4 == (y - 1) / 4 + (if y % 4 == 0 then 1 else 0)
  {
  }

  lemma StepBy100(y: nat)
    requires y >= 1
    ensures y / 100 == (y - 1) / 100 + (if y % 100 == 0 then 1 else 0)
    ensures y % 100 == 0 ==> y % 4 == 0
  {
  }

  lemma StepBy400(y: nat)
    requires y >= 1
    ensures y / 400 == (y - 1) / 400 + (if y % 400 == 0 then 1 else 0)
    ensures y % 400 == 0 ==> y % 100 == 0
  {
  }

  // ----- the text

  function Digit(n: nat): char
    requires n < 10
  {
    (n + '0' as int) as char
  }

  /** n in `width` decimal digits. */
  function Pad(n: nat, width: nat): (s: string)
    ensures |s| == width
  {
    if width == 0 then "" else Pad(n / 10, width - 1) + [Digit(n % 10)]
  }

  function Format(t: Stamp): (s: string)
    ensures |s| == 20
  {
    Pad(t.year, 4) + AfterYear(t)
  }

  function AfterYear(t: Stamp): (s: string)
    ensures |s| == 16 && s[0] == '-'
  {
    "-" + (Pad(t.month, 2) + ("-" + (Pad(t.day, 2) + ("T"
      + (Pad(t.hour, 2) + (":" + (Pad(t.minute, 2) + (":" + (Pad(t.second, 2) + "Z")))))))))
  }

  /** Text comparison, character by character. */
  predicate Less(s: string, t: string)
  {
    if |t| == 0 then false
    else if |s| == 0 then true
    else s[0] < t[0] || (s[0] == t[0] && Less(s[1..], t[1..]))
  }

  // ----- text order is field order

  function Ten(width: nat): (n: nat)
    ensures n > 0
  {
    if width == 0 then 1 else 10 * Ten(width - 1)
  }

  lemma CommonHead(c: char, x: string, y: string)
    ensures Less([c] + x, [c] + y) <==> Less(x, y)
  {
  }

  lemma {:induction false} DigitOrder(m: nat, n: nat, x: string, y: string)
    requires m < 10 && n < 10
    ensures Less([Digit(m)] + x, [Digit(n)] + y) <==> m < n || (m == n && Less(x, y))
  {
  }

  /** Fixed-width numbers in front decide the order before anything that follows. */
  lemma {:induction false} PadOrder(m: nat, n: nat, width: nat, x: string, y: string)
    requires m < Ten(width) && n < Ten(width)
    ensures Less(Pad(m, width) + x, Pad(n, width) + y) <==> m < n || (m == n && Less(x, y))
    decreases width
  {
    if width == 0 {
      assert Pad(m, 0) + x == x && Pad(n, 0) + y == y;
    } else {
      var u, v := [Digit(m % 10)] + x, [Digit(n % 10)] + y;
      assert Pad(m, width) + x == Pad(m / 10, width - 1) + u;
      assert Pad(n, width) + y == Pad(n / 10, width - 1) + v;
      PadOrder(m / 10, n / 10, width - 1, u, v);
      DigitOrder(m % 10, n % 10, x, y);
    }
  }

  predicate Earlier(a: Stamp, b: Stamp)
  {
    || a.year < b.year
    || (a.year == b.year && (
          || a.month < b.month
          || (a.month == b.month && (a.day < b.day || (a.day == b.day && EarlierInDay(a, b))))))
  }

  predicate EarlierInDay(a: Stamp, b: Stamp)
  {
    || a.hour < b.hour
    || (a.hour == b.hour && (a.minute < b.minute || (a.minute == b.minute && a.second < b.second)))
  }

  /** The part of the text from the hour on. */
  function Clock(t: Stamp): string
  {
    Pad(t.hour, 2) + (":" + (Pad(t.minute, 2) + (":" + (Pad(t.second, 2) + "Z"))))
  }

  lemma ClockOrder(a: Stamp, b: Stamp)
    requires Valid(a) && Valid(b)
    ensures Less(Clock(a), Clock(b)) <==> EarlierInDay(a, b)
  {
    assert Ten(1) == 10 && Ten(2) == 100;
    var sa, sb := Pad(a.second, 2) + "Z", Pad(b.second, 2) + "Z";
    PadOrder(a.second, b.second, 2, "Z", "Z");
    CommonHead(':', sa, sb);
    PadOrder(a.minute, b.minute, 2, ":" + sa, ":" + sb);
    var ma, mb := Pad(a.minute, 2) + (":" + sa), Pad(b.minute, 2) + (":" + sb);
    CommonHead(':', ma, mb);
    PadOrder(a.hour, b.hour, 2, ":" + ma, ":" + mb);
  }

  lemma TextOrderIsFieldOrder(a: Stamp, b: Stamp)
    requires Valid(a) && Valid(b)
    ensures Less(Format(a), Format(b)) <==> Earlier(a, b)
  {
    assert Ten(1) == 10 && Ten(2) == 100 && Ten(3) == 1000 && Ten(4) == 10000;
    ClockOrder(a, b);
    CommonHead('T', Clock(a), Clock(b));
    PadOrder(a.day, b.day, 2, "T" + Clock(a), "T" + Clock(b));
    var da, db := Pad(a.day, 2) + ("T" + Clock(a)), Pad(b.day, 2) + ("T" + Clock(b));
    CommonHead('-', da, db);
    PadOrder(a.month, b.month, 2, "-" + da, "-" + db);
    var ma, mb := Pad(a.month, 2) + ("-" + da), Pad(b.month, 2) + ("-" + db);
    CommonHead('-', ma, mb);
    PadOrder(a.year, b.year, 4, "-" + ma, "-" + mb);
    assert Format(a) == Pad(a.year, 4) + ("-" + ma) && Format(b) == Pad(b.year, 4) + ("-" + mb);
  }

  // ----- field order is time order

  lemma {:induction false} YearsAccumulate(y: nat, z: nat)
    requires 1 <= y < z
    ensures DaysBeforeYear(y) + YearLength(y) <= DaysBeforeYear(z)
    decreases z
  {
    if y < z - 1 {
      YearsAccumulate(y, z - 1);
    }
  }

  lemma {:induction false} MonthsAccumulate(year: nat, m: nat, n: nat)
    requires 1 <= m < n
    ensures DaysBeforeMonth(year, m) + MonthLength(year, m) <= DaysBeforeMonth(year, n)
    decreases n
  {
    if m < n - 1 {
      MonthsAccumulate(year, m, n - 1);
    }
  }

  /** The twelve months make up the year. */
  lemma MonthsFillTheYear(year: nat)
    ensures DaysBeforeMonth(year, 13) == YearLength(year)
  {
    assert DaysBeforeMonth(year, 2) == 31 && DaysBeforeMonth(year, 3) == 31 + MonthLength(year, 2);
    var a := DaysBeforeMonth(year, 3);
    assert DaysBeforeMonth(year, 4) == a + 31 && DaysBeforeMonth(year, 5) == a + 61;
    assert DaysBeforeMonth(year, 6) == a + 92;
    assert DaysBeforeMonth(year, 7) == a + 122 && DaysBeforeMonth(year, 8) == a + 153;
    assert DaysBeforeMonth(year, 9) == a + 184;
    assert DaysBeforeMonth(year, 10) == a + 214 && DaysBeforeMonth(year, 11) == a + 245;
    assert DaysBeforeMonth(year, 12) == a + 275;
  }

  lemma LaterMonthDay(a: Stamp, b: Stamp)
    requires Calendar(a) && Calendar(b) && (a.year < b.year || (a.year == b.year && a.month < b.month))
    ensures Days(a) < Days(b)
  {
    if a.year < b.year {
      YearsAccumulate(a.year, b.year);
      MonthsAccumulate(a.year, a.month, 13);
      MonthsFillTheYear(a.year);
    } else {
      MonthsAccumulate(a.year, a.month, b.month);
    }
  }

  lemma EarlierHasFewerSeconds(a: Stamp, b: Stamp)
    requires Calendar(a) && Calendar(b) && Earlier(a, b)
    ensures Seconds(a) < Seconds(b)
  {
    if a.year < b.year || (a.year == b.year && a.month < b.month) {
      LaterMonthDay(a, b);
    }
  }

  // ----- every instant has its timestamp

  /** The clock ticks: a timestamp that is not the last has one exactly a second after it. */
  lemma NextSecond(t: Stamp, later: Stamp) returns (next: Stamp)
    requires Calendar(t) && Calendar(later) && Earlier(t, later)
    ensures Calendar(next) && Seconds(next) == Seconds(t) + 1
  {
    if t.second < 59 {
      next := t.(second := t.second + 1);
    } else if t.minute < 59 {
      next := t.(minute := t.minute + 1, second := 0);
    } else if t.hour < 23 {
      next := t.(hour := t.hour + 1, minute := 0, second := 0);
    } else {
      next := NextDay(t, later);
    }
  }

  /** Midnight: the next day of the month, the first of the next month, or New Year. */
  lemma NextDay(t: Stamp, later: Stamp) returns (next: Stamp)
    requires Calendar(t) && Calendar(later) && Earlier(t, later)
    requires t.hour == 23 && t.minute == 59 && t.second == 59
    ensures Calendar(next) && SecondOfDay(next) == 0 && Days(next) == Days(t) + 1
  {
    if t.day < MonthLength(t.year, t.month) {
      next := Stamp(t.year, t.month, t.day + 1, 0, 0, 0);
    } else if t.month < 12 {
      next := Stamp(t.year, t.month + 1, 1, 0, 0, 0);
    } else {
      assert t.year < later.year;
      next := Stamp(t.year + 1, 1, 1, 0, 0, 0);
      MonthsFillTheYear(t.year);
    }
  }

  lemma FewerSecondsIsEarlier(a: Stamp, b: Stamp)
    requires Calendar(a) && Calendar(b) && Seconds(a) < Seconds(b)
    ensures Earlier(a, b)
  {
    if !Earlier(a, b) && a != b {
      EarlierHasFewerSeconds(b, a);
    }
  }

  lemma YearOneStartsAtZero(year: nat, month: nat)
    requires year <= 1 && month <= 1
    ensures DaysBeforeYear(year) == 0 && DaysBeforeMonth(year, month) == 0
  {
  }

  lemma CountStartsAtZero(t: Stamp)
    requires t.year == t.month == t.day == 1 && SecondOfDay(t) == 0
    ensures Days(t) == 0 && Seconds(t) == 0
  {
    YearOneStartsAtZero(t.year, t.month);
  }

  lemma YearOneBegins(t: Stamp)
    requires t.year == t.month == t.day == 1 && t.hour == t.minute == t.second == 0
    ensures Calendar(t) && SecondOfDay(t) == 0
  {
  }

  lemma FirstSecond() returns (t: Stamp)
    ensures Calendar(t) && Seconds(t) == 0
  {
    t := Stamp(1, 1, 1, 0, 0, 0);
    YearOneBegins(t);
    CountStartsAtZero(t);
  }

  /** Counting from the first second of year 1, every instant up to any timestamp has a timestamp of its own. */
  lemma {:induction false} EveryInstantHasAStamp(n: nat, last: Stamp) returns (t: Stamp)
    requires Calendar(last) && n <= Seconds(last)
    ensures Calendar(t) && Seconds(t) == n
  {
    if n == 0 {
      t := FirstSecond();
    } else {
      var before := EveryInstantHasAStamp(n - 1, last);
      FewerSecondsIsEarlier(before, last);
      t := NextSecond(before, last);
    }
  }

  /** Text order is chronological order, for every pair of valid timestamps, leap years included. */
  lemma TextOrderIsTimeOrder(a: Stamp, b: Stamp)
    requires Valid(a) && Valid(b)
    ensures Less(Format(a), Format(b)) <==> Seconds(a) < Seconds(b)
  {
    TextOrderIsFieldOrder(a, b);
    if Earlier(a, b) {
      EarlierHasFewerSeconds(a, b);
    } else if a != b {
      assert Earlier(b, a);
      EarlierHasFewerSeconds(b, a);
    }
  }

  /** Equal text, equal instant and equal fields are the same thing. */
  lemma TextIdentifiesTheInstant(a: Stamp, b: Stamp)
    requires Valid(a) && Valid(b)
    ensures Format(a) == Format(b) <==> a == b
    ensures Seconds(a) == Seconds(b) <==> a == b
  {
    if a != b {
      assert Earlier(a, b) || Earlier(b, a);
      if Earlier(a, b) {
        EarlierHasFewerSeconds(a, b);
        TextOrderIsTimeOrder(a, b);
      } else {
        EarlierHasFewerSeconds(b, a);
        TextOrderIsTimeOrder(b, a);
      }
      NotLessThanItself(Format(a));
    }
  }

  lemma {:induction false} NotLessThanItself(s: string)
    ensures !Less(s, s)
  {
    if |s| > 0 {
      NotLessThanItself(s[1..]);
    }
  }

  /** `expires_at <= now` evaluated on text. */
  predicate TextAtMost(s: string, t: string) { s == t || Less(s, t) }

  /** The comparison the journal's queries make decides exactly whether the deadline has been reached. */
  lemma TextDeadline(expires: Stamp, now: Stamp)
    requires Valid(expires) && Valid(now)
    ensures TextAtMost(Format(expires), Format(now)) <==> Seconds(expires) <= Seconds(now)
  {
    TextOrderIsTimeOrder(expires, now);
    TextIdentifiesTheInstant(expires, now);
  }

  // ----- years written without leading zeroes

  /** How many digits a year below 1000 takes. */
  function Digits(year: nat): (n: nat)
    ensures 1 <= n <= 3
  {
    if year < 10 then 1 else if year < 100 then 2 else 3
  }

  /** The text where %Y does not pad. */
  function Unpadded(t: Stamp): string { Pad(t.year, Digits(t.year)) + AfterYear(t) }

  lemma FirstDigit(year: nat)
    requires 1 <= year < 1000
    ensures Pad(year, Digits(year))[0] != '0'
  {
    if year >= 100 {
      assert Pad(year, 3) == Pad(year / 10, 2) + [Digit(year % 10)];
      assert Pad(year / 10, 2) == Pad(year / 100, 1) + [Digit(year / 10 % 10)];
      assert Pad(year / 100, 1) == [Digit(year / 100 % 10)];
    } else if year >= 10 {
      assert Pad(year, 2) == Pad(year / 10, 1) + [Digit(year % 10)];
      assert Pad(year / 10, 1) == [Digit(year / 10 % 10)];
    } else {
      assert Pad(year, 1) == [Digit(year % 10)];
    }
  }

  /** The text then starts with no zero, which is what sets it apart from the padded one. */
  lemma UnpaddedStartsWithNoZero(t: Stamp)
    requires Calendar(t) && t.year < 1000
    ensures Unpadded(t)[0] != '0'
  {
    FirstDigit(t.year);
  }

  /** The first `n` of four digits. */
  function Leading(year: nat, n: nat): (m: nat)
  {
    if n == 1 then year / 1000 else if n == 2 then year / 100 else year / 10
  }

  lemma FourDigits(year: nat) returns (c: char, d: char, e: char)
    ensures Pad(year, 4) == Pad(year / 10, 3) + [e] && Pad(year / 10, 3) == Pad(year / 100, 2) + [d]
    ensures Pad(year / 100, 2) == Pad(year / 1000, 1) + [c]
    ensures '0' <= c <= '9' && '0' <= d <= '9' && '0' <= e <= '9'
  {
    assert year / 10 / 10 == year / 100 && year / 100 / 10 == year / 1000;
    c, d, e := Digit(year / 100 % 10), Digit(year / 10 % 10), Digit(year % 10);
  }

  /** Four digits are the leading ones and the rest. */
  lemma YearSplits(year: nat, n: nat) returns (rest: string)
    requires 1 <= n <= 3
    ensures Pad(year, 4) == Pad(Leading(year, n), n) + rest && |rest| == 4 - n && '0' <= rest[0] <= '9'
  {
    var c, d, e := FourDigits(year);
    if n == 3 {
      rest := [e];
    } else if n == 2 {
      rest := [d] + [e];
    } else {
      rest := [c] + [d] + [e];
    }
  }

  lemma DashBeforeDigits(x: string, y: string)
    requires |x| > 0 && |y| > 0 && x[0] == '-' && '0' <= y[0] <= '9'
    ensures Less(x, y)
  {
  }

  lemma ShortText(short: nat, year: nat, x: string, y: string)
    requires 1 <= short < 1000 && 1000 <= year <= 9999 && |x| > 0 && x[0] == '-'
    ensures Less(Pad(short, Digits(short)) + x, Pad(year, 4) + y) <==> short <= Leading(year, Digits(short))
  {
    var w := Digits(short);
    LeadingFits(short, year, w);
    var leading := Leading(year, w);
    var rest := YearSplits(year, w);
    assert Pad(year, 4) + y == Pad(leading, w) + (rest + y);
    DashBeforeDigits(x, rest + y);
    PadOrder(short, leading, w, x, rest + y);
  }

  /**
   * Every year below 1000 is earlier than every year from 1000 on; its unpadded text says so exactly when the
   * year is at most the same number of leading digits of the other.
   */
  lemma ShortYearsMisorderedIff(a: Stamp, b: Stamp)
    requires Calendar(a) && a.year < 1000 && Valid(b)
    ensures Seconds(a) < Seconds(b)
    ensures Less(Unpadded(a), Format(b)) <==> a.year <= Leading(b.year, Digits(a.year))
  {
    EarlierHasFewerSeconds(a, b);
    ShortText(a.year, b.year, AfterYear(a), AfterYear(b));
  }

  lemma LeadingFits(short: nat, year: nat, w: nat)
    requires 1 <= short < 1000 && 1000 <= year <= 9999 && w == Digits(short)
    ensures short < Ten(w) && Leading(year, w) < Ten(w)
  {
    assert Ten(1) == 10 && Ten(2) == 100 && Ten(3) == 1000;
  }
}
