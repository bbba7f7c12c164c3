/**
 * Retention of raw rows by whole monthly partitions: which months are planned, which have expired,
 * and which partition names belong to which months.
 */
module Retention {
  import opened Common

  const DAY: Time := 24 * HOUR

  /** A month of the proleptic Gregorian calendar. Instants count from the start of year 1. */
  datatype Month = Month(year: int, month: int)

  predicate Valid(m: Month) { 1 <= m.month <= 12 }

  predicate Leap(year: int) { year % 4 == 0 && (year % 100 != 0 || year % 400 == 0) }

  function DaysIn(m: Month): int
    requires Valid(m)
  {
    if m.month == 2 then (if Leap(m.year) then 29 else 28)
    else if m.month in {4, 6, 9, 11} then 30
    else 31
  }

  function Next(m: Month): Month {
    if m.month == 12 then Month(m.year + 1, 1) else Month(m.year, m.month + 1)
  }

  /** Months since January of year 1. */
  function Ordinal(m: Month): int { 12 * (m.year - 1) + m.month - 1 }

  function FromOrdinal(k: nat): Month { Month(k / 12 + 1, k % 12 + 1) }

  /** The inclusive start of the `k`-th month: the days of all the months before it. */
  function StartOf(k: nat): Time {
    if k == 0 then 0 else StartOf(k - 1) + DaysIn(FromOrdinal(k - 1)) * DAY
  }

  function Start(m: Month): Time
    requires Ordinal(m) >= 0
  {
    StartOf(Ordinal(m))
  }

  function End(m: Month): Time
    requires Ordinal(m) >= 0
  {
    StartOf(Ordinal(m) + 1)
  }

  lemma OrdinalsAreMonths(k: nat)
    ensures Valid(FromOrdinal(k)) && Ordinal(FromOrdinal(k)) == k && FromOrdinal(k).year >= 1
    ensures Next(FromOrdinal(k)) == FromOrdinal(k + 1)
  {
  }

  lemma MonthsAreOrdinals(m: Month)
    requires Valid(m) && m.year >= 1
    ensures Valid(Next(m)) && Next(m).year >= 1
    ensures Ordinal(m) >= 0 && FromOrdinal(Ordinal(m)) == m && Ordinal(Next(m)) == Ordinal(m) + 1
  {
  }

  /** Later months start later: ranges never overlap and leave no gaps. */
  lemma {:induction false} StartsIncrease(a: nat, b: nat)
    requires a < b
    ensures StartOf(a) < StartOf(b)
    decreases b
  {
    OneMonthOn(b - 1);
    hide StartOf;
    if a + 1 < b { StartsIncrease(a, b - 1); }
  }

  lemma OneMonthOn(k: nat)
    ensures StartOf(k + 1) == StartOf(k) + DaysIn(FromOrdinal(k)) * DAY
    ensures StartOf(k) < StartOf(k + 1)
  {
    var days := DaysIn(FromOrdinal(k));
    assert 28 <= days <= 31;
  }

  // ---------------------------------------------------------------------------------------------
  // The calendar
  // ---------------------------------------------------------------------------------------------

  /** The days of a year before one of its months. */
  function DaysBefore(month: int, leap: bool): int
    requires 1 <= month <= 12
  {
    var common := [0, 31, 59, 90, 120, 151, 181, 212, 243, 273, 304, 334];
    common[month - 1] + if leap && month > 2 then 1 else 0
  }

  /** Years of 365 days, one more in every fourth, but not in every hundredth, but in every 400th. */
  function DaysBeforeYear(year: int): int {
    365 * (year - 1) + (year - 1) / 4 - (year - 1) / 100 + (year - 1) / 400
  }

  /** Months start where the Gregorian calendar has them start. */
  lemma {:induction false} MonthsAreGregorian(year: nat, month: int)
    requires year >= 1 && 1 <= month <= 12
    ensures StartOf(12 * (year - 1) + month - 1)
         == (DaysBeforeYear(year) + DaysBefore(month, IsLeap(year))) * DAY
    decreases year, month
  {
    hide StartOf, DaysBeforeYear, DaysBefore, DaysIn, FromOrdinal, IsLeap;
    if month > 1 {
      MonthsAreGregorian(year, month - 1);
      OneMonthOn(12 * (year - 1) + month - 2);
      OneMonthLater(year, month - 1);
    } else if year > 1 {
      MonthsAreGregorian(year - 1, 12);
      OneMonthOn(12 * (year - 2) + 11);
      OneYearLater(year - 1);
    } else {
      FirstMonth();
    }
  }

  predicate IsLeap(year: int) { year % 400 == 0 || (year % 4 == 0 && year % 100 != 0) }

  lemma FirstMonth()
    ensures StartOf(0) == 0 && DaysBeforeYear(1) + DaysBefore(1, IsLeap(1)) == 0
  {
  }

  lemma MonthAt(year: int, month: int)
    requires year >= 1 && 1 <= month <= 12
    ensures FromOrdinal(12 * (year - 1) + month - 1) == Month(year, month)
  {
  }

  lemma LeapIsLeap(year: int)
    ensures Leap(year) <==> IsLeap(year)
  {
    var q := year / 400;
    assert year == 400 * q + year % 400;
    assert year % 400 == 0 ==> year == 4 * (100 * q) && year == 100 * (4 * q);
  }

  lemma OneMonthLater(year: int, month: int)
    requires year >= 1 && 1 <= month < 12
    ensures DaysBefore(month + 1, IsLeap(year))
         == DaysBefore(month, IsLeap(year)) + DaysIn(FromOrdinal(12 * (year - 1) + month - 1))
  {
    MonthAt(year, month);
    LeapIsLeap(year);
    hide FromOrdinal, Leap, IsLeap;
  }

  /** One more multiple of four, of a hundred or of 400. */
  lemma OneMore(n: int)
    requires n >= 1
    ensures n / 4 == (n - 1) / 4 + if n % 4 == 0 then 1 else 0
    ensures n / 100 == (n - 1) / 100 + if n % 100 == 0 then 1 else 0
    ensures n / 400 == (n - 1) / 400 + if n % 400 == 0 then 1 else 0
  {
  }

  lemma YearLength(year: int)
    requires year >= 1
    ensures DaysBeforeYear(year + 1)
         == DaysBeforeYear(year) + 365 + if Leap(year) then 1 else 0
  {
    OneMore(year);
    MultiplesNest(year);
    var a, b, c := year % 4 == 0, year % 100 == 0, year % 400 == 0;
    assert Leap(year) <==> a && (!b || c);
  }

  lemma MultiplesNest(n: int)
    ensures n % 400 == 0 ==> n % 100 == 0
    ensures n % 100 == 0 ==> n % 4 == 0
  {
    assert n == 400 * (n / 400) + n % 400 && n == 100 * (n / 100) + n % 100;
    assert n % 400 == 0 ==> n == 100 * (4 * (n / 400));
    assert n % 100 == 0 ==> n == 4 * (25 * (n / 100));
  }

  lemma OneYearLater(year: int)
    requires year >= 1
    ensures DaysBeforeYear(year + 1) + DaysBefore(1, IsLeap(year + 1))
         == DaysBeforeYear(year) + DaysBefore(12, IsLeap(year))
            + DaysIn(FromOrdinal(12 * (year - 1) + 11))
  {
    hide FromOrdinal, IsLeap, DaysBeforeYear, Leap;
    MonthAt(year, 12);
    YearLength(year);
    LeapIsLeap(year);
  }

  predicate Holds(k: nat, t: Time) { StartOf(k) <= t < StartOf(k + 1) }

  /** The month an instant belongs to, searched from a month that starts no later. */
  function Search(t: Time, k: nat): (r: nat)
    requires StartOf(k) <= t
    ensures Holds(r, t)
    decreases t - StartOf(k)
  {
    if t < StartOf(k + 1) then k else Search(t, k + 1)
  }

  function MonthOf(t: Time): Month
    requires t >= 0
  {
    FromOrdinal(Search(t, 0))
  }

  lemma OnlyOneHolds(a: nat, b: nat, t: Time)
    requires Holds(a, t) && Holds(b, t)
    ensures a == b
  {
    hide StartOf;
    if a + 1 < b { StartsIncrease(a + 1, b); }
    if b + 1 < a { StartsIncrease(b + 1, a); }
  }

  /** An instant belongs to exactly one month. */
  lemma MonthOfIsUnique(t: Time, m: Month)
    requires t >= 0 && Valid(m) && m.year >= 1
    ensures Ordinal(MonthOf(t)) >= 0 && Valid(MonthOf(t)) && MonthOf(t).year >= 1
    ensures Ordinal(m) >= 0 && (Start(m) <= t < End(m) <==> m == MonthOf(t))
  {
    hide MonthOf, Ordinal, FromOrdinal, StartOf, Next;
    MonthOfFacts(t);
    MonthsAreOrdinals(m);
    MonthsAreOrdinals(MonthOf(t));
    if Start(m) <= t < End(m) { OnlyOneHolds(Ordinal(m), Ordinal(MonthOf(t)), t); }
  }

  /** What is known of the current month without searching for it. */
  lemma MonthOfFacts(t: Time)
    requires t >= 0
    ensures var m := MonthOf(t);
            Valid(m) && m.year >= 1 && Ordinal(m) >= 0 && Holds(Ordinal(m), t)
  {
    OrdinalsAreMonths(Search(t, 0));
  }

  // ---------------------------------------------------------------------------------------------
  // Planning
  // ---------------------------------------------------------------------------------------------

  const MAX_AHEAD := 24

  /** The months that must be in place: the current one and a bounded lookahead. */
  method PartitionPlan(now: Time, ahead: int) returns (r: Result<seq<Month>, ()>)
    requires now >= 0
    ensures r.Err? <==> ahead < 0 || ahead > MAX_AHEAD
    ensures r.Ok? ==>
              && |r.value| == ahead + 1 && r.value[0] == MonthOf(now)
              && (forall k :: 0 <= k < ahead ==> r.value[k + 1] == Next(r.value[k]))
              && (forall k :: 0 <= k <= ahead ==>
                    Valid(r.value[k]) && r.value[k].year >= 1
                    && Ordinal(r.value[k]) == Ordinal(MonthOf(now)) + k)
  {
    if ahead < 0 || ahead > MAX_AHEAD { return Err(()); }
    MonthOfFacts(now);
    hide MonthOf, Ordinal, Holds, Next;
    var months: seq<Month> := [];
    var current := MonthOf(now);
    var index := 0;
    while index <= ahead
      invariant 0 <= index <= ahead + 1 && |months| == index
      invariant Valid(current) && current.year >= 1
      invariant Ordinal(current) == Ordinal(MonthOf(now)) + index
      invariant index == 0 ==> current == MonthOf(now)
      invariant index > 0 ==> months[0] == MonthOf(now) && current == Next(months[index - 1])
      invariant forall k :: 0 <= k < index - 1 ==> months[k + 1] == Next(months[k])
      invariant forall k :: 0 <= k < index ==>
                  Valid(months[k]) && months[k].year >= 1
                  && Ordinal(months[k]) == Ordinal(MonthOf(now)) + k
    {
      months := months + [current];
      MonthsAreOrdinals(current);
      current := Next(current);
      index := index + 1;
    }
    return Ok(months);
  }

  /** A plan made at an instant, as ordinals. */
  predicate Planned(m: Month, now: Time, ahead: nat)
    requires now >= 0
  {
    Valid(m) && m.year >= 1 && Ordinal(MonthOf(now)) <= Ordinal(m) <= Ordinal(MonthOf(now)) + ahead
  }

  /** Planned months are contiguous and cover every instant from now to the end of the lookahead. */
  lemma PlanCovers(now: Time, ahead: nat, t: Time)
    requires 0 <= now <= t
    ensures Ordinal(MonthOf(now)) >= 0
    ensures t < StartOf(Ordinal(MonthOf(now)) + ahead + 1) ==> Planned(MonthOf(t), now, ahead)
    ensures Start(MonthOf(now)) <= now < End(MonthOf(now))
  {
    hide MonthOf, StartOf, Ordinal, Search;
    MonthOfFacts(now);
    MonthOfFacts(t);
    var a, b := Ordinal(MonthOf(now)), Ordinal(MonthOf(t));
    if t < StartOf(a + ahead + 1) {
      if b + 1 < a { StartsIncrease(b + 1, a); }
      if a + ahead + 1 < b { StartsIncrease(a + ahead + 1, b); }
    }
  }

  // ---------------------------------------------------------------------------------------------
  // Expiry
  // ---------------------------------------------------------------------------------------------

  const MIN_DAYS := 1
  const MAX_DAYS := 730

  function Cutoff(days: int, now: Time): Time { now - days * DAY }

  predicate Expired(m: Month, days: int, now: Time)
    requires Ordinal(m) >= 0
  {
    End(m) <= Cutoff(days, now)
  }

  predicate InMonth(m: Month, t: Time)
    requires Ordinal(m) >= 0
  {
    Start(m) <= t < End(m)
  }

  /** A month has expired exactly when every instant in it is more than `days` whole days ago. */
  lemma ExpiredMeansAllBefore(m: Month, days: int, now: Time)
    requires Ordinal(m) >= 0
    ensures Expired(m, days, now) <==> forall t :: InMonth(m, t) ==> t < now - days * (24 * HOUR)
  {
    StartsIncrease(Ordinal(m), Ordinal(m) + 1);
    CutoffIs(days, now);
    hide StartOf, Cutoff;
    assert InMonth(m, End(m) - 1);
  }

  lemma CutoffIs(days: int, now: Time)
    ensures Cutoff(days, now) == now - days * (24 * HOUR)
  {
  }

  /** Maintenance never drops a month that is planned at the same or a later instant. */
  lemma PlannedNeverExpires(m: Month, days: int, now: Time, later: Time, ahead: nat)
    requires 0 <= now <= later && days >= MIN_DAYS && Planned(m, later, ahead)
    ensures Ordinal(m) >= 0 && !Expired(m, days, now)
  {
    CutoffIsPast(days, now);
    MonthOfFacts(later);
    hide MonthOf, StartOf, Cutoff, Holds;
    EndsAfter(later, Ordinal(m));
  }

  /** The current month and every later one end after now. */
  lemma EndsAfter(t: Time, k: int)
    requires t >= 0 && Ordinal(MonthOf(t)) <= k
    ensures k >= 0 && t < StartOf(k + 1)
  {
    hide MonthOf, StartOf, Ordinal, Search;
    MonthOfFacts(t);
    var a := Ordinal(MonthOf(t));
    if a < k { StartsIncrease(a + 1, k + 1); }
  }

  lemma CutoffIsPast(days: int, now: Time)
    requires days >= MIN_DAYS
    ensures Cutoff(days, now) < now
  {
  }

  // ---------------------------------------------------------------------------------------------
  // Names
  // ---------------------------------------------------------------------------------------------

  function Digit(n: int): char
    requires 0 <= n <= 9
  {
    ('0' as int + n) as char
  }

  /** Decimal digits, padded with zeros to a width. */
  function Decimal(n: nat, width: nat): string
    decreases n, width
  {
    if n == 0 && width == 0 then ""
    else if n == 0 then Decimal(0, width - 1) + "0"
    else Decimal(n / 10, if width == 0 then 0 else width - 1) + [Digit(n % 10)]
  }

  /** The width counts the sign of a negative number. */
  function Padded(n: int, width: nat): string {
    if n >= 0 then Decimal(n, width)
    else "-" + Decimal(-n, if width == 0 then 0 else width - 1)
  }

  function Suffix(m: Month): string { Padded(m.year, 4) + "_" + Padded(m.month, 2) }

  predicate IsDigit(c: char) { '0' <= c <= '9' }

  function Value(c: char): int { c as int - '0' as int }

  function Number(s: string): Option<nat> {
    if s == "" then Some(0)
    else
      var n := |s| - 1;
      var rest := Number(s[..n]);
      if rest.None? || !IsDigit(s[n]) then None else Some(rest.value * 10 + Value(s[n]))
  }

  /** Parsing an integer accepts a sign before at least one digit. */
  function Atoi(s: string): Option<int> {
    if s == "" then None
    else if s[0] == '+' || s[0] == '-' then
      if |s| == 1 then None
      else
        var n := Number(s[1..]);
        if n.None? then None
        else
          var value: int := n.value;
          var signed: int := if s[0] == '-' then 0 - value else value;
          Some(signed)
    else Number(s)
  }

  /** The position of the first separator. */
  function Separator(s: string): Option<nat> {
    if s == "" then None
    else if s[0] == '_' then Some(0)
    else
      var rest := Separator(s[1..]);
      if rest.Some? then Some(rest.value + 1) else None
  }

  function ParseMonthSuffix(s: string): Option<Month> {
    var cut := Separator(s);
    if cut.None? || cut.value != 4 || |s| != 7 then None
    else
      var year, month := Atoi(s[..4]), Atoi(s[5..]);
      if year.None? || year.value < 1 || month.None? || month.value < 1 || month.value > 12 then None
      else Some(Month(year.value, month.value))
  }

  function Pow10(n: nat): nat { if n == 0 then 1 else 10 * Pow10(n - 1) }

  ghost predicate AllDigits(s: string) { forall k :: 0 <= k < |s| ==> IsDigit(s[k]) }

  lemma DigitRoundTrips(n: int)
    requires 0 <= n <= 9
    ensures IsDigit(Digit(n)) && Value(Digit(n)) == n
  {
  }

  lemma DigitOfValue(c: char)
    requires IsDigit(c)
    ensures 0 <= Value(c) <= 9 && Digit(Value(c)) == c
  {
  }

  lemma NumberAppends(s: string, c: char)
    requires IsDigit(c) && Number(s).Some?
    ensures Number(s + [c]) == Some(Number(s).value * 10 + Value(c))
  {
    assert (s + [c])[..|s|] == s;
  }

  /** Formatting and reading digits are inverse, and the width is exceeded only by large numbers. */
  lemma DecimalReadsBack(n: nat, width: nat)
    ensures Number(Decimal(n, width)) == Some(n) && AllDigits(Decimal(n, width))
    ensures |Decimal(n, width)| >= width
    ensures |Decimal(n, width)| == width <==> n < Pow10(width)
  {
    DigitsReadBack(n, width);
    DecimalWidth(n, width);
    hide *;
  }

  lemma DecimalStep(n: nat, width: nat)
    requires n > 0 || width > 0
    ensures Decimal(n, width)
         == Decimal(n / 10, if width == 0 then 0 else width - 1) + [Digit(n % 10)]
  {
  }

  lemma {:induction false} DigitsReadBack(n: nat, width: nat)
    ensures Number(Decimal(n, width)) == Some(n) && AllDigits(Decimal(n, width))
    decreases n, width
  {
    if n > 0 || width > 0 {
      var w := if width == 0 then 0 else width - 1;
      DigitsReadBack(n / 10, w);
      DecimalStep(n, width);
      DigitRoundTrips(n % 10);
      hide Decimal, Number, Digit, Value;
      NumberAppends(Decimal(n / 10, w), Digit(n % 10));
    }
  }

  lemma {:induction false} DecimalWidth(n: nat, width: nat)
    ensures |Decimal(n, width)| >= width
    ensures |Decimal(n, width)| == width <==> n < Pow10(width)
    decreases n, width
  {
    if n > 0 || width > 0 {
      var w := if width == 0 then 0 else width - 1;
      DecimalWidth(n / 10, w);
      DecimalStep(n, width);
      hide Decimal;
    }
  }

  lemma {:induction false} NumberFormatsBack(s: string)
    requires Number(s).Some?
    ensures AllDigits(s) && Decimal(Number(s).value, |s|) == s
    decreases |s|
  {
    if s != "" {
      var n := |s| - 1;
      NumberFormatsBack(s[..n]);
      DigitOfValue(s[n]);
      var v, d := Number(s[..n]).value, Value(s[n]);
      assert (v * 10 + d) / 10 == v && (v * 10 + d) % 10 == d;
      assert s == s[..n] + [s[n]];
    }
  }

  lemma {:induction false} SeparatorFollows(a: string, b: string)
    requires forall k :: 0 <= k < |a| ==> a[k] != '_'
    ensures Separator(a + "_" + b) == Some(|a|)
    decreases |a|
  {
    if a != "" {
      assert (a + "_" + b)[1..] == a[1..] + "_" + b;
      SeparatorFollows(a[1..], b);
    }
  }

  lemma {:induction false} SeparatorSplits(s: string)
    ensures Separator(s).Some? ==> Separator(s).value < |s| && s[Separator(s).value] == '_'
    decreases |s|
  {
    if s != "" && s[0] != '_' { SeparatorSplits(s[1..]); }
  }

  /** What a formatted year looks like. */
  lemma PaddedYear(year: int)
    ensures var y := Padded(year, 4);
            && (forall k :: 0 <= k < |y| ==> y[k] != '_')
            && (1 <= year <= 9999 ==> |y| == 4 && Atoi(y) == Some(year))
            && (year == 0 ==> Atoi(y) == Some(0))
            && (year > 9999 ==> |y| > 4)
            && (year < 0 ==> Atoi(y).None? || Atoi(y).value < 1)
  {
    assert Pow10(4) == 10000;
    hide Pow10, Decimal, Number;
    if year >= 0 {
      DecimalReadsBack(year, 4);
      if Decimal(year, 4) != "" { assert IsDigit(Decimal(year, 4)[0]); }
    } else {
      DecimalReadsBack(-year, 3);
      var y := Padded(year, 4);
      assert y[1..] == Decimal(-year, 3);
    }
  }

  lemma PaddedMonth(month: int)
    requires 1 <= month <= 12
    ensures |Padded(month, 2)| == 2 && Atoi(Padded(month, 2)) == Some(month)
  {
    assert Pow10(2) == 100;
    DecimalReadsBack(month, 2);
    assert IsDigit(Decimal(month, 2)[0]);
  }

  /** A month is read back from its suffix exactly in the years 1 to 9999. */
  lemma SuffixReadsBack(m: Month)
    requires Valid(m)
    ensures ParseMonthSuffix(Suffix(m)) == Some(m) <==> 1 <= m.year <= 9999
    ensures ParseMonthSuffix(Suffix(m)).Some? ==> ParseMonthSuffix(Suffix(m)) == Some(m)
  {
    var y, n := Padded(m.year, 4), Padded(m.month, 2);
    PaddedYear(m.year);
    PaddedMonth(m.month);
    SeparatorFollows(y, n);
    var s := Suffix(m);
    assert s == y + "_" + n && |s| == |y| + 3;
    if |y| == 4 { assert s[..4] == y && s[5..] == n; }
    hide Padded, Atoi, Separator;
  }

  /** The other way round holds exactly when neither part carries a sign. */
  lemma ParsedFormatsBack(s: string)
    requires ParseMonthSuffix(s).Some?
    ensures |s| == 7
    ensures Suffix(ParseMonthSuffix(s).value) == s <==> s[0] != '+' && s[5] != '+'
  {
    var m := ParseMonthSuffix(s).value;
    SeparatorSplits(s);
    assert s[4] == '_';
    assert s == s[..4] + "_" + s[5..];
    PaddedYear(m.year);
    PaddedMonth(m.month);
    var y, n := Padded(m.year, 4), Padded(m.month, 2);
    DecimalReadsBack(m.month, 2);
    SignedOrDigits(s[..4]);
    SignedOrDigits(s[5..]);
    YearIsShort(s[..4]);
    DecimalReadsBack(m.year, 4);
    if s[0] != '+' { assert s[..4] == y; }
    if s[5] != '+' { assert s[5..] == n; }
    if Suffix(m) == s {
      assert (y + "_" + n)[0] == y[0] && (y + "_" + n)[5] == n[0];
    }
  }

  /** A positive number was written with a plus sign, or in digits that format back. */
  lemma SignedOrDigits(s: string)
    requires Atoi(s).Some? && Atoi(s).value >= 1
    ensures s != "" && s[0] != '-'
    ensures s[0] != '+' ==> Decimal(Atoi(s).value, |s|) == s && Padded(Atoi(s).value, |s|) == s
  {
    if s[0] != '+' && s[0] != '-' { NumberFormatsBack(s); }
  }

  lemma {:induction false} NumberIsShort(s: string)
    requires Number(s).Some?
    ensures Number(s).value < Pow10(|s|)
    decreases |s|
  {
    if s != "" {
      NumberIsShort(s[..|s| - 1]);
      DigitOfValue(s[|s| - 1]);
    }
  }

  lemma YearIsShort(s: string)
    requires |s| == 4 && Atoi(s).Some? && Atoi(s).value >= 1
    ensures Atoi(s).value <= 9999
  {
    assert Pow10(4) == 10000 && Pow10(3) == 1000;
    if s[0] == '+' || s[0] == '-' { NumberIsShort(s[1..]); } else { NumberIsShort(s); }
  }

  /** A name that maintenance never writes is nevertheless read as one of its months. */
  lemma SignedSuffixIsRecognised()
    ensures ParseMonthSuffix("+123_01") == Some(Month(123, 1))
    ensures Suffix(Month(123, 1)) != "+123_01"
  {
    var s := "+123_01";
    SeparatorFollows("+123", "01");
    assert "+123" + "_" + "01" == s;
    assert s[..4] == "+123" && s[5..] == "01" && "+123"[1..] == "123";
    Digits123();
    ParsedFormatsBack(s);
  }

  /** A name that an operator may well give a partition of the same month. */
  lemma UnsignedSuffixIsRecognised()
    ensures ParseMonthSuffix("0123_01") == Some(Month(123, 1))
    ensures Suffix(Month(123, 1)) == "0123_01"
  {
    var s := "0123_01";
    SeparatorFollows("0123", "01");
    assert "0123" + "_" + "01" == s;
    assert s[..4] == "0123" && s[5..] == "01";
    Digits123();
    ParsedFormatsBack(s);
  }

  lemma Digits123()
    ensures Number("123") == Some(123) && Number("01") == Some(1) && Number("0123") == Some(123)
  {
    NumberAppends("01", '2');
    NumberAppends("012", '3');
    assert "01" + ['2'] == "012" && "012" + ['3'] == "0123";
    NumberAppends("", '1');
    NumberAppends("1", '2');
    NumberAppends("12", '3');
    NumberAppends("", '0');
    NumberAppends("0", '1');
    assert "" + ['1'] == "1" && "1" + ['2'] == "12" && "12" + ['3'] == "123";
    assert "" + ['0'] == "0" && "0" + ['1'] == "01";
  }
}
