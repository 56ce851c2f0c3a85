/** UTC timestamps to whole seconds, and how they compare. */
module Calendar {
  import opened Wrappers

  const DASH: byte := 45
  const COLON: byte := 58
  const TEE: byte := 84
  const ZED: byte := 90

  datatype Stamp = Stamp(year: nat, month: nat, day: nat, hour: nat, minute: nat, second: nat)

  predicate IsDigit(b: byte) { 48 <= b <= 57 }

  /** Reads digits from the left. */
  function Number(digits: Bytes): (r: Option<nat>)
    ensures r.Some? <==> forall i | 0 <= i < |digits| :: IsDigit(digits[i])
  {
    if digits == [] then Some(0)
    else
      var last := digits[|digits| - 1];
      var rest := Number(digits[..|digits| - 1]);
      assert forall i | 0 <= i < |digits| - 1 :: digits[i] == digits[..|digits| - 1][i];
      if rest.Some? && IsDigit(last) then Some(rest.value * 10 + (last as nat - 48)) else None
  }

  predicate Leap(year: nat) { year % 4 == 0 && (year % 100 != 0 || year % 400 == 0) }

  function DaysInMonth(year: nat, month: nat): nat {
    if month == 2 then if Leap(year) then 29 else 28
    else if month == 4 || month == 6 || month == 9 || month == 11 then 30
    else 31
  }

  predicate Exists(s: Stamp) {
    && s.year >= 1
    && 1 <= s.month <= 12
    && 1 <= s.day <= DaysInMonth(s.year, s.month)
    && s.hour <= 23 && s.minute <= 59 && s.second <= 59
  }

  function MonthOffset(month: nat): nat
    requires 1 <= month <= 12
  {
    [0, 31, 59, 90, 120, 151, 181, 212, 243, 273, 304, 334][month - 1]
  }

  function Days(year: nat, month: nat, day: nat): nat
    requires year >= 1 && 1 <= month <= 12 && day >= 1
  {
    var completed := year - 1;
    completed * 365 + completed / 4 - completed / 100 + completed / 400
    + MonthOffset(month) + day - 1
    + (if month > 2 && Leap(year) then 1 else 0)
  }

  function Seconds(s: Stamp): nat
    requires Exists(s)
  {
    Days(s.year, s.month, s.day) * 86400 + s.hour * 3600 + s.minute * 60 + s.second
  }

  predicate HasShape(b: Bytes) {
    && |b| == 20
    && b[4] == DASH && b[7] == DASH && b[10] == TEE && b[13] == COLON && b[16] == COLON && b[19] == ZED
  }

  function Parsed(b: Bytes): Option<Stamp> {
    if !HasShape(b) then None
    else
      var year, month, day := Number(b[0..4]), Number(b[5..7]), Number(b[8..10]);
      var hour, minute, second := Number(b[11..13]), Number(b[14..16]), Number(b[17..19]);
      if year.None? || month.None? || day.None? || hour.None? || minute.None? || second.None? then None
      else
        var s := Stamp(year.value, month.value, day.value, hour.value, minute.value, second.value);
        if Exists(s) then Some(s) else None
  }

  /** The second count of an accepted timestamp. */
  function Timestamp(b: Bytes): Option<nat> {
    match Parsed(b)
    case None => None
    case Some(s) => Some(Seconds(s))
  }

  // The day count is the sum of the lengths of the years and months before

  predicate LeapYear(year: nat) { year % 400 == 0 || (year % 4 == 0 && year % 100 != 0) }

  function MonthLength(year: nat, month: nat): nat
    requires 1 <= month <= 12
  {
    [31, if LeapYear(year) then 29 else 28, 31, 30, 31, 30, 31, 31, 30, 31, 30, 31][month - 1]
  }

  function DaysInYear(year: nat): nat { if LeapYear(year) then 366 else 365 }

  function DaysBeforeYear(year: nat): nat
    requires year >= 1
  {
    if year == 1 then 0 else DaysBeforeYear(year - 1) + DaysInYear(year - 1)
  }

  function DaysBeforeMonth(year: nat, month: nat): nat
    requires 1 <= month <= 12
  {
    if month == 1 then 0 else DaysBeforeMonth(year, month - 1) + MonthLength(year, month - 1)
  }

  lemma MonthsAre(year: nat, month: nat)
    requires 1 <= month <= 12
    ensures DaysInMonth(year, month) == MonthLength(year, month)
    ensures Leap(year) <==> LeapYear(year)
  {
    if year % 400 == 0 { MultipleOf(year, 400, 100); MultipleOf(year, 100, 4); }
  }

  lemma QuotientStep(n: nat, d: nat)
    requires n >= 1 && (d == 4 || d == 100 || d == 400)
    ensures n / d == (n - 1) / d + if n % d == 0 then 1 else 0
  {
    if d == 4 {
      assert n / 4 == (n - 1) / 4 + if n % 4 == 0 then 1 else 0;
    } else if d == 100 {
      assert n / 100 == (n - 1) / 100 + if n % 100 == 0 then 1 else 0;
    } else {
      assert n / 400 == (n - 1) / 400 + if n % 400 == 0 then 1 else 0;
    }
  }

  lemma {:induction false} MultipleOf(n: nat, d: nat, e: nat)
    requires (d == 100 && e == 4) || (d == 400 && e == 100)
    ensures n % d == 0 ==> n % e == 0
  {
    if n % d == 0 {
      var q := n / d;
      assert n == d * q;
      if d == 100 {
        assert n == 4 * (25 * q);
      } else {
        assert n == 100 * (4 * q);
      }
    }
  }

  lemma {:induction false} YearStep(n: nat)
    requires n >= 1
    ensures DaysInYear(n) == 365 + (n / 4 - (n - 1) / 4) - (n / 100 - (n - 1) / 100) + (n / 400 - (n - 1) / 400)
  {
    QuotientStep(n, 4);
    QuotientStep(n, 100);
    QuotientStep(n, 400);
    MultipleOf(n, 100, 4);
    MultipleOf(n, 400, 100);
  }

  lemma {:induction false} YearsClosedForm(year: nat)
    requires year >= 1
    ensures var n := year - 1; DaysBeforeYear(year) == n * 365 + n / 4 - n / 100 + n / 400
  {
    if year > 1 {
      hide DaysInYear;
      YearsClosedForm(year - 1);
      YearStep(year - 1);
    }
  }

  lemma FirstMonths(year: nat)
    ensures var d := MonthLength(year, 2);
            && DaysBeforeMonth(year, 1) == 0 && DaysBeforeMonth(year, 2) == 31 && DaysBeforeMonth(year, 3) == 31 + d
            && DaysBeforeMonth(year, 4) == 62 + d && DaysBeforeMonth(year, 5) == 92 + d
            && DaysBeforeMonth(year, 6) == 123 + d && DaysBeforeMonth(year, 7) == 153 + d
  {
    hide LeapYear;
    assert DaysBeforeMonth(year, 1) == 0;
    assert DaysBeforeMonth(year, 3) == 31 + MonthLength(year, 2);
    assert DaysBeforeMonth(year, 5) == 92 + MonthLength(year, 2);
  }

  lemma LastMonths(year: nat)
    ensures var d := MonthLength(year, 2);
            && DaysBeforeMonth(year, 8) == 184 + d && DaysBeforeMonth(year, 9) == 215 + d
            && DaysBeforeMonth(year, 10) == 245 + d && DaysBeforeMonth(year, 11) == 276 + d
            && DaysBeforeMonth(year, 12) == 306 + d
  {
    hide LeapYear;
    FirstMonths(year);
    assert DaysBeforeMonth(year, 9) == 215 + MonthLength(year, 2);
    assert DaysBeforeMonth(year, 11) == 276 + MonthLength(year, 2);
  }

  lemma MonthsClosedForm(year: nat, month: nat)
    requires 1 <= month <= 12
    ensures DaysBeforeMonth(year, month) == MonthOffset(month) + if month > 2 && LeapYear(year) then 1 else 0
    ensures DaysBeforeMonth(year, month) + MonthLength(year, month) <= DaysInYear(year)
    ensures month == 12 ==> DaysBeforeMonth(year, month) + MonthLength(year, month) == DaysInYear(year)
  {
    hide DaysBeforeMonth, LeapYear;
    FirstMonths(year);
    LastMonths(year);
  }

  /** The closed form counts the days from the first of January of year 1. */
  lemma DaysIsTheSum(year: nat, month: nat, day: nat)
    requires year >= 1 && 1 <= month <= 12 && day >= 1
    ensures Days(year, month, day) == DaysBeforeYear(year) + DaysBeforeMonth(year, month) + day - 1
  {
    hide Leap, LeapYear, DaysBeforeMonth;
    YearsClosedForm(year);
    MonthsClosedForm(year, month);
    MonthsAre(year, month);
  }

  // Order

  lemma {:induction false} LaterYearStartsLater(a: nat, b: nat)
    requires 1 <= a < b
    ensures DaysBeforeYear(a) + DaysInYear(a) <= DaysBeforeYear(b)
  {
    if a < b - 1 {
      LaterYearStartsLater(a, b - 1);
    }
  }

  lemma {:induction false} LaterMonthStartsLater(year: nat, a: nat, b: nat)
    requires 1 <= a < b <= 12
    ensures DaysBeforeMonth(year, a) + MonthLength(year, a) <= DaysBeforeMonth(year, b)
  {
    if a < b - 1 {
      LaterMonthStartsLater(year, a, b - 1);
    }
  }

  predicate DateBefore(s: Stamp, t: Stamp) {
    || s.year < t.year
    || (s.year == t.year && (s.month < t.month || (s.month == t.month && s.day < t.day)))
  }

  predicate SameDate(s: Stamp, t: Stamp) { s.year == t.year && s.month == t.month && s.day == t.day }

  predicate Before(s: Stamp, t: Stamp) {
    || DateBefore(s, t)
    || (SameDate(s, t)
        && (s.hour < t.hour
            || (s.hour == t.hour && (s.minute < t.minute || (s.minute == t.minute && s.second < t.second)))))
  }

  lemma {:induction false} LaterDateLaterDay(s: Stamp, t: Stamp)
    requires Exists(s) && Exists(t) && DateBefore(s, t)
    ensures Days(s.year, s.month, s.day) < Days(t.year, t.month, t.day)
  {
    hide Days, MonthLength, DaysBeforeMonth, DaysBeforeYear, DaysInMonth, LeapYear;
    DaysIsTheSum(s.year, s.month, s.day);
    DaysIsTheSum(t.year, t.month, t.day);
    MonthsAre(s.year, s.month);
    if s.year < t.year {
      MonthsClosedForm(s.year, s.month);
      LaterYearStartsLater(s.year, t.year);
    } else if s.month < t.month {
      LaterMonthStartsLater(s.year, s.month, t.month);
    }
  }

  lemma {:induction false} LaterIsMoreSeconds(s: Stamp, t: Stamp)
    requires Exists(s) && Exists(t) && Before(s, t)
    ensures Seconds(s) < Seconds(t)
  {
    hide Days;
    if DateBefore(s, t) {
      LaterDateLaterDay(s, t);
    }
  }

  lemma {:induction false} SecondsOrder(s: Stamp, t: Stamp)
    requires Exists(s) && Exists(t)
    ensures Before(s, t) <==> Seconds(s) < Seconds(t)
    ensures s == t <==> Seconds(s) == Seconds(t)
  {
    hide Seconds, Exists;
    if Before(s, t) {
      LaterIsMoreSeconds(s, t);
    } else if Before(t, s) {
      LaterIsMoreSeconds(t, s);
    } else {
      assert s == t;
    }
  }

  /** Byte strings compare from the left, a proper prefix first. */
  predicate Less(a: Bytes, b: Bytes) {
    if b == [] then false
    else if a == [] then true
    else a[0] < b[0] || (a[0] == b[0] && Less(a[1..], b[1..]))
  }

  /** `a` and `b` first differ at `k`: there `a` ends, or has the smaller byte. */
  predicate BeforeAt(a: Bytes, b: Bytes, k: nat) {
    k <= |a| && k < |b| && a[..k] == b[..k] && (k < |a| ==> a[k] < b[k])
  }

  ghost predicate Precedes(a: Bytes, b: Bytes) { exists k: nat :: BeforeAt(a, b, k) }

  lemma {:induction false} LessIff(a: Bytes, b: Bytes)
    ensures Less(a, b) <==> Precedes(a, b)
  {
    if b != [] && a == [] {
      assert BeforeAt(a, b, 0);
    } else if b != [] {
      LessIff(a[1..], b[1..]);
      if a[0] < b[0] { assert BeforeAt(a, b, 0); }
      if a[0] == b[0] && Less(a[1..], b[1..]) {
        var k: nat :| BeforeAt(a[1..], b[1..], k);
        assert a[..k + 1] == [a[0]] + a[1..][..k] && b[..k + 1] == [b[0]] + b[1..][..k];
        assert BeforeAt(a, b, k + 1);
      }
      if k: nat :| BeforeAt(a, b, k) {
        if k > 0 {
          assert a[..k][0] == b[..k][0];
          assert a[1..][..k - 1] == a[..k][1..] && b[1..][..k - 1] == b[..k][1..];
          assert BeforeAt(a[1..], b[1..], k - 1);
        }
      }
    }
  }

  lemma {:induction false} LessSplit(a: Bytes, b: Bytes, n: nat)
    requires n <= |a| && n <= |b|
    ensures Less(a, b) <==> Less(a[..n], b[..n]) || (a[..n] == b[..n] && Less(a[n..], b[n..]))
  {
    if n == 0 {
      assert a[0..] == a && b[0..] == b;
    } else {
      LessSplit(a[1..], b[1..], n - 1);
      assert a[..n][1..] == a[1..][..n - 1] && b[..n][1..] == b[1..][..n - 1];
      assert a[1..][n - 1..] == a[n..] && b[1..][n - 1..] == b[n..];
      assert a[..n] == [a[0]] + a[1..][..n - 1] && b[..n] == [b[0]] + b[1..][..n - 1];
    }
  }

  /** Equally long digit strings compare as numbers. */
  lemma {:induction false} LessIsNumeric(a: Bytes, b: Bytes)
    requires |a| == |b| && Number(a).Some? && Number(b).Some?
    ensures Less(a, b) <==> Number(a).value < Number(b).value
    ensures a == b <==> Number(a) == Number(b)
  {
    if a != [] {
      var n := |a| - 1;
      LessIsNumeric(a[..n], b[..n]);
      LessSplit(a, b, n);
      assert a == a[..n] + [a[n]] && b == b[..n] + [b[n]];
      assert a[n..] == [a[n]] && b[n..] == [b[n]];
      assert Less([a[n]], [b[n]]) <==> a[n] < b[n];
    }
  }

  /** A number field and the separator after it. */
  lemma LessField(a: Bytes, b: Bytes, start: nat, n: nat)
    requires start + n < |a| == |b| && a[start + n] == b[start + n]
    requires Number(a[start..start + n]).Some? && Number(b[start..start + n]).Some?
    ensures var x, y := Number(a[start..start + n]).value, Number(b[start..start + n]).value;
            var c, d := a[start + n + 1..], b[start + n + 1..];
            && (Less(a[start..], b[start..]) <==> x < y || (x == y && Less(c, d)))
            && (a[start..] == b[start..] <==> x == y && c == d)
  {
    hide Number;
    var c, d := a[start..], b[start..];
    LessSplit(c, d, n);
    assert c[..n] == a[start..start + n] && d[..n] == b[start..start + n];
    LessIsNumeric(c[..n], d[..n]);
    assert c[n..] == [a[start + n]] + a[start + n + 1..];
    assert d[n..] == [b[start + n]] + b[start + n + 1..];
    assert c == c[..n] + c[n..] && d == d[..n] + d[n..];
  }

  lemma StringOrder(a: Bytes, b: Bytes)
    requires Parsed(a).Some? && Parsed(b).Some?
    ensures Less(a, b) <==> Before(Parsed(a).value, Parsed(b).value)
    ensures Parsed(a) == Parsed(b) <==> a == b
  {
    hide Number, Less;
    LessField(a, b, 0, 4);
    LessField(a, b, 5, 2);
    LessField(a, b, 8, 2);
    LessField(a, b, 11, 2);
    LessField(a, b, 14, 2);
    LessField(a, b, 17, 2);
    assert a[20..] == [] && b[20..] == [];
    assert a[0..] == a && b[0..] == b;
    NothingIsLess();
  }

  lemma NothingIsLess()
    ensures !Less([], [])
  {
  }

  /** Accepted timestamps compare as strings exactly as their second counts do. */
  lemma {:induction false} TimestampOrder(a: Bytes, b: Bytes)
    requires Timestamp(a).Some? && Timestamp(b).Some?
    ensures Less(a, b) <==> Timestamp(a).value < Timestamp(b).value
    ensures a == b <==> Timestamp(a) == Timestamp(b)
  {
    hide Seconds, Exists, Less, Before;
    StringOrder(a, b);
    SecondsOrder(Parsed(a).value, Parsed(b).value);
  }

  function NextDay(s: Stamp): Stamp
    requires 1 <= s.month <= 12
  {
    if s.day < MonthLength(s.year, s.month) then s.(day := s.day + 1)
    else if s.month < 12 then s.(month := s.month + 1, day := 1)
    else s.(year := s.year + 1, month := 1, day := 1)
  }

  /** Every day has 86400 seconds. */
  lemma {:induction false} DaysAreEqual(s: Stamp)
    requires Exists(s)
    ensures Exists(NextDay(s)) && Seconds(NextDay(s)) == Seconds(s) + 86400
  {
    hide Days, MonthLength, DaysBeforeMonth, DaysBeforeYear, DaysInMonth, LeapYear;
    var t := NextDay(s);
    MonthsAre(s.year, s.month);
    MonthsAre(t.year, t.month);
    NextDayFollows(s);
  }

  lemma NextDayFollows(s: Stamp)
    requires Exists(s)
    ensures var t := NextDay(s);
            && 1 <= t.month <= 12 && Days(t.year, t.month, t.day) == Days(s.year, s.month, s.day) + 1
            && 1 <= t.day <= MonthLength(t.year, t.month)
  {
    hide Days, LeapYear, DaysInMonth;
    var t := NextDay(s);
    MonthsAre(s.year, s.month);
    DaysIsTheSum(s.year, s.month, s.day);
    DaysIsTheSum(t.year, t.month, t.day);
    MonthsClosedForm(s.year, s.month);
  }

  // A timestamp byte by byte

  predicate DigitsAt(b: Bytes, i: nat, n: nat) {
    i + n <= |b| && forall k | i <= k < i + n :: 48 <= b[k] <= 57
  }

  function TwoAt(b: Bytes, i: nat): nat
    requires DigitsAt(b, i, 2)
  {
    10 * (b[i] as nat - 48) + (b[i + 1] as nat - 48)
  }

  /** Four digits, a dash, two, a dash, two, T, two, a colon, two, a colon, two and Z. */
  predicate IsWritten(b: Bytes) {
    && |b| == 20 && b[4] == 45 && b[7] == 45 && b[10] == 84 && b[13] == 58 && b[16] == 58 && b[19] == 90
    && DigitsAt(b, 0, 2) && DigitsAt(b, 2, 2) && DigitsAt(b, 5, 2) && DigitsAt(b, 8, 2)
    && DigitsAt(b, 11, 2) && DigitsAt(b, 14, 2) && DigitsAt(b, 17, 2)
  }

  predicate IsTime(year: nat, month: nat, day: nat, hour: nat, minute: nat, second: nat) {
    && year >= 1 && 1 <= month <= 12 && 1 <= day <= MonthLength(year, month)
    && hour < 24 && minute < 60 && second < 60
  }

  lemma NumberOfOne(b: byte)
    ensures Number([b]) == if 48 <= b <= 57 then Some(b as nat - 48) else None
  {
    assert [b][..0] == [];
    assert Number([]) == Some(0);
  }

  lemma NumberOfTwo(b: Bytes)
    requires |b| == 2
    ensures Number(b).Some? <==> DigitsAt(b, 0, 2)
    ensures Number(b).Some? ==> Number(b).value == TwoAt(b, 0)
  {
    NumberOfOne(b[0]);
    assert b[..1] == [b[0]];
  }

  lemma NumberOfFour(b: Bytes)
    requires |b| == 4
    ensures Number(b).Some? <==> DigitsAt(b, 0, 2) && DigitsAt(b, 2, 2)
    ensures Number(b).Some? ==> Number(b).value == 100 * TwoAt(b, 0) + TwoAt(b, 2)
  {
    NumberOfTwo(b[..2]);
    assert b[..3][..2] == b[..2];
    assert Number(b[..3]).Some? <==> Number(b[..2]).Some? && 48 <= b[2] <= 57;
  }

  lemma FieldIs(b: Bytes, i: nat)
    requires i + 2 <= |b|
    ensures Number(b[i..i + 2]).Some? <==> DigitsAt(b, i, 2)
    ensures Number(b[i..i + 2]).Some? ==> Number(b[i..i + 2]).value == TwoAt(b, i)
  {
    hide Number;
    var field := b[i..i + 2];
    NumberOfTwo(field);
    assert field[0] == b[i] && field[1] == b[i + 1];
  }

  lemma YearIs(b: Bytes)
    requires |b| >= 4
    ensures Number(b[0..4]).Some? <==> DigitsAt(b, 0, 2) && DigitsAt(b, 2, 2)
    ensures Number(b[0..4]).Some? ==> Number(b[0..4]).value == 100 * TwoAt(b, 0) + TwoAt(b, 2)
  {
    hide Number;
    var field := b[0..4];
    NumberOfFour(field);
    assert field[0] == b[0] && field[1] == b[1] && field[2] == b[2] && field[3] == b[3];
  }

  lemma ParsedIs(b: Bytes)
    ensures Parsed(b).Some? ==> IsWritten(b)
    ensures IsWritten(b) ==>
              var s := Stamp(100 * TwoAt(b, 0) + TwoAt(b, 2), TwoAt(b, 5), TwoAt(b, 8), TwoAt(b, 11), TwoAt(b, 14), TwoAt(b, 17));
              Parsed(b) == if Exists(s) then Some(s) else None
  {
    hide Number, TwoAt, DigitsAt, Exists;
    if HasShape(b) {
      YearIs(b);
      FieldIs(b, 5);
      FieldIs(b, 8);
      FieldIs(b, 11);
      FieldIs(b, 14);
      FieldIs(b, 17);
    }
  }

  /** Which texts are timestamps, and their second count: the days of the years, months and days
      before, and the seconds of the day. */
  lemma TimestampIff(b: Bytes, n: nat)
    ensures Timestamp(b) == Some(n) <==>
              && IsWritten(b)
              && var year, month, day := 100 * TwoAt(b, 0) + TwoAt(b, 2), TwoAt(b, 5), TwoAt(b, 8);
              && var hour, minute, second := TwoAt(b, 11), TwoAt(b, 14), TwoAt(b, 17);
              && IsTime(year, month, day, hour, minute, second)
              && n == (DaysBeforeYear(year) + DaysBeforeMonth(year, month) + day - 1) * 86400
                      + hour * 3600 + minute * 60 + second
  {
    hide Number, TwoAt, DigitsAt, Days, DaysBeforeYear, DaysBeforeMonth, MonthLength, DaysInMonth;
    ParsedIs(b);
    if IsWritten(b) {
      var year, month, day := 100 * TwoAt(b, 0) + TwoAt(b, 2), TwoAt(b, 5), TwoAt(b, 8);
      if year >= 1 && 1 <= month <= 12 {
        MonthsAre(year, month);
        if day >= 1 { DaysIsTheSum(year, month, day); }
      }
    }
  }

  function Pow10(n: nat): nat { if n == 0 then 1 else 10 * Pow10(n - 1) }

  lemma {:induction false} NumberIsBounded(digits: Bytes)
    requires Number(digits).Some?
    ensures Number(digits).value < Pow10(|digits|)
  {
    if digits != [] {
      NumberIsBounded(digits[..|digits| - 1]);
    }
  }

  /** No accepted timestamp needs more than 64 bits. */
  lemma TimestampFits(b: Bytes)
    requires Timestamp(b).Some?
    ensures Timestamp(b).value <= 315537897599 < 0x7FFF_FFFF_FFFF_FFFF
  {
    hide Number;
    var s := Parsed(b).value;
    var last := Stamp(9999, 12, 31, 23, 59, 59);
    NumberIsBounded(b[0..4]);
    assert Pow10(4) == 10000;
    assert Seconds(last) == 315537897599;
    if s != last {
      assert Before(s, last);
      LaterIsMoreSeconds(s, last);
    }
  }
}
