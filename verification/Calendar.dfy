/** The civil calendar: dates as day numbers counted from 1970-01-01, and their text form. */
module Calendar {
  import opened Text
  import opened Usage

  datatype Date = Date(year: int, month: int, day: int)

  predicate Leap(y: int) {
    y % 4 == 0 && (y % 100 != 0 || y % 400 == 0)
  }

  function MonthLength(y: int, m: int): int
    requires 1 <= m <= 12
  {
    if m == 2 then (if Leap(y) then 29 else 28)
    else if m == 4 || m == 6 || m == 9 || m == 11 then 30 else 31
  }

  predicate Valid(d: Date) {
    1 <= d.month <= 12 && 1 <= d.day <= MonthLength(d.year, d.month)
  }

  function Next(d: Date): Date
    requires Valid(d)
  {
    if d.day < MonthLength(d.year, d.month) then d.(day := d.day + 1)
    else if d.month < 12 then Date(d.year, d.month + 1, 1)
    else Date(d.year + 1, 1, 1)
  }

  /** Days from the first day of year 0 to the first day of year `y`. */
  function YearStart(y: int): int {
    365 * y + (y + 3) / 4 - (y + 99) / 100 + (y + 399) / 400
  }

  /** Days from the first day of the year to the first day of month `m`. */
  function MonthStart(y: int, m: int): int
    requires 1 <= m <= 12
  {
    if m == 1 then 0 else MonthStart(y, m - 1) + MonthLength(y, m - 1)
  }

  const EPOCH := 719528

  /** The number of the day, with 1970-01-01 as day 0. */
  function Number(d: Date): int
    requires Valid(d)
  {
    YearStart(d.year) + MonthStart(d.year, d.month) + d.day - 1 - EPOCH
  }

  lemma Quotient4(y: int)
    ensures (y + 4) / 4 == (y + 3) / 4 + (if y % 4 == 0 then 1 else 0)
  {
  }

  lemma Quotient100(y: int)
    ensures (y + 100) / 100 == (y + 99) / 100 + (if y % 100 == 0 then 1 else 0)
  {
    var q, r := y / 100, y % 100;
    assert y == 100 * q + r;
  }

  lemma Quotient400(y: int)
    ensures (y + 400) / 400 == (y + 399) / 400 + (if y % 400 == 0 then 1 else 0)
  {
    var q, r := y / 400, y % 400;
    assert y == 400 * q + r;
  }

  lemma Multiples(y: int)
    ensures y % 100 == 0 ==> y % 4 == 0
    ensures y % 400 == 0 ==> y % 100 == 0
  {
  }

  lemma YearLength(y: int)
    ensures YearStart(y + 1) == YearStart(y) + (if Leap(y) then 366 else 365)
  {
    Quotient4(y);
    Quotient100(y);
    Quotient400(y);
    Multiples(y);
  }

  lemma YearEnd(y: int)
    ensures MonthStart(y, 12) + 31 == if Leap(y) then 366 else 365
  {
    var f := MonthLength(y, 2);
    assert MonthStart(y, 2) == 31;
    assert MonthStart(y, 3) == 31 + f;
    assert MonthStart(y, 4) == 62 + f && MonthStart(y, 5) == 92 + f;
    assert MonthStart(y, 6) == 123 + f && MonthStart(y, 7) == 153 + f;
    assert MonthStart(y, 8) == 184 + f && MonthStart(y, 9) == 215 + f;
    assert MonthStart(y, 10) == 245 + f && MonthStart(y, 11) == 276 + f;
  }

  /** The next date has the next number. */
  lemma NextNumber(d: Date)
    requires Valid(d)
    ensures Valid(Next(d)) && Number(Next(d)) == Number(d) + 1
  {
    YearLength(d.year);
    YearEnd(d.year);
  }

  lemma {:induction false} MonthsGrow(y: int, m: int, n: int)
    requires 1 <= m < n <= 12
    ensures MonthStart(y, m) + MonthLength(y, m) <= MonthStart(y, n)
    decreases n
  {
    if m + 1 < n {
      MonthsGrow(y, m, n - 1);
    }
  }

  lemma {:induction false} YearsGrow(y: int, z: int)
    requires y <= z
    ensures YearStart(y) <= YearStart(z)
    decreases z - y
  {
    if y < z {
      YearsGrow(y, z - 1);
      YearLength(z - 1);
    }
  }

  lemma WithinYear(d: Date)
    requires Valid(d)
    ensures YearStart(d.year) <= Number(d) + EPOCH < YearStart(d.year + 1)
  {
    YearLength(d.year);
    YearEnd(d.year);
    if d.month < 12 {
      MonthsGrow(d.year, d.month, 12);
    }
    if 1 < d.month {
      MonthsGrow(d.year, 1, d.month);
    }
  }

  /** Dates are ordered by year, then month, then day, and their numbers follow. */
  predicate Earlier(a: Date, b: Date) {
    a.year < b.year || (a.year == b.year && (a.month < b.month || (a.month == b.month && a.day < b.day)))
  }

  lemma NumberOrder(a: Date, b: Date)
    requires Valid(a) && Valid(b)
    ensures Number(a) < Number(b) <==> Earlier(a, b)
    ensures Number(a) == Number(b) <==> a == b
  {
    EarlierLess(a, b);
    EarlierLess(b, a);
  }

  lemma EarlierLess(a: Date, b: Date)
    requires Valid(a) && Valid(b)
    ensures Earlier(a, b) ==> Number(a) < Number(b)
  {
    if a.year < b.year {
      WithinYear(a);
      WithinYear(b);
      YearsGrow(a.year + 1, b.year);
    } else if a.year == b.year && a.month < b.month {
      MonthsGrow(a.year, a.month, b.month);
    }
  }

  // ---- from numbers to dates

  const FirstDate := Date(0, 1, 1)

  function After(n: nat): (d: Date)
    ensures Valid(d) && Number(d) == n - EPOCH
  {
    if n == 0 then FirstDate
    else
      NextNumber(After(n - 1));
      Next(After(n - 1))
  }

  /** The first and the last day number whose year has four digits. */
  const FIRST_DAY := -EPOCH
  const END_DAY := 2932897

  predicate InRange(n: int) {
    FIRST_DAY <= n < END_DAY
  }

  function DateOf(n: int): (d: Date)
    requires InRange(n)
    ensures Valid(d) && Number(d) == n
    ensures 0 <= d.year <= 9999
  {
    var d := After(n + EPOCH);
    assert 0 <= d.year <= 9999 by {
      WithinYear(d);
      if d.year < 0 {
        YearsGrow(d.year + 1, 0);
      }
      if d.year > 9999 {
        YearsGrow(10000, d.year);
      }
    }
    d
  }

  // ---- the text form YYYY-MM-DD: full-date in section 5.6 of RFC 3339

  function Digit(n: int): char
    requires 0 <= n < 10
  {
    '0' + n as char
  }

  function Digits(n: int, width: nat): (s: string)
    requires 0 <= n
    ensures |s| == width
    decreases width
  {
    if width == 0 then "" else Digits(n / 10, width - 1) + [Digit(n % 10)]
  }

  function Power(width: nat): int {
    if width == 0 then 1 else 10 * Power(width - 1)
  }

  lemma {:induction false} DigitsOrder(m: int, n: int, width: nat)
    requires 0 <= m < Power(width) && 0 <= n < Power(width)
    ensures Less(Digits(m, width), Digits(n, width)) <==> m < n
    ensures Digits(m, width) == Digits(n, width) <==> m == n
    decreases width
  {
    if width != 0 {
      DigitsOrder(m / 10, n / 10, width - 1);
      var a, b := [Digit(m % 10)], [Digit(n % 10)];
      LessConcat(Digits(m / 10, width - 1), a, Digits(n / 10, width - 1), b);
      assert Less(a, b) <==> m % 10 < n % 10;
      assert a == b <==> m % 10 == n % 10;
      var s, t := Digits(m, width), Digits(n, width);
      assert s[..width - 1] == Digits(m / 10, width - 1) && t[..width - 1] == Digits(n / 10, width - 1);
      assert s[width - 1] == a[0] && t[width - 1] == b[0];
    }
  }

  function FormatDate(d: Date): string
    requires Valid(d) && 0 <= d.year
  {
    Digits(d.year, 4) + ("-" + (Digits(d.month, 2) + ("-" + Digits(d.day, 2))))
  }

  /** The text of the day with number `n`. */
  function Format(n: int): string
    requires InRange(n)
  {
    FormatDate(DateOf(n))
  }

  lemma DashOrder(s: string, t: string)
    ensures Less("-" + s, "-" + t) <==> Less(s, t)
  {
    assert ("-" + s)[1..] == s && ("-" + t)[1..] == t;
  }

  /** Texts of dates are ordered as the dates are. */
  lemma FormatOrder(m: int, n: int)
    requires InRange(m) && InRange(n)
    ensures Less(Format(m), Format(n)) <==> m < n
    ensures Format(m) == Format(n) <==> m == n
  {
    var a, b := DateOf(m), DateOf(n);
    NumberOrder(a, b);
    FormatDateOrder(a, b);
    FormatDateOrder(b, a);
    Trichotomy(Format(m), Format(n));
  }

  lemma FormatDateOrder(a: Date, b: Date)
    requires Valid(a) && Valid(b) && 0 <= a.year <= 9999 && 0 <= b.year <= 9999
    ensures Less(FormatDate(a), FormatDate(b)) <==> Earlier(a, b)
  {
    assert Power(2) == 100 && Power(4) == 10000;
    DigitsOrder(a.year, b.year, 4);
    DigitsOrder(a.month, b.month, 2);
    DigitsOrder(a.day, b.day, 2);
    var (da, db) := (Digits(a.day, 2), Digits(b.day, 2));
    var (ma, mb) := (Digits(a.month, 2) + ("-" + da), Digits(b.month, 2) + ("-" + db));
    DashOrder(da, db);
    LessConcat(Digits(a.month, 2), "-" + da, Digits(b.month, 2), "-" + db);
    DashOrder(ma, mb);
    LessConcat(Digits(a.year, 4), "-" + ma, Digits(b.year, 4), "-" + mb);
  }

  // ---- reading a date back

  predicate IsDigit(c: char) {
    '0' <= c <= '9'
  }

  predicate AllDigits(s: string) {
    forall i | 0 <= i < |s| :: IsDigit(s[i])
  }

  function Value(s: string): (n: int)
    requires AllDigits(s)
    ensures 0 <= n
  {
    if s == "" then 0 else 10 * Value(s[..|s| - 1]) + (s[|s| - 1] - '0') as int
  }

  lemma {:induction false} ValueDigits(n: int, width: nat)
    requires 0 <= n < Power(width)
    ensures AllDigits(Digits(n, width)) && Value(Digits(n, width)) == n
    decreases width
  {
    if width != 0 {
      ValueDigits(n / 10, width - 1);
      assert Digits(n, width)[..width - 1] == Digits(n / 10, width - 1);
    }
  }

  lemma {:induction false} DigitsValue(s: string)
    requires AllDigits(s)
    ensures Value(s) < Power(|s|) && Digits(Value(s), |s|) == s
  {
    if s != "" {
      var init, c := s[..|s| - 1], s[|s| - 1];
      DigitsValue(init);
      assert Value(s) / 10 == Value(init) && Value(s) % 10 == (c - '0') as int;
      assert s == init + [c];
    }
  }

  /** `time.ParseInLocation` for the layout 2006-01-02: the day number of a well-formed, existing date. */
  function Parse(s: string): Option<int> {
    if |s| == 10 && s[4] == '-' == s[7] && AllDigits(s[..4]) && AllDigits(s[5..7]) && AllDigits(s[8..]) then
      var d := Date(Value(s[..4]), Value(s[5..7]), Value(s[8..]));
      if Valid(d) then Some(Number(d)) else None
    else None
  }

  lemma Slices(a: string, b: string, c: string, s: string)
    requires |a| == 4 && |b| == |c| == 2 && s == a + ("-" + (b + ("-" + c)))
    ensures |s| == 10 && s[4] == '-' == s[7] && s[..4] == a && s[5..7] == b && s[8..] == c
  {
  }

  lemma ParseFormat(n: int)
    requires InRange(n)
    ensures Parse(Format(n)) == Some(n)
  {
    var d := DateOf(n);
    assert Power(2) == 100 && Power(4) == 10000;
    ValueDigits(d.year, 4);
    ValueDigits(d.month, 2);
    ValueDigits(d.day, 2);
    Slices(Digits(d.year, 4), Digits(d.month, 2), Digits(d.day, 2), FormatDate(d));
  }

  lemma {:induction false} ValueBound(s: string)
    requires AllDigits(s)
    ensures Value(s) < Power(|s|)
  {
    if s != "" {
      ValueBound(s[..|s| - 1]);
    }
  }

  /** A valid date with a four-digit year is the date of its number. */
  lemma NumberRange(d: Date)
    requires Valid(d) && 0 <= d.year <= 9999
    ensures InRange(Number(d)) && DateOf(Number(d)) == d
  {
    WithinYear(d);
    YearsGrow(0, d.year);
    YearsGrow(d.year + 1, 10000);
    NumberOrder(d, DateOf(Number(d)));
  }

  /** Parsing accepts exactly the texts that formatting produces. */
  lemma FormatParse(s: string)
    requires Parse(s).Some?
    ensures InRange(Parse(s).value) && Format(Parse(s).value) == s
  {
    var d := Date(Value(s[..4]), Value(s[5..7]), Value(s[8..]));
    assert Power(4) == 10000;
    ValueBound(s[..4]);
    NumberRange(d);
    DigitsValue(s[..4]);
    DigitsValue(s[5..7]);
    DigitsValue(s[8..]);
    assert FormatDate(d) == s[..4] + ("-" + (s[5..7] + ("-" + s[8..]))) == s;
  }

  // ---- fixed points

  /** Day 0 is 1970-01-01, and day 19844 is 2024-05-01. */
  lemma KnownDates()
    ensures DateOf(0) == Date(1970, 1, 1) && Format(0) == "1970-01-01" && Format(19844) == "2024-05-01"
  {
    hide Digits, DateOf, Format, Number;
    EpochDate();
    MayFirst();
  }

  lemma EpochDate()
    ensures DateOf(0) == Date(1970, 1, 1) && Format(0) == "1970-01-01"
  {
    assert MonthStart(1970, 1) == 0;
    NumberIs(Date(1970, 1, 1), 0);
    FormatIs();
  }

  /** Years divisible by 4 have a leap day, those of full centuries only when divisible by 400. */
  lemma LeapDays()
    ensures Next(Date(2024, 2, 28)) == Date(2024, 2, 29) && Next(Date(2023, 2, 28)) == Date(2023, 3, 1)
    ensures Next(Date(2000, 2, 28)) == Date(2000, 2, 29) && Next(Date(1900, 2, 28)) == Date(1900, 3, 1)
  {
  }

  lemma NumberIs(d: Date, n: int)
    requires Valid(d) && Number(d) == n && InRange(n)
    ensures DateOf(n) == d
  {
    NumberOrder(d, DateOf(n));
    NumberOrder(DateOf(n), d);
    hide Number, Valid, DateOf;
  }

  lemma FormatIs()
    ensures FormatDate(Date(1970, 1, 1)) == "1970-01-01"
  {
    assert Digits(1, 1) == "1" && Digits(19, 2) == "19" && Digits(197, 3) == "197" && Digits(1970, 4) == "1970";
    assert Digits(0, 1) == "0" && Digits(1, 2) == "01";
  }

  lemma MayFirst()
    ensures Format(19844) == "2024-05-01"
  {
    assert MonthStart(2024, 2) == 31 && MonthStart(2024, 3) == 60 && MonthStart(2024, 4) == 91 && MonthStart(2024, 5) == 121;
    NumberIs(Date(2024, 5, 1), 19844);
    assert Digits(2, 1) == "2" && Digits(20, 2) == "20" && Digits(202, 3) == "202" && Digits(2024, 4) == "2024";
    assert Digits(0, 1) == "0" && Digits(5, 2) == "05" && Digits(1, 2) == "01";
  }
}
