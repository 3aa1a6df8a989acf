/** The proleptic Gregorian calendar as ECMAScript computes it: day numbers since 1 January 1970. */
module Calendar {

  /** A calendar date. Months count from 0, as JavaScript's do. */
  datatype Civil = Civil(year: int, month: int, date: int)

  predicate Leap(year: int) {
    year % 4 == 0 && (year % 100 != 0 || year % 400 == 0)
  }

  function YearLength(year: int): int {
    if Leap(year) then 366 else 365
  }

  function MonthLength(year: int, month: int): int {
    if month == 1 then (if Leap(year) then 29 else 28)
    else if month in {3, 5, 8, 10} then 30
    else 31
  }

  predicate Valid(c: Civil) {
    0 <= c.month < 12 && 1 <= c.date <= MonthLength(c.year, c.month)
  }

  function DaysBeforeMonth(year: int, month: int): int
    requires 0 <= month <= 12
  {
    if month <= 1 then 31 * month
    else
      var plain :=
        if month == 2 then 59 else if month == 3 then 90 else if month == 4 then 120
        else if month == 5 then 151 else if month == 6 then 181 else if month == 7 then 212
        else if month == 8 then 243 else if month == 9 then 273 else if month == 10 then 304
        else if month == 11 then 334 else 365;
      plain + if Leap(year) then 1 else 0
  }

  /** The day number of 1 January. */
  function DayFromYear(year: int): int {
    365 * (year - 1970) + (year - 1969) / 4 - (year - 1901) / 100 + (year - 1601) / 400
  }

  predicate MonthInRange(c: Civil) {
    0 <= c.month < 12
  }

  function DayOf(c: Civil): int
    requires MonthInRange(c)
  {
    DayFromYear(c.year) + DaysBeforeMonth(c.year, c.month) + c.date - 1
  }

  /** The day number of a year, month and date that may be out of range; excess rolls over. */
  function MakeDay(year: int, month: int, date: int): int {
    DayOf(Civil(year + month / 12, month % 12, date))
  }

  lemma MakeDayInRange(c: Civil)
    requires MonthInRange(c)
    ensures MakeDay(c.year, c.month, c.date) == DayOf(c)
  {
    assert c.month / 12 == 0 && c.month % 12 == c.month;
  }

  predicate Earlier(a: Civil, b: Civil) {
    || a.year < b.year
    || (a.year == b.year && (a.month < b.month || (a.month == b.month && a.date < b.date)))
  }

  predicate NotLater(a: Civil, b: Civil) {
    a == b || Earlier(a, b)
  }

  lemma QuotientStep(x: int, k: int)
    requires k in {4, 100, 400}
    ensures (x + 1) / k == x / k + if (x + 1) % k == 0 then 1 else 0
  {
  }

  lemma YearStep(year: int)
    ensures DayFromYear(year + 1) == DayFromYear(year) + YearLength(year)
  {
    QuotientStep(year - 1969, 4);
    QuotientStep(year - 1901, 100);
    QuotientStep(year - 1601, 400);
  }

  lemma {:induction false} YearsIncrease(a: int, b: int)
    requires a <= b
    ensures DayFromYear(a) + 365 * (b - a) <= DayFromYear(b)
    decreases b - a
  {
    if a < b {
      YearsIncrease(a, b - 1);
      YearStep(b - 1);
    }
  }

  lemma MonthTable(year: int)
    ensures DaysBeforeMonth(year, 12) == YearLength(year)
  {
  }

  lemma MonthStep(year: int, month: int)
    requires 0 <= month < 12
    ensures DaysBeforeMonth(year, month) + MonthLength(year, month) == DaysBeforeMonth(year, month + 1)
  {
  }

  lemma {:induction false} MonthsIncrease(year: int, a: int, b: int)
    requires 0 <= a < b <= 12
    ensures DaysBeforeMonth(year, a) + MonthLength(year, a) <= DaysBeforeMonth(year, b)
  {
    if a + 1 < b {
      MonthsIncrease(year, a, b - 1);
      MonthStep(year, b - 1);
    } else {
      MonthStep(year, a);
    }
  }

  lemma DayInYear(c: Civil)
    requires Valid(c)
    ensures DayFromYear(c.year) <= DayOf(c) < DayFromYear(c.year + 1)
    ensures DaysBeforeMonth(c.year, c.month) >= 0
  {
    MonthTable(c.year);
    MonthsIncrease(c.year, c.month, 12);
    if c.month > 0 { MonthsIncrease(c.year, 0, c.month); }
    YearStep(c.year);
  }

  lemma EarlierDay(a: Civil, b: Civil)
    requires Valid(a) && Valid(b) && Earlier(a, b)
    ensures DayOf(a) < DayOf(b)
  {
    DayInYear(a);
    DayInYear(b);
    if a.year < b.year {
      YearsIncrease(a.year + 1, b.year);
    } else if a.month < b.month {
      MonthsIncrease(a.year, a.month, b.month);
    }
  }

  /** Day numbers order dates exactly as the calendar does. */
  lemma DayOrder(a: Civil, b: Civil)
    requires Valid(a) && Valid(b)
    ensures DayOf(a) <= DayOf(b) <==> NotLater(a, b)
  {
    if Earlier(a, b) { EarlierDay(a, b); }
    else if a != b { EarlierDay(b, a); }
  }

  // ─── Reading the fields back from a day number ─────────────────────────────

  /** Walks from `year` to the one whose days include `day`. */
  function YearNear(day: int, year: int): (y: int)
    ensures DayFromYear(y) <= day < DayFromYear(y + 1)
    decreases day < DayFromYear(year),
      if day < DayFromYear(year) then DayFromYear(year) - day else day - DayFromYear(year)
  {
    YearStep(year);
    YearStep(year - 1);
    if day < DayFromYear(year) then YearNear(day, year - 1)
    else if DayFromYear(year + 1) <= day then YearNear(day, year + 1)
    else year
  }

  function MonthIn(year: int, dayInYear: int, month: int): (m: int)
    requires 0 <= month < 12
    requires DaysBeforeMonth(year, month) <= dayInYear < DaysBeforeMonth(year, 12)
    ensures 0 <= m < 12
    ensures DaysBeforeMonth(year, m) <= dayInYear < DaysBeforeMonth(year, m + 1)
    decreases 12 - month
  {
    if dayInYear < DaysBeforeMonth(year, month + 1) then month else MonthIn(year, dayInYear, month + 1)
  }

  /** The year, month and date of a day number. */
  function CivilOf(day: int): (c: Civil)
    ensures Valid(c) && DayOf(c) == day
  {
    var year := YearNear(day, 1970);
    YearStep(year);
    MonthTable(year);
    var inYear := day - DayFromYear(year);
    var month := MonthIn(year, inYear, 0);
    MonthStep(year, month);
    Civil(year, month, inYear - DaysBeforeMonth(year, month) + 1)
  }

  lemma CivilOfDay(c: Civil)
    requires Valid(c)
    ensures CivilOf(DayOf(c)) == c
  {
    var d := CivilOf(DayOf(c));
    DayOrder(c, d);
    DayOrder(d, c);
  }
}

/** The age gate: the server's rule, its calendar meaning, and the web form's copy of it. */
module Age {
  import opened Text
  import opened Calendar

  const MINIMUM_AGE_YEARS := 18

  /** `Date.UTC` and `new Date(y, m, d)` read the years 0 to 99 as 1900 to 1999. */
  function ReadYear(year: int): int {
    if 0 <= year <= 99 then 1900 + year else year
  }

  function DateUtc(c: Civil): int {
    MakeDay(ReadYear(c.year), c.month, c.date) * 86_400_000
  }

  /** The UTC calendar date of a time value in milliseconds. */
  function UtcDate(time: int): (c: Civil)
    ensures Valid(c)
  {
    CivilOf(time / 86_400_000)
  }

  /** The time value of midnight UTC on a date. */
  function Midnight(c: Civil): int
    requires MonthInRange(c)
  {
    DayOf(c) * 86_400_000
  }

  function LatestQualifyingDob(today: Civil): int {
    DateUtc(Civil(today.year - MINIMUM_AGE_YEARS, today.month, today.date))
  }

  predicate OldEnoughOn(born: Civil, today: Civil) {
    DateUtc(born) <= LatestQualifyingDob(today)
  }

  predicate MeetsMinimumAge(dob: int, now: int) {
    OldEnoughOn(UtcDate(dob), UtcDate(now))
  }

  // ─── What the rule means ───────────────────────────────────────────────────

  /** The eighteenth birthday, as the calendar writes it, is today or past. */
  predicate HasTurned18(born: Civil, today: Civil) {
    NotLater(Civil(born.year + 18, born.month, born.date), today)
  }

  /** Today is 29 February, which has no counterpart 18 years back, and the birth date is the day that
      29 February rolls over to. */
  predicate LeapDayGrace(born: Civil, today: Civil) {
    today.month == 1 && today.date == 29 && born == Civil(today.year - 18, 2, 1)
  }

  /** 18 years before any date, with 29 February rolled over. */
  function EighteenYearsBefore(today: Civil): Civil {
    var year := today.year - MINIMUM_AGE_YEARS;
    if today.month == 1 && today.date == 29 then Civil(year, 2, 1) else Civil(year, today.month, today.date)
  }

  lemma LeapDayRollsOver(year: int)
    requires !Leap(year)
    ensures DayOf(Civil(year, 1, 29)) == DayOf(Civil(year, 2, 1))
  {
  }

  lemma BoundaryValid(today: Civil)
    requires Valid(today)
    ensures Valid(EighteenYearsBefore(today))
  {
  }

  /** The date `Date.UTC` makes of a date: the years 0 to 99 moved to the 1900s, where the leap day of the
      year 0 falls on 1 March. */
  function AsRead(c: Civil): Civil {
    if c == Civil(0, 1, 29) then Civil(1900, 2, 1) else Civil(ReadYear(c.year), c.month, c.date)
  }

  lemma LeapRead(year: int)
    requires 1 <= year <= 99
    ensures Leap(1900 + year) == Leap(year)
  {
    assert (1900 + year) % 4 == year % 4;
    assert (1900 + year) % 100 == year % 100 == year;
  }

  lemma AsReadValid(c: Civil)
    requires Valid(c)
    ensures Valid(AsRead(c))
  {
    if 1 <= c.year <= 99 { LeapRead(c.year); }
  }

  lemma DateUtcIs(c: Civil)
    requires MonthInRange(c)
    ensures DateUtc(c) == Midnight(Civil(ReadYear(c.year), c.month, c.date))
  {
    MakeDayInRange(Civil(ReadYear(c.year), c.month, c.date));
  }

  lemma AsReadIs(c: Civil)
    requires Valid(c)
    ensures Valid(AsRead(c)) && DateUtc(c) == Midnight(AsRead(c))
  {
    AsReadValid(c);
    DateUtcIs(c);
    if c == Civil(0, 1, 29) { LeapDayRollsOver(1900); }
  }

  /** A year 18 before a leap year is no leap year, read as it stands or in the 1900s. */
  lemma BoundaryNotLeap(year: int)
    requires Leap(year + MINIMUM_AGE_YEARS)
    ensures !Leap(ReadYear(year))
  {
    assert (year + 18) % 4 == 0;
    assert (1900 + year) % 4 == year % 4;
  }

  lemma BoundaryMidnight(today: Civil)
    requires Valid(today)
    ensures Valid(EighteenYearsBefore(today)) && Valid(AsRead(EighteenYearsBefore(today)))
    ensures LatestQualifyingDob(today) == Midnight(AsRead(EighteenYearsBefore(today)))
  {
    var year := today.year - MINIMUM_AGE_YEARS;
    BoundaryValid(today);
    AsReadIs(EighteenYearsBefore(today));
    if today.month == 1 && today.date == 29 {
      DateUtcIs(Civil(year, 1, 29));
      BoundaryNotLeap(year);
      LeapDayRollsOver(ReadYear(year));
    }
  }

  lemma MidnightOrder(a: Civil, b: Civil)
    requires Valid(a) && Valid(b)
    ensures Midnight(a) <= Midnight(b) <==> NotLater(a, b)
  {
    DayOrder(a, b);
  }

  lemma OldEnoughByDate(born: Civil, today: Civil)
    requires Valid(born) && Valid(today)
    ensures OldEnoughOn(born, today) <==> NotLater(AsRead(born), AsRead(EighteenYearsBefore(today)))
  {
    AsReadIs(born);
    BoundaryMidnight(today);
    MidnightOrder(AsRead(born), AsRead(EighteenYearsBefore(today)));
  }

  lemma GraceOrBirthday(born: Civil, today: Civil)
    requires Valid(born) && Valid(today)
    ensures NotLater(born, EighteenYearsBefore(today)) <==> HasTurned18(born, today) || LeapDayGrace(born, today)
  {
  }

  /** What the calendar says: the eighteenth birthday has come, or it is the one extra day accepted on a
      29 February. */
  predicate Due(born: Civil, today: Civil) {
    HasTurned18(born, today) || LeapDayGrace(born, today)
  }

  /** Re-reading the year changes the answer: a birth in the years 0 to 99 that in the 1900s would be later
      than the boundary, or a later birth on a clock so early that the boundary itself is re-read. */
  predicate Misread(born: Civil, today: Civil) {
    var boundary := EighteenYearsBefore(today);
    || (0 <= born.year <= 99 < boundary.year && Earlier(boundary, AsRead(born)))
    || (0 <= boundary.year <= 99 < born.year && NotLater(born, AsRead(boundary)))
  }

  lemma ReadingOrder(born: Civil, today: Civil)
    requires Valid(born) && Valid(today)
    ensures var boundary := EighteenYearsBefore(today);
      (NotLater(AsRead(born), AsRead(boundary)) <==> NotLater(born, boundary)) <==> !Misread(born, today)
  {
    BoundaryValid(today);
  }

  /** Whatever the birth date and the clock, the rule is the calendar's exactly unless the year is
      misread. */
  lemma AgeRuleIff(dob: int, now: int)
    ensures (MeetsMinimumAge(dob, now) <==> Due(UtcDate(dob), UtcDate(now))) <==> !Misread(UtcDate(dob), UtcDate(now))
  {
    OldEnoughByDate(UtcDate(dob), UtcDate(now));
    ReadingOrder(UtcDate(dob), UtcDate(now));
    GraceOrBirthday(UtcDate(dob), UtcDate(now));
  }

  /** From 2018 on no year is misread, so the rule is the calendar's for every birth date. */
  lemma AgeRule(dob: int, now: int)
    requires UtcDate(now).year >= 2018
    ensures MeetsMinimumAge(dob, now) <==> Due(UtcDate(dob), UtcDate(now))
  {
    AgeRuleIff(dob, now);
  }

  /** The grace day is real: born 1 March 2006, accepted on 29 February 2024, a day early. */
  lemma LeapDayGraceHappens()
    ensures var born, today := Civil(2006, 2, 1), Civil(2024, 1, 29);
      Valid(born) && Valid(today) && OldEnoughOn(born, today) && !HasTurned18(born, today)
  {
    OldEnoughByDate(Civil(2006, 2, 1), Civil(2024, 1, 29));
  }

  lemma DateIs(time: int, c: Civil)
    requires Valid(c) && time / 86_400_000 == DayOf(c)
    ensures UtcDate(time) == c
  {
    CivilOfDay(c);
  }

  lemma OldEnoughWhen(dob: int, now: int, born: Civil, today: Civil)
    requires Valid(born) && Valid(today) && today.year >= 2018 && HasTurned18(born, today)
    requires dob / 86_400_000 == DayOf(born) && now / 86_400_000 == DayOf(today)
    ensures MeetsMinimumAge(dob, now)
  {
    DateIs(dob, born);
    DateIs(now, today);
    AgeRule(dob, now);
  }

  lemma NewYears() returns (born: Civil, today: Civil)
    ensures Valid(born) && Valid(today) && today.year == 2020 && HasTurned18(born, today)
    ensures DayOf(born) == 0 && DayOf(today) == 18262
  {
    born, today := Civil(1970, 0, 1), Civil(2020, 0, 1);
    assert DayFromYear(1970) == 0 && DayFromYear(2020) == 18262;
  }

  /** Whoever was born on 1 January 1970 is old enough all through 1 January 2020. */
  lemma BornIn1970(dob: int, now: int)
    requires 0 <= dob < 86_400_000 && 18262 * 86_400_000 <= now < 18263 * 86_400_000
    ensures MeetsMinimumAge(dob, now)
  {
    var born, today := NewYears();
    OldEnoughWhen(dob, now, born, today);
  }

  /** The last day on which some year is misread: on 30 December 2017, and not after, somebody born on the
      last day of the year 99 is turned away. */
  lemma MisreadUntil2017()
    ensures Misread(Civil(99, 11, 31), Civil(2017, 11, 30))
    ensures forall born, today ::
      Valid(born) && Valid(today) && Earlier(Civil(2017, 11, 30), today) ==> !Misread(born, today)
  {
  }

  lemma UtcDateOrder(t: int, u: int)
    requires t <= u
    ensures NotLater(UtcDate(t), UtcDate(u))
  {
    DayOrder(UtcDate(t), UtcDate(u));
  }

  lemma BoundaryMovesForward(a: Civil, b: Civil)
    requires Valid(a) && Valid(b) && NotLater(a, b) && a.year - MINIMUM_AGE_YEARS > 99
    ensures LatestQualifyingDob(a) <= LatestQualifyingDob(b)
  {
    BoundaryMidnight(a);
    BoundaryMidnight(b);
    MidnightOrder(EighteenYearsBefore(a), EighteenYearsBefore(b));
  }

  /** Once someone qualifies they qualify for ever: for any birth date at all, on every later clock
      reading from the year 118 on. */
  lemma StaysOldEnough(dob: int, now: int, later: int)
    requires MeetsMinimumAge(dob, now) && now <= later
    requires UtcDate(now).year - MINIMUM_AGE_YEARS > 99
    ensures MeetsMinimumAge(dob, later)
  {
    UtcDateOrder(now, later);
    BoundaryMovesForward(UtcDate(now), UtcDate(later));
  }

  lemma SinceTheEpoch(now: int)
    requires now >= 0
    ensures UtcDate(now).year >= 1970
  {
    var c := UtcDate(now);
    DayInYear(c);
    if c.year < 1970 { YearsIncrease(c.year + 1, 1970); }
  }

  // ─── The web form's copy ───────────────────────────────────────────────────

  function Digit(d: int): char
    requires 0 <= d <= 9
  {
    '0' + d as char
  }

  function Pow10(width: nat): int {
    if width == 0 then 1 else 10 * Pow10(width - 1)
  }

  /** `n` in decimal, padded with zeros to `width` characters. */
  function Pad(n: int, width: nat): string
    requires n >= 0
  {
    if width == 0 then "" else Pad(n / 10, width - 1) + [Digit(n % 10)]
  }

  predicate AllDigits(s: string) {
    forall i :: 0 <= i < |s| ==> '0' <= s[i] <= '9'
  }

  function DigitsValue(s: string): int
    requires AllDigits(s)
  {
    if s == "" then 0 else 10 * DigitsValue(s[..|s| - 1]) + (s[|s| - 1] - '0') as int
  }

  /** What is assumed of JavaScript's `Number`: it reads a non-empty run of digits in decimal. On any
      other string it may answer anything, `None` standing for `NaN`. */
  ghost predicate ReadsDigits(number: string -> Option<int>) {
    forall s :: s != "" && AllDigits(s) ==> number(s) == Some(DigitsValue(s))
  }

  lemma {:induction false} PadReads(n: int, width: nat)
    requires 0 <= n < Pow10(width)
    ensures |Pad(n, width)| == width && AllDigits(Pad(n, width)) && DigitsValue(Pad(n, width)) == n
  {
    if width > 0 {
      PadReads(n / 10, width - 1);
      var s := Pad(n, width);
      assert s[..|s| - 1] == Pad(n / 10, width - 1);
    }
  }

  function Dashed(year: nat, month: nat, date: nat, yearWidth: nat, width: nat): string {
    Join([Pad(year, yearWidth), Pad(month, width), Pad(date, width)], '-')
  }

  /** A date as the date input sends it, `YYYY-MM-DD`. */
  function InputValue(c: Civil): string
    requires Valid(c) && c.year >= 0
  {
    Dashed(c.year, c.month + 1, c.date, 4, 2)
  }

  predicate WebMeetsMinimumAge(dobInput: string, today: Civil, number: string -> Option<int>) {
    var parts := Split(dobInput, '-');
    && |parts| == 3
    && number(parts[0]).Some? && number(parts[1]).Some? && number(parts[2]).Some?
    && WebOldEnough(number(parts[0]).value, number(parts[1]).value, number(parts[2]).value, today)
  }

  predicate WebOldEnough(year: int, month: int, date: int, today: Civil) {
    MakeDay(ReadYear(year), month - 1, date)
    <= MakeDay(ReadYear(today.year - MINIMUM_AGE_YEARS), today.month, today.date)
  }

  lemma {:induction false} DigitsHaveNoDash(s: string)
    requires AllDigits(s)
    ensures Free(s, '-')
  {
    if s != "" {
      DigitsHaveNoDash(s[1..]);
      assert s == [s[0]] + s[1..];
    }
  }

  lemma {:induction false} PadPart(n: int, width: nat)
    requires 0 <= n < Pow10(width) && width > 0
    ensures var part := Pad(n, width);
      part != "" && AllDigits(part) && Free(part, '-') && DigitsValue(part) == n
  {
    PadReads(n, width);
    DigitsHaveNoDash(Pad(n, width));
  }

  lemma PowersOfTen()
    ensures Pow10(2) == 100 && Pow10(4) == 10000
  {
    assert Pow10(3) == 10 * Pow10(2);
  }

  lemma SplitThree(a: string, b: string, c: string)
    requires Free(a, '-') && Free(b, '-') && Free(c, '-')
    ensures Split(Join([a, b, c], '-'), '-') == [a, b, c]
  {
    SplitJoin([a, b, c], '-');
  }

  lemma InputParts(year: nat, month: nat, date: nat, yearWidth: nat, width: nat)
    returns (y: string, m: string, d: string)
    requires year < Pow10(yearWidth) && month < Pow10(width) && date < Pow10(width) && yearWidth > 0 && width > 0
    ensures Split(Dashed(year, month, date, yearWidth, width), '-') == [y, m, d]
    ensures y != "" && AllDigits(y) && DigitsValue(y) == year
    ensures m != "" && AllDigits(m) && DigitsValue(m) == month
    ensures d != "" && AllDigits(d) && DigitsValue(d) == date
  {
    y, m, d := Pad(year, yearWidth), Pad(month, width), Pad(date, width);
    PadPart(year, yearWidth);
    PadPart(month, width);
    PadPart(date, width);
    SplitThree(y, m, d);
  }

  lemma WebReads(born: Civil, today: Civil, number: string -> Option<int>)
    requires Valid(born) && 0 <= born.year <= 9999 && ReadsDigits(number)
    ensures WebMeetsMinimumAge(InputValue(born), today, number)
         == WebOldEnough(born.year, born.month + 1, born.date, today)
  {
    PowersOfTen();
    var y, m, d := InputParts(born.year, born.month + 1, born.date, 4, 2);
  }

  lemma WebOldEnoughAgrees(born: Civil, today: Civil)
    ensures WebOldEnough(born.year, born.month + 1, born.date, today) == OldEnoughOn(born, today)
  {
  }

  /** The form and the server agree on every valid date of a four-digit year when both see the same
      today, whatever the two clocks read within that day. */
  lemma WebAgrees(born: Civil, dob: int, now: int, number: string -> Option<int>)
    requires Valid(born) && 0 <= born.year <= 9999 && UtcDate(dob) == born && ReadsDigits(number)
    ensures WebMeetsMinimumAge(InputValue(born), UtcDate(now), number) == MeetsMinimumAge(dob, now)
  {
    WebReads(born, UtcDate(now), number);
    WebOldEnoughAgrees(born, UtcDate(now));
  }
}
