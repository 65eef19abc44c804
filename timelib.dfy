/**
 * plaso timestamps: signed microsecond counts since 1970-01-01 00:00:00,
 * and the integer conversions into them from the timestamp formats the
 * parsers meet (POSIX, FILETIME, Cocoa, HFS+, WebKit, Java, FAT).  Every
 * conversion answers 0 for a value outside the range it accepts.
 */
module Timelib {
  import opened Common

  const MICRO_SECONDS_PER_SECOND: int := 1000000
  const SECONDS_PER_DAY: int := 24 * 60 * 60
  const MILLI_SECONDS_TO_MICRO_SECONDS: int := 1000

  /** 2^63 - 1 and its whole number of seconds (Python 2 floor division). */
  const TIMESTAMP_MAX_MICRO_SECONDS: int := 0x7fff_ffff_ffff_ffff
  const TIMESTAMP_MIN_MICRO_SECONDS: int := -TIMESTAMP_MAX_MICRO_SECONDS
  const TIMESTAMP_MAX_SECONDS: int := TIMESTAMP_MAX_MICRO_SECONDS / MICRO_SECONDS_PER_SECOND
  const TIMESTAMP_MIN_SECONDS: int := -TIMESTAMP_MAX_SECONDS

  const FAT_DATE_TO_POSIX_BASE: int := 315532800
  const WEBKIT_TIME_TO_POSIX_BASE: int := 11644473600 * 1000000
  const FILETIME_TO_POSIX_BASE: int := 11644473600 * 10000000
  const HFSTIME_TO_POSIX_BASE: int := 2082844800
  const COCOA_TIME_TO_POSIX_BASE: int := 978307200

  const DAYS_PER_MONTH: seq<int> := [31, 28, 31, 30, 31, 30, 31, 31, 30, 31, 30, 31]

  /** Lower-case English month abbreviations to month numbers. */
  const MONTH_DICT: map<string, int> := map[
    "jan" := 1, "feb" := 2, "mar" := 3, "apr" := 4, "may" := 5, "jun" := 6,
    "jul" := 7, "aug" := 8, "sep" := 9, "oct" := 10, "nov" := 11, "dec" := 12]

  /** MONTH_DICT maps month abbreviations to month numbers 1 to 12, "jan" to 1 up to "dec" to 12. */
  lemma MonthDictNumbers()
    ensures forall k :: k in MONTH_DICT ==> 1 <= MONTH_DICT[k] <= 12
    ensures "jan" in MONTH_DICT && MONTH_DICT["jan"] == 1 && "dec" in MONTH_DICT && MONTH_DICT["dec"] == 12
  {
  }

  /**
   * The date and time handed to FromTimeParts.  That conversion goes
   * through Python's datetime and pytz, which this model does not contain:
   * parsers receive it as a function of this type, answering 0 for an
   * invalid date.
   */
  datatype TimeParts = TimeParts(
    year: int, month: int, day: int, hour: int, minute: int, second: int,
    microsecond: int, zone: string)

  type TimePartsFn = TimeParts -> int

  /** FromTimeString (dateutil parsing of free text), likewise a parameter. */
  type TimeStringFn = string -> int

  // ---------------------------------------------------------------------
  // Calendar helpers

  predicate IsLeapYear(year: int)
  {
    (year % 4 == 0 && year % 100 != 0) || year % 400 == 0
  }

  /** Days in a 0-based month; ValueError for a month outside 0..11. */
  function DaysInMonth(month: int, year: int): (r: Result<int>)
    ensures r.Ok? <==> 0 <= month < 12
    ensures r.Ok? ==> 28 <= r.value <= 31
    ensures r.Ok? ==> (r.value == 29 <==> month == 1 && IsLeapYear(year))
    ensures r.Ok? && month != 1 ==> r.value == DAYS_PER_MONTH[month]
    ensures r.Err? ==> r.exc == ValueError
  {
    if !(0 <= month < 12) then Err(ValueError)
    else if month == 1 && IsLeapYear(year) then Ok(DAYS_PER_MONTH[month] + 1)
    else Ok(DAYS_PER_MONTH[month])
  }

  function DaysInYear(year: int): (r: int)
    ensures r == 365 || r == 366
    ensures r == 366 <==> IsLeapYear(year)
  {
    if IsLeapYear(year) then 366 else 365
  }

  /** Days in the first n months (0-based months 0..n-1) of a year. */
  function MonthsTotal(n: nat, year: int): nat
    requires n <= 12
  {
    if n == 0 then 0 else MonthsTotal(n - 1, year) + DaysInMonth(n - 1, year).value
  }

  /** The twelve months of a year add up to its length. */
  lemma YearIsItsMonths(year: int)
    ensures MonthsTotal(12, year) == DaysInYear(year)
  {
    var feb := DaysInMonth(1, year).value;
    assert MonthsTotal(1, year) == 31;
    assert MonthsTotal(2, year) == 31 + feb;
    assert MonthsTotal(3, year) == 62 + feb;
    assert MonthsTotal(4, year) == 92 + feb;
    assert MonthsTotal(5, year) == 123 + feb;
    assert MonthsTotal(6, year) == 153 + feb;
    assert MonthsTotal(7, year) == 184 + feb;
    assert MonthsTotal(8, year) == 215 + feb;
    assert MonthsTotal(9, year) == 245 + feb;
    assert MonthsTotal(10, year) == 276 + feb;
    assert MonthsTotal(11, year) == 306 + feb;
  }

  lemma {:induction false} MonthsTotalMonotone(m: nat, n: nat, year: int)
    requires m <= n <= 12
    ensures MonthsTotal(m, year) + (if m < n then DaysInMonth(m, year).value else 0) <= MonthsTotal(n, year)
    decreases n - m
  {
    if m < n {
      MonthsTotalMonotone(m + 1, n, year);
    }
  }

  /**
   * DayOfYear(day, month, year): day plus the lengths of the months before
   * month.  Months past December make DaysInMonth raise ValueError; a
   * non-positive month adds nothing.
   */
  function DayOfYear(day: int, month: int, year: int): (r: Result<int>)
    ensures r.Err? <==> month > 12
    ensures r.Err? ==> r.exc == ValueError
  {
    if month > 12 then Err(ValueError)
    else if month <= 0 then Ok(day)
    else Ok(day + MonthsTotal(month, year))
  }

  /** A day within its month lands within the year. */
  lemma DayOfYearInYear(day: int, month: int, year: int)
    requires 0 <= month < 12
    requires 0 <= day < DaysInMonth(month, year).value
    ensures DayOfYear(day, month, year).Ok?
    ensures 0 <= DayOfYear(day, month, year).value < DaysInYear(year)
  {
    MonthsTotalMonotone(month, 12, year);
    YearIsItsMonths(year);
  }

  /** The accumulating loop of DayOfYear. */
  method ComputeDayOfYear(day: int, month: int, year: int) returns (r: Result<int>)
    ensures r == DayOfYear(day, month, year)
  {
    var dayOfYear := day;
    var pastMonth := 0;
    while pastMonth < month
      invariant 0 <= pastMonth <= 12
      invariant month > 0 ==> pastMonth <= month
      invariant month <= 0 ==> pastMonth == 0
      invariant dayOfYear == day + MonthsTotal(pastMonth, year)
    {
      var days := DaysInMonth(pastMonth, year);
      if days.Err? {
        return Err(days.exc);
      }
      dayOfYear := dayOfYear + days.value;
      pastMonth := pastMonth + 1;
    }
    assert month > 0 ==> pastMonth == month;
    return Ok(dayOfYear);
  }

  // ---------------------------------------------------------------------
  // POSIX-based conversions

  /** Microseconds to whole POSIX seconds, rounding toward minus infinity. */
  function CopyToPosix(timestamp: int): (r: int)
    ensures r * MICRO_SECONDS_PER_SECOND <= timestamp < (r + 1) * MICRO_SECONDS_PER_SECOND
  {
    timestamp / MICRO_SECONDS_PER_SECOND
  }

  predicate PosixInRange(t: int)
  {
    TIMESTAMP_MIN_SECONDS <= t <= TIMESTAMP_MAX_SECONDS
  }

  function FromPosixTime(t: int): (r: int)
    ensures !PosixInRange(t) ==> r == 0
    ensures PosixInRange(t) ==> r == t * MICRO_SECONDS_PER_SECOND
    ensures TIMESTAMP_MIN_MICRO_SECONDS <= r <= TIMESTAMP_MAX_MICRO_SECONDS
  {
    if !PosixInRange(t) then 0 else t * MICRO_SECONDS_PER_SECOND
  }

  /** Seconds come back from their microsecond timestamp. */
  lemma PosixRoundTrip(t: int)
    requires PosixInRange(t)
    ensures CopyToPosix(FromPosixTime(t)) == t
  {
    assert FromPosixTime(t) == t * MICRO_SECONDS_PER_SECOND;
  }

  /** FromPosixTime is 0 exactly at 0 and outside the range. */
  lemma PosixZero(t: int)
    ensures FromPosixTime(t) == 0 <==> t == 0 || !PosixInRange(t)
  {
  }

  function FromPosixTimeWithMicrosecond(t: int, microsecond: int): (r: int)
    ensures FromPosixTime(t) == 0 ==> r == 0
    ensures FromPosixTime(t) != 0 ==> r == FromPosixTime(t) + microsecond
  {
    var timestamp := FromPosixTime(t);
    if timestamp == 0 then 0 else timestamp + microsecond
  }

  /** In particular the epoch itself is reported as "no timestamp". */
  lemma EpochWithMicrosecondIsZero(microsecond: int)
    ensures FromPosixTimeWithMicrosecond(0, microsecond) == 0
  {
  }

  function FromCocoaTime(cocoa: int): (r: int)
  {
    FromPosixTime(cocoa + COCOA_TIME_TO_POSIX_BASE)
  }

  function FromHfsPlusTime(hfs: int): (r: int)
  {
    FromPosixTime(hfs - HFSTIME_TO_POSIX_BASE)
  }

  /** Cocoa and HFS+ are POSIX seconds with a shifted epoch. */
  lemma ShiftedEpochs(cocoa: int, hfs: int)
    ensures PosixInRange(cocoa + COCOA_TIME_TO_POSIX_BASE) ==>
      CopyToPosix(FromCocoaTime(cocoa)) == cocoa + COCOA_TIME_TO_POSIX_BASE
    ensures !PosixInRange(cocoa + COCOA_TIME_TO_POSIX_BASE) ==> FromCocoaTime(cocoa) == 0
    ensures PosixInRange(hfs - HFSTIME_TO_POSIX_BASE) ==>
      CopyToPosix(FromHfsPlusTime(hfs)) == hfs - HFSTIME_TO_POSIX_BASE
    ensures !PosixInRange(hfs - HFSTIME_TO_POSIX_BASE) ==> FromHfsPlusTime(hfs) == 0
  {
    if PosixInRange(cocoa + COCOA_TIME_TO_POSIX_BASE) {
      PosixRoundTrip(cocoa + COCOA_TIME_TO_POSIX_BASE);
    }
    if PosixInRange(hfs - HFSTIME_TO_POSIX_BASE) {
      PosixRoundTrip(hfs - HFSTIME_TO_POSIX_BASE);
    }
  }

  /** Java milliseconds to microseconds; no range check. */
  function FromJavaTime(java: int): (r: int)
    ensures r % 1000 == 0 && r / 1000 == java
    ensures CopyToPosix(r) == java / 1000
  {
    var r := java * MILLI_SECONDS_TO_MICRO_SECONDS;
    assert r == (java / 1000) * MICRO_SECONDS_PER_SECOND + (java % 1000) * 1000;
    r
  }

  /** WebKit microseconds since 1601 to microseconds since 1970. */
  function FromWebKitTime(webkit: int): (r: int)
    ensures webkit < TIMESTAMP_MIN_MICRO_SECONDS + WEBKIT_TIME_TO_POSIX_BASE ==> r == 0
    ensures webkit >= TIMESTAMP_MIN_MICRO_SECONDS + WEBKIT_TIME_TO_POSIX_BASE ==>
      r >= TIMESTAMP_MIN_MICRO_SECONDS && r + WEBKIT_TIME_TO_POSIX_BASE == webkit
  {
    if webkit < TIMESTAMP_MIN_MICRO_SECONDS + WEBKIT_TIME_TO_POSIX_BASE then 0
    else webkit - WEBKIT_TIME_TO_POSIX_BASE
  }

  /**
   * FILETIME (100 ns units since 1601) to microseconds since 1970: negative
   * input and results above 2^63 - 1 give 0; the division floors.
   */
  function FromFiletime(filetime: int): (r: int)
    ensures filetime < 0 ==> r == 0
    ensures r <= TIMESTAMP_MAX_MICRO_SECONDS
    ensures filetime >= 0 && r != 0 ==>
      10 * r <= filetime - FILETIME_TO_POSIX_BASE < 10 * r + 10
    ensures 0 <= filetime < FILETIME_TO_POSIX_BASE + 10 * (TIMESTAMP_MAX_MICRO_SECONDS + 1) ==>
      10 * r <= filetime - FILETIME_TO_POSIX_BASE < 10 * r + 10
    ensures filetime >= FILETIME_TO_POSIX_BASE + 10 * (TIMESTAMP_MAX_MICRO_SECONDS + 1) ==> r == 0
  {
    if filetime < 0 then 0
    else
      var timestamp := (filetime - FILETIME_TO_POSIX_BASE) / 10;
      if timestamp > TIMESTAMP_MAX_MICRO_SECONDS then 0 else timestamp
  }

  /** The FILETIME of the POSIX epoch converts to 0, and one second later to 10^6. */
  lemma FiletimeEpoch()
    ensures FromFiletime(FILETIME_TO_POSIX_BASE) == 0
    ensures FromFiletime(FILETIME_TO_POSIX_BASE + 10000000) == MICRO_SECONDS_PER_SECOND
  {
  }

  // ---------------------------------------------------------------------
  // FAT date and time

  /**
   * Days in the years 0 .. n-1: the sum the FAT conversion adds for its
   * year field.  The years counted are 0 .. n-1 themselves, not 1980 ..
   * 1980+n-1 (a defect this model reproduces).
   */
  function PastYearsDays(n: nat): nat
  {
    if n == 0 then 0 else PastYearsDays(n - 1) + DaysInYear(n - 1)
  }

  /** The calendar count the FAT year field stands for: days in 1980 .. 1980+n-1. */
  function DaysSince1980(n: nat): nat
  {
    if n == 0 then 0 else DaysSince1980(n - 1) + DaysInYear(1980 + n - 1)
  }

  /**
   * The reproduced year loop agrees with the calendar up to year field 100
   * (dates before 2081), because years y and 1980 + y have the same leap
   * status for y < 100.
   */
  lemma {:induction false} PastYearsAgreeBefore2081(n: nat)
    requires n <= 100
    ensures PastYearsDays(n) == DaysSince1980(n)
  {
    if n > 0 {
      PastYearsAgreeBefore2081(n - 1);
      SameLeapStatus(n - 1);
    }
  }

  /** Year y and year 1980 + y are both leap or both common, except for y = 100 and y = 120. */
  lemma SameLeapStatus(y: int)
    requires 0 <= y < 128 && y != 100 && y != 120
    ensures IsLeapYear(y) == IsLeapYear(1980 + y)
    ensures DaysInYear(y) == DaysInYear(1980 + y)
  {
    if y != 0 && y != 20 {
      assert y % 100 != 0 && y % 400 != 0;
      assert (1980 + y) % 100 != 0 by {
        if y < 20 {
          assert 1980 + y == 1900 + (80 + y);
        } else if y < 120 {
          assert 1980 + y == 2000 + (y - 20);
        } else {
          assert 1980 + y == 2100 + (y - 120);
        }
      }
      assert (1980 + y) % 4 == y % 4;
    }
  }

  /** The two years where the year field and the calendar year differ in leap status. */
  lemma CenturyYears()
    ensures DaysInYear(100) == 365 && DaysInYear(1980 + 100) == 366
    ensures DaysInYear(120) == 366 && DaysInYear(1980 + 120) == 365
  {
  }

  /**
   * ... falls one day short for year fields 101 to 120 (2080 is a leap
   * year, year 100 is not) ...
   */
  lemma {:induction false} PastYearsOneDayShort(n: nat)
    requires 101 <= n <= 120
    ensures PastYearsDays(n) + 1 == DaysSince1980(n)
  {
    if n == 101 {
      PastYearsAgreeBefore2081(n - 1);
      assert n - 1 == 100;
      CenturyYears();
    } else {
      PastYearsOneDayShort(n - 1);
      SameLeapStatus(n - 1);
    }
  }

  /** ... and agrees again from 121 (2100 is a common year, year 120 a leap year). */
  lemma {:induction false} PastYearsAgreeFrom2101(n: nat)
    requires 121 <= n <= 128
    ensures PastYearsDays(n) == DaysSince1980(n)
  {
    if n == 121 {
      PastYearsOneDayShort(n - 1);
      assert n - 1 == 120;
      CenturyYears();
    } else {
      PastYearsAgreeFrom2101(n - 1);
      SameLeapStatus(n - 1);
    }
  }

  /** The fields of a FAT date-time; day and month are made 0-based. */
  datatype FatFields = FatFields(
    day: int, month: int, year: int, hours: int, minutes: int, seconds: int)

  function FatSplit(fat: int): (f: FatFields)
    ensures -1 <= f.day <= 30 && -1 <= f.month <= 14 && 0 <= f.year < 128
    ensures 0 <= f.hours < 32 && 0 <= f.minutes < 64 && 0 <= f.seconds <= 62 && f.seconds % 2 == 0
  {
    var t := fat / 65536;
    FatFields(fat % 32 - 1, (fat / 32) % 16 - 1, (fat / 512) % 128,
              (t / 2048) % 32, (t / 32) % 64, (t % 32) * 2)
  }

  predicate FatDateValid(f: FatFields)
  {
    0 <= f.day <= 30 && 0 <= f.month <= 11
  }

  predicate FatTimeValid(f: FatFields)
  {
    f.hours <= 23 && f.minutes <= 59 && f.seconds <= 59
  }

  /**
   * FromFatDateTime: 0 for an invalid day, month or time of day; otherwise
   * whole seconds since 1980-01-01 as microseconds since 1970.
   */
  function FromFatDateTime(fat: int): (r: int)
    ensures r == 0 <==> !FatDateValid(FatSplit(fat)) || !FatTimeValid(FatSplit(fat))
    ensures r != 0 ==> r % MICRO_SECONDS_PER_SECOND == 0
    ensures r != 0 ==> r >= FAT_DATE_TO_POSIX_BASE * MICRO_SECONDS_PER_SECOND
  {
    var f := FatSplit(fat);
    if !FatDateValid(f) then 0
    else
      var days := DayOfYear(f.day, f.month, 1980 + f.year).value + PastYearsDays(f.year);
      if !FatTimeValid(f) then 0
      else
        var seconds := FAT_DATE_TO_POSIX_BASE + ((f.hours * 60) + f.minutes) * 60 + f.seconds
                       + days * SECONDS_PER_DAY;
        assert days >= 0;
        WholeSecondsAfter(seconds);
        seconds * MICRO_SECONDS_PER_SECOND
  }

  lemma WholeSecondsAfter(seconds: int)
    requires seconds >= FAT_DATE_TO_POSIX_BASE
    ensures (seconds * MICRO_SECONDS_PER_SECOND) % MICRO_SECONDS_PER_SECOND == 0
    ensures seconds * MICRO_SECONDS_PER_SECOND >= FAT_DATE_TO_POSIX_BASE * MICRO_SECONDS_PER_SECOND
  {
  }

  /** The FAT conversion as the source runs it: DayOfYear, then a loop over past years. */
  method ComputeFromFatDateTime(fat: int) returns (r: int)
    ensures r == FromFatDateTime(fat)
  {
    var numberOfSeconds := FAT_DATE_TO_POSIX_BASE;
    var f := FatSplit(fat);
    if f.day < 0 || f.day > 30 || f.month < 0 || f.month > 11 {
      return 0;
    }
    var dayOfYear := ComputeDayOfYear(f.day, f.month, 1980 + f.year);
    var numberOfDays := dayOfYear.value;
    var pastYear := 0;
    while pastYear < f.year
      invariant 0 <= pastYear <= f.year
      invariant numberOfDays == dayOfYear.value + PastYearsDays(pastYear)
    {
      numberOfDays := numberOfDays + DaysInYear(pastYear);
      pastYear := pastYear + 1;
    }
    if f.hours > 23 || f.minutes > 59 || f.seconds > 59 {
      return 0;
    }
    numberOfSeconds := numberOfSeconds + ((f.hours * 60) + f.minutes) * 60 + f.seconds;
    numberOfSeconds := numberOfSeconds + numberOfDays * SECONDS_PER_DAY;
    return numberOfSeconds * MICRO_SECONDS_PER_SECOND;
  }

  /** 1980-01-01 00:00:00 (date word 0x21, time word 0) converts to the FAT epoch. */
  lemma FatEpoch()
    ensures FromFatDateTime(0x21) == FAT_DATE_TO_POSIX_BASE * MICRO_SECONDS_PER_SECOND
  {
    assert FatSplit(0x21) == FatFields(0, 0, 0, 0, 0, 0);
  }
}
