/**
 * The year bookkeeping shared, as two identical copies, by the ASL securityd
 * and application firewall parsers: their log lines carry a month and a day
 * but no year, so each parser keeps a working year and the month it saw
 * last, and moves to the next year when the month goes backwards.
 */
module YearTracking {
  import opened Common
  import opened Timelib

  /**
   * Where the working year comes from when the preprocessing object gave
   * none: the file's creation and change times, the year of such a time in
   * the parser's zone (datetime.fromtimestamp, None where it raises
   * ValueError) and the current year.  All of these lie outside the model.
   */
  datatype YearSource = YearSource(
    crtime: int, ctime: int, currentYear: int, yearOf: (int, string) -> Option<int>)

  /** _GetYear: the year of the creation time, else of the change time, else the current year. */
  function GetYear(src: YearSource, zone: string): (r: int)
  {
    var time := if src.crtime != 0 then src.crtime else src.ctime;
    if time == 0 then src.currentYear
    else match src.yearOf(time, zone)
      case None => src.currentYear
      case Some(y) => y
  }

  lemma GetYearCases(src: YearSource, zone: string)
    ensures src.crtime != 0 && src.yearOf(src.crtime, zone).Some? ==>
      GetYear(src, zone) == src.yearOf(src.crtime, zone).value
    ensures src.crtime == 0 && src.ctime != 0 && src.yearOf(src.ctime, zone).Some? ==>
      GetYear(src, zone) == src.yearOf(src.ctime, zone).value
    ensures src.crtime == 0 && src.ctime == 0 ==> GetYear(src, zone) == src.currentYear
    ensures (src.crtime != 0 && src.yearOf(src.crtime, zone).None?) ||
            (src.crtime == 0 && src.ctime != 0 && src.yearOf(src.ctime, zone).None?) ==>
      GetYear(src, zone) == src.currentYear
  {
  }

  /**
   * The working year a line is dated in before any gap is counted: the one
   * kept so far, or, while that is 0, the file's year, or, when that is 0
   * too, the current year.
   */
  function StartYear(yearUse: int, src: YearSource, zone: string): (r: int)
    ensures yearUse != 0 ==> r == yearUse
    ensures yearUse == 0 ==> r == GetYear(src, zone) || r == src.currentYear
    ensures yearUse == 0 && src.currentYear != 0 ==> r != 0
  {
    if yearUse != 0 then yearUse
    else
      var y := GetYear(src, zone);
      if y != 0 then y else src.currentYear
  }

  /** MONTH_DICT.get(text.lower()). */
  function MonthOf(text: string): (r: Option<int>)
    ensures r.Some? <==> Lower(text) in MONTH_DICT
    ensures r.Some? ==> 1 <= r.value <= 12 && MONTH_DICT[Lower(text)] == r.value
  {
    var t := Lower(text);
    if t in MONTH_DICT then Some(MONTH_DICT[t]) else None
  }

  lemma MonthNames(jan: string, dec: string, shouted: string)
    requires jan == "Jan" && dec == "Dec" && shouted == "NOV"
    ensures MonthOf(jan) == Some(1) && MonthOf(dec) == Some(12) && MonthOf(shouted) == Some(11)
  {
    assert Lower(jan) == "jan";
    assert Lower(dec) == "dec";
    assert Lower(shouted) == "nov";
  }

  /** Python's `not m` on a month that may be None. */
  predicate Falsy(m: Option<int>)
  {
    m.None? || m.value == 0
  }

  /** Python 2's `a < b` where None sorts below every integer. */
  predicate Py2Less(a: Option<int>, b: Option<int>)
  {
    match (a, b)
      case (None, None) => false
      case (None, Some(_)) => true
      case (Some(_), None) => false
      case (Some(x), Some(y)) => x < y
  }

  /** The part of a parser's state that carries the year across lines. */
  datatype YearState = YearState(yearUse: int, lastMonth: Option<int>)

  /**
   * What a line with this month does to the year state before its timestamp
   * is computed: the working year is settled, a remembered month is taken
   * from the line when there is none, and the year moves on when the month
   * is below the remembered one.
   */
  function Advance(s: YearState, month: Option<int>, src: YearSource, zone: string): (r: YearState)
  {
    var year := StartYear(s.yearUse, src, zone);
    var last := if Falsy(s.lastMonth) then month else s.lastMonth;
    YearState(if Py2Less(month, last) then year + 1 else year, last)
  }

  /** A month strictly below the remembered one moves to the next year; any other keeps the year. */
  lemma AdvanceGap(s: YearState, month: int, last: int, src: YearSource, zone: string)
    requires s.lastMonth == Some(last) && last != 0
    ensures Advance(s, Some(month), src, zone).lastMonth == s.lastMonth
    ensures Advance(s, Some(month), src, zone).yearUse ==
      StartYear(s.yearUse, src, zone) + (if month < last then 1 else 0)
  {
  }

  /** The first month seen becomes the remembered month and cannot start a new year. */
  lemma AdvanceFirst(s: YearState, month: Option<int>, src: YearSource, zone: string)
    requires Falsy(s.lastMonth)
    ensures Advance(s, month, src, zone) == YearState(StartYear(s.yearUse, src, zone), month)
  {
  }

  /** An unknown month after a known one counts as a gap, since None is below every month in Python 2. */
  lemma AdvanceUnknownMonth(s: YearState, src: YearSource, zone: string)
    requires s.lastMonth.Some? && s.lastMonth.value != 0
    ensures Advance(s, None, src, zone).yearUse == StartYear(s.yearUse, src, zone) + 1
  {
  }

  /** The working year never goes backwards, and moves by at most one per line. */
  lemma AdvanceMonotone(s: YearState, month: Option<int>, src: YearSource, zone: string)
    ensures StartYear(s.yearUse, src, zone) <= Advance(s, month, src, zone).yearUse <= StartYear(s.yearUse, src, zone) + 1
  {
  }

  /** The hours, minutes and seconds of a TIME field. */
  datatype Clock = Clock(hours: int, minutes: int, seconds: int)

  /**
   * _GetTimestamp: FromTimeParts in UTC, 0 for an invalid date.  A month
   * that is None makes datetime raise TypeError, which nothing catches.
   */
  function GetTimestamp(day: int, month: Option<int>, year: int, time: Clock, fromTimeParts: TimePartsFn): (r: Result<int>)
    ensures r.Err? <==> month.None?
    ensures r.Err? ==> r.exc == TypeError
    ensures r.Ok? ==> r.value == fromTimeParts(TimeParts(year, month.value, day, time.hours, time.minutes, time.seconds, 0, "UTC"))
  {
    match month
      case None => Err(TypeError)
      case Some(m) => Ok(fromTimeParts(TimeParts(year, m, day, time.hours, time.minutes, time.seconds, 0, "UTC")))
  }
}
