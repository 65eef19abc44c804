/**
 * The Mac OS X application usage SQLite plugin: one event per row of the
 * application_usage table, the rows taken in order of their last time.
 */
module AppUsage {
  import opened Common
  import opened Timelib

  /** A row of the query. */
  datatype UsageRow = UsageRow(lastTime: int, event: string, bundleId: string, appVersion: string,
                               appPath: string, numberTimes: int)

  datatype MacOSXApplicationUsageEvent = MacOSXApplicationUsageEvent(
    timestamp: int, timestampDesc: string, application: string, appVersion: string,
    bundleId: string, count: int)

  /** ParseApplicationUsageRow: exactly one event, at last_time, described as 'Application <event>'. */
  function ParseApplicationUsageRow(row: UsageRow): (r: seq<MacOSXApplicationUsageEvent>)
    ensures |r| == 1
    ensures r[0].timestamp == FromPosixTime(row.lastTime)
    ensures StartsWith(r[0].timestampDesc, "Application ") && r[0].timestampDesc[12..] == row.event
    ensures r[0].application == row.appPath && r[0].bundleId == row.bundleId && r[0].count == row.numberTimes
  {
    [MacOSXApplicationUsageEvent(FromPosixTime(row.lastTime), "Application " + row.event,
                                 row.appPath, row.appVersion, row.bundleId, row.numberTimes)]
  }

  /** The rows in the order the query returns them: ORDER BY last_time. */
  predicate OrderedByLastTime(rows: seq<UsageRow>)
  {
    forall i, j :: 0 <= i < j < |rows| ==> rows[i].lastTime <= rows[j].lastTime
  }

  /** The events of all the rows, row by row. */
  function ParseRows(rows: seq<UsageRow>): (r: seq<MacOSXApplicationUsageEvent>)
    ensures |r| == |rows|
    ensures forall i :: 0 <= i < |rows| ==> r[i] == ParseApplicationUsageRow(rows[i])[0]
  {
    if rows == [] then [] else ParseApplicationUsageRow(rows[0]) + ParseRows(rows[1..])
  }

  /** FromPosixTime keeps the order of times inside the timestamp range. */
  lemma PosixMonotone(a: int, b: int)
    requires PosixInRange(a) && PosixInRange(b) && a <= b
    ensures FromPosixTime(a) <= FromPosixTime(b)
  {
    assert a * MICRO_SECONDS_PER_SECOND <= b * MICRO_SECONDS_PER_SECOND;
  }

  /** Rows in query order give events in timestamp order, as long as every time is in range. */
  lemma EventsInOrder(rows: seq<UsageRow>)
    requires OrderedByLastTime(rows)
    requires forall i :: 0 <= i < |rows| ==> PosixInRange(rows[i].lastTime)
    ensures var r := ParseRows(rows);
      forall i, j :: 0 <= i < j < |r| ==> r[i].timestamp <= r[j].timestamp
  {
    var r := ParseRows(rows);
    forall i, j | 0 <= i < j < |r| ensures r[i].timestamp <= r[j].timestamp {
      PosixMonotone(rows[i].lastTime, rows[j].lastTime);
    }
  }

  /** A time beyond the range is stored as 0 and so can come before earlier times. */
  lemma OutOfRangeBreaksOrder()
    ensures var rows := [UsageRow(1, "launch", "", "", "", 1), UsageRow(TIMESTAMP_MAX_SECONDS + 1, "quit", "", "", "", 1)];
      OrderedByLastTime(rows) && ParseRows(rows)[1].timestamp < ParseRows(rows)[0].timestamp
  {
    var rows := [UsageRow(1, "launch", "", "", "", 1), UsageRow(TIMESTAMP_MAX_SECONDS + 1, "quit", "", "", "", 1)];
    assert ParseRows(rows)[0] == ParseApplicationUsageRow(rows[0])[0];
    assert ParseRows(rows)[1] == ParseApplicationUsageRow(rows[1])[0];
  }
}
