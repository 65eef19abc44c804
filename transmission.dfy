/**
 * The Transmission bencode plugin: a resume file gives an added, a done
 * and an activity event, each when its date is set, all carrying the
 * destination and the seeding time in minutes.
 */
module Transmission {
  import opened Common
  import opened Timelib
  import opened BencodeValues

  /** ADDED_TIME, FILE_DOWNLOADED and ACCESS_TIME. */
  datatype TimeDesc = AddedTime | FileDownloaded | AccessTime

  /** TransmissionEvent: a POSIX time event with the destination and the seeding minutes. */
  datatype TransmissionEvent = TransmissionEvent(
    timestamp: int, timestampDesc: TimeDesc, destination: Option<BValue>, seedtime: int)

  /** TransmissionEvent's initialiser; `seedtime // 60` raises TypeError for a missing or non-integer time. */
  function NewEvent(timestamp: BValue, desc: TimeDesc, destination: Option<BValue>, seedtime: Option<BValue>): Yielded<TransmissionEvent>
  {
    match Minutes(seedtime)
    case Err(x) => Yielded([], Some(x))
    case Ok(m) => Yielded([TransmissionEvent(PosixOf(timestamp), desc, destination, m)], None)
  }

  /** One conditional yield: an event when the date is truthy. */
  function DateEvent(date: Option<BValue>, desc: TimeDesc, destination: Option<BValue>, seedtime: Option<BValue>): Yielded<TransmissionEvent>
  {
    if Truthy(date) then NewEvent(date.value, desc, destination, seedtime) else Yielded([], None)
  }

  /** The three conditional yields: added, then done, then activity. */
  function Entries(added: Option<BValue>, done: Option<BValue>, activity: Option<BValue>,
                   destination: Option<BValue>, seedingTime: Option<BValue>): Yielded<TransmissionEvent>
  {
    Chain(DateEvent(added, AddedTime, destination, seedingTime),
      Chain(DateEvent(done, FileDownloaded, destination, seedingTime),
            DateEvent(activity, AccessTime, destination, seedingTime)))
  }

  /** GetEntries, on the values the resume dictionary holds. */
  function GetEntries(data: seq<(string, BValue)>): Yielded<TransmissionEvent>
  {
    Entries(Get(data, "added-date"), Get(data, "done-date"), Get(data, "activity-date"),
            Get(data, "destination"), Get(data, "seeding-time-seconds"))
  }

  /** A date with its description when it is set. */
  function IfSet(date: Option<BValue>, desc: TimeDesc): (r: seq<(BValue, TimeDesc)>)
    ensures |r| <= 1
  {
    if Truthy(date) then [(date.value, desc)] else []
  }

  /** The dates that are set, in the order of their events. */
  function SetDates(added: Option<BValue>, done: Option<BValue>, activity: Option<BValue>): (r: seq<(BValue, TimeDesc)>)
    ensures |r| <= 3
  {
    IfSet(added, AddedTime) + IfSet(done, FileDownloaded) + IfSet(activity, AccessTime)
  }

  /** The events of some set dates, with one destination and seeding minutes. */
  function EventsFor(dates: seq<(BValue, TimeDesc)>, destination: Option<BValue>, minutes: int): (r: seq<TransmissionEvent>)
    ensures |r| == |dates|
  {
    seq(|dates|, i requires 0 <= i < |dates| => TransmissionEvent(PosixOf(dates[i].0), dates[i].1, destination, minutes))
  }

  /** One conditional yield with an integer seeding time: the event of its date when set, and no exception. */
  lemma DateEventOk(date: Option<BValue>, desc: TimeDesc, destination: Option<BValue>, seconds: int)
    ensures DateEvent(date, desc, destination, Some(BInt(seconds))) ==
      Yielded(EventsFor(IfSet(date, desc), destination, seconds / 60), None)
  {
  }

  /** The events of concatenated dates are the concatenated events. */
  lemma EventsForConcat(a: seq<(BValue, TimeDesc)>, b: seq<(BValue, TimeDesc)>, destination: Option<BValue>, minutes: int)
    ensures EventsFor(a + b, destination, minutes) == EventsFor(a, destination, minutes) + EventsFor(b, destination, minutes)
  {
    var l, r := EventsFor(a + b, destination, minutes), EventsFor(a, destination, minutes) + EventsFor(b, destination, minutes);
    forall i | 0 <= i < |l|
      ensures l[i] == r[i]
    {
      if i < |a| {
        assert (a + b)[i] == a[i];
      } else {
        assert (a + b)[i] == b[i - |a|];
      }
    }
  }

  /** Three steps without an exception yield all their events and no exception. */
  lemma ChainClean(x: Yielded<TransmissionEvent>, y: Yielded<TransmissionEvent>, z: Yielded<TransmissionEvent>)
    requires x.error.None? && y.error.None? && z.error.None?
    ensures Chain(x, Chain(y, z)) == Yielded(x.events + (y.events + z.events), None)
  {
  }

  /**
   * With an integer seeding time there is one event per set date, in the
   * order added, done, activity, each at its POSIX time with the
   * destination and the seeding time in whole minutes.
   */
  lemma EventsOfSetDates(added: Option<BValue>, done: Option<BValue>, activity: Option<BValue>,
                         destination: Option<BValue>, seconds: int)
    ensures Entries(added, done, activity, destination, Some(BInt(seconds))) ==
      Yielded(EventsFor(SetDates(added, done, activity), destination, seconds / 60), None)
  {
    var st, m := Some(BInt(seconds)), seconds / 60;
    var a, d, c := IfSet(added, AddedTime), IfSet(done, FileDownloaded), IfSet(activity, AccessTime);
    DateEventOk(added, AddedTime, destination, seconds);
    DateEventOk(done, FileDownloaded, destination, seconds);
    DateEventOk(activity, AccessTime, destination, seconds);
    ChainClean(DateEvent(added, AddedTime, destination, st), DateEvent(done, FileDownloaded, destination, st),
               DateEvent(activity, AccessTime, destination, st));
    EventsForConcat(a + d, c, destination, m);
    EventsForConcat(a, d, destination, m);
  }

  /** Without a usable seeding time the first set date raises TypeError and nothing is yielded. */
  lemma MissingSeedingTime(added: Option<BValue>, done: Option<BValue>, activity: Option<BValue>,
                           destination: Option<BValue>, seedingTime: Option<BValue>)
    requires Minutes(seedingTime).Err?
    ensures Entries(added, done, activity, destination, seedingTime) ==
      if SetDates(added, done, activity) == [] then Yielded([], None) else Yielded([], Some(TypeError))
  {
  }

  /** Without any set date there are no events, whatever the rest holds. */
  lemma NoDatesNoEvents(data: seq<(string, BValue)>)
    requires !Truthy(Get(data, "added-date")) && !Truthy(Get(data, "done-date")) && !Truthy(Get(data, "activity-date"))
    ensures GetEntries(data) == Yielded([], None)
  {
  }
}
