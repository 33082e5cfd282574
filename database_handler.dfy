/**
 * The `events` and `logs` tables of `sensor-node/database_handler.py`, held
 * in memory: the row flattening of `log_data` and the event and log
 * operations, with SQL `WHERE` as a filter and `ORDER BY` as a stable sort.
 */
module DatabaseHandler {
  import opened Optional
  import opened Seqs
  import opened ModbusHandler

  /** A row of `events`. */
  datatype Event = Event(id: int, name: string, startTime: real, endTime: Option<real>)

  /** Python's truthiness of `end_time`: NULL and 0.0 both count as not set. */
  predicate EndTimeSet(e: Event) {
    e.endTime.Some? && e.endTime.value != 0.0
  }

  /** The four columns kept per phase: voltage, current, power, energy. */
  datatype PhaseColumns = PhaseColumns(v: Option<int>, i: Option<int>, p: Option<int>, e: Option<int>)

  const NullPhase := PhaseColumns(None, None, None, None)

  /**
   * A row of `logs`: timestamp, event_id, p1_v ... p3_e, neutral_i. The
   * autoincrement row id is the row's position in the table.
   */
  datatype LogRow = LogRow(
    timestamp: real,
    eventId: Option<int>,
    p1: PhaseColumns,
    p2: PhaseColumns,
    p3: PhaseColumns,
    neutralI: Option<int>)

  /** The phase columns of address 1, 2 or 3. */
  function PhaseOf(row: LogRow, a: int): PhaseColumns
    requires 1 <= a <= 3
  {
    if a == 1 then row.p1 else if a == 2 then row.p2 else row.p3
  }

  // ---------------------------------------------------------------------------
  // log_data
  // ---------------------------------------------------------------------------

  datatype Field = Voltage | Current | Power | Energy

  function FieldOf(r: Reading, key: Field): int {
    match key
    case Voltage => r.deciVolts
    case Current => r.milliAmps
    case Power => r.deciWatts
    case Energy => r.wattHours
  }

  /** The helper `g`: the field of address `a`'s reading, NULL when the address is missing or `None`. */
  function G(data: map<int, Option<Reading>>, a: int, key: Field): Option<int> {
    if a in data && data[a].Some? then Some(FieldOf(data[a].value, key)) else None
  }

  function Phase(data: map<int, Option<Reading>>, a: int): PhaseColumns {
    PhaseColumns(G(data, a, Voltage), G(data, a, Current), G(data, a, Power), G(data, a, Energy))
  }

  /** The 15-value tuple that `log_data` inserts. */
  function FlattenRow(data: map<int, Option<Reading>>, timestamp: real, eventId: Option<int>, neutralI: Option<int>): LogRow {
    LogRow(timestamp, eventId, Phase(data, 1), Phase(data, 2), Phase(data, 3), neutralI)
  }

  /**
   * Each of the three phases holds all four fields of that address's reading
   * when there is one, and is wholly NULL otherwise; the other columns pass
   * through unchanged.
   */
  lemma FlattenRowColumns(data: map<int, Option<Reading>>, timestamp: real, eventId: Option<int>, neutralI: Option<int>, a: int)
    requires 1 <= a <= 3
    ensures var row := FlattenRow(data, timestamp, eventId, neutralI);
      && row.timestamp == timestamp && row.eventId == eventId && row.neutralI == neutralI
      && PhaseOf(row, a) ==
           if a in data && data[a].Some? then
             var r := data[a].value;
             PhaseColumns(Some(r.deciVolts), Some(r.milliAmps), Some(r.deciWatts), Some(r.wattHours))
           else NullPhase
  {
  }

  /** What the row keeps of one address: the four stored fields, if there is a reading. */
  function Stored(data: map<int, Option<Reading>>, a: int): Option<(int, int, int, int)> {
    if a in data && data[a].Some? then
      var r := data[a].value;
      Some((r.deciVolts, r.milliAmps, r.deciWatts, r.wattHours))
    else None
  }

  /**
   * Addresses outside 1..3, frequency and power factor never reach the row:
   * two dictionaries that agree on what is stored give the same row.
   */
  lemma FlattenRowIgnoresRest(d1: map<int, Option<Reading>>, d2: map<int, Option<Reading>>, timestamp: real, eventId: Option<int>, neutralI: Option<int>)
    requires Stored(d1, 1) == Stored(d2, 1) && Stored(d1, 2) == Stored(d2, 2) && Stored(d1, 3) == Stored(d2, 3)
    ensures FlattenRow(d1, timestamp, eventId, neutralI) == FlattenRow(d2, timestamp, eventId, neutralI)
  {
    assert Phase(d1, 1) == Phase(d2, 1);
    assert Phase(d1, 2) == Phase(d2, 2);
    assert Phase(d1, 3) == Phase(d2, 3);
  }

  // ---------------------------------------------------------------------------
  // Table helpers
  // ---------------------------------------------------------------------------

  /** SQL `UPDATE events SET ... WHERE id = ?`: `f` applied to the matching rows only. */
  function UpdateWhere(es: seq<Event>, id: int, f: Event -> Event): (r: seq<Event>)
    ensures |r| == |es|
    ensures forall k :: 0 <= k < |es| ==> r[k] == if es[k].id == id then f(es[k]) else es[k]
  {
    if es == [] then []
    else
      var last := es[|es| - 1];
      UpdateWhere(es[..|es| - 1], id, f) + [if last.id == id then f(last) else last]
  }

  function StampEnd(now: real): Event -> Event {
    (e: Event) => e.(endTime := Some(now))
  }

  function Rename(name: string): Event -> Event {
    (e: Event) => e.(name := name)
  }

  /** SQL `SELECT * FROM events WHERE id = ?`. */
  function FindEvent(es: seq<Event>, id: int): (r: Option<Event>)
    ensures r.Some? <==> exists k :: 0 <= k < |es| && es[k].id == id
    ensures r.Some? ==> r.value in es && r.value.id == id
  {
    if es == [] then None
    else if es[|es| - 1].id == id then Some(es[|es| - 1])
    else
      var r := FindEvent(es[..|es| - 1], id);
      assert r.Some? ==> r.value in es;
      r
  }

  function LogsOf(logs: seq<LogRow>, id: int): seq<LogRow> {
    Filter(logs, (l: LogRow) => l.eventId == Some(id))
  }

  function LogsNotOf(logs: seq<LogRow>, id: int): seq<LogRow> {
    Filter(logs, (l: LogRow) => l.eventId != Some(id))
  }

  function NotId(id: int): Event -> bool {
    (e: Event) => e.id != id
  }

  function EventsNot(es: seq<Event>, id: int): seq<Event> {
    Filter(es, NotId(id))
  }

  predicate IdBefore(a: Event, b: Event) {
    a.id < b.id
  }

  function Timestamp(l: LogRow): real { l.timestamp }
  function NewestFirst(l: LogRow): real { -l.timestamp }
  function LatestStartFirst(e: Event): real { -e.startTime }

  /** SQLite's `LIMIT n`: a negative limit means no limit. */
  function Limit<T>(s: seq<T>, n: int): seq<T> {
    if n < 0 || n >= |s| then s else s[..n]
  }

  ghost predicate IdsIncreasing(es: seq<Event>) {
    forall i, j :: 0 <= i < j < |es| ==> es[i].id < es[j].id
  }

  /** Deleting events keeps the ids increasing and below the counter. */
  lemma EventsNotKeepsIds(es: seq<Event>, id: int, next: int)
    requires IdsIncreasing(es)
    requires forall k :: 0 <= k < |es| ==> 1 <= es[k].id < next
    ensures IdsIncreasing(EventsNot(es, id))
    ensures forall k :: 0 <= k < |EventsNot(es, id)| ==> 1 <= EventsNot(es, id)[k].id < next
  {
    FilterKeepsPairwise(es, NotId(id), IdBefore);
    var r := EventsNot(es, id);
    forall k | 0 <= k < |r|
      ensures 1 <= r[k].id < next
    {
      assert r[k] in es;
    }
  }

  /** The result of `get_event_details`: the event with its duration and log count. */
  datatype EventDetails = EventDetails(event: Event, duration: real, logCount: nat)

  // ---------------------------------------------------------------------------
  // The database
  // ---------------------------------------------------------------------------

  class Database {
    var events: seq<Event>
    var logs: seq<LogRow>
    /** SQLite's AUTOINCREMENT counter for `events.id`: ids are never reused. */
    var nextEventId: int

    ghost predicate Valid()
      reads this
    {
      && nextEventId >= 1
      && (forall k :: 0 <= k < |events| ==> 1 <= events[k].id < nextEventId)
      && IdsIncreasing(events)
    }

    /** `init_db` on a fresh database file: both tables empty. */
    constructor ()
      ensures Valid() && events == [] && logs == []
    {
      events, logs, nextEventId := [], [], 1;
    }

    /** `create_event`: a new event with no end time, under an id never used before. */
    method CreateEvent(name: string, now: real) returns (id: int)
      requires Valid()
      modifies this`events, this`nextEventId
      ensures Valid()
      ensures forall k :: 0 <= k < |old(events)| ==> old(events)[k].id != id
      ensures events == old(events) + [Event(id, name, now, None)]
    {
      id := nextEventId;
      events := events + [Event(id, name, now, None)];
      nextEventId := nextEventId + 1;
    }

    /** `stop_event`: sets the end time of that event only (again, if it was already set). */
    method StopEvent(id: int, now: real)
      requires Valid()
      modifies this`events
      ensures Valid()
      ensures events == UpdateWhere(old(events), id, StampEnd(now))
    {
      events := UpdateWhere(events, id, StampEnd(now));
    }

    /** `update_event`: renames that event only. */
    method UpdateEvent(id: int, name: string)
      requires Valid()
      modifies this`events
      ensures Valid()
      ensures events == UpdateWhere(old(events), id, Rename(name))
    {
      events := UpdateWhere(events, id, Rename(name));
    }

    /** `delete_event`: removes that event's logs, then the event itself. */
    method DeleteEvent(id: int)
      requires Valid()
      modifies this`events, this`logs
      ensures Valid()
      ensures logs == LogsNotOf(old(logs), id)
      ensures events == EventsNot(old(events), id)
    {
      logs := LogsNotOf(logs, id);
      EventsNotKeepsIds(events, id, nextEventId);
      events := EventsNot(events, id);
    }

    /** `log_data`: appends the flattened row. */
    method LogData(data: map<int, Option<Reading>>, timestamp: real, eventId: Option<int>, neutralI: Option<int>)
      requires Valid()
      modifies this`logs
      ensures Valid()
      ensures logs == old(logs) + [FlattenRow(data, timestamp, eventId, neutralI)]
    {
      logs := logs + [FlattenRow(data, timestamp, eventId, neutralI)];
    }

    /** `get_events`: every event, latest start first. */
    function GetEvents(): seq<Event>
      reads this
    {
      SortBy(events, LatestStartFirst)
    }

    /**
     * `get_event_details`: the event, with its duration up to its end time
     * (or up to `now` while the end time is not set) and its number of logs.
     */
    function GetEventDetails(id: int, now: real): (r: Option<EventDetails>)
      reads this
    {
      match FindEvent(events, id)
      case None => None
      case Some(e) =>
        var end := if EndTimeSet(e) then e.endTime.value else now;
        Some(EventDetails(e, end - e.startTime, |LogsOf(logs, id)|))
    }

    /**
     * `get_logs`: with a (truthy) event id, all of that event's logs, oldest
     * first; otherwise the newest `limit` logs, newest first.
     */
    function GetLogs(eventId: Option<int>, limit: int): seq<LogRow>
      reads this
    {
      if eventId.Some? && eventId.value != 0 then SortBy(LogsOf(logs, eventId.value), Timestamp)
      else Limit(SortBy(logs, NewestFirst), limit)
    }
  }

  // ---------------------------------------------------------------------------
  // Properties of the operations
  // ---------------------------------------------------------------------------

  /** `stop_event` changes only the end time, and only of the event with that id. */
  lemma StopEventOnlyStampsThatEvent(es: seq<Event>, id: int, now: real)
    ensures var r := UpdateWhere(es, id, StampEnd(now));
      && |r| == |es|
      && forall k :: 0 <= k < |es| ==>
           && r[k].id == es[k].id && r[k].name == es[k].name && r[k].startTime == es[k].startTime
           && r[k].endTime == (if es[k].id == id then Some(now) else es[k].endTime)
  {
  }

  /** `update_event` changes only the name, and only of the event with that id. */
  lemma UpdateEventOnlyRenamesThatEvent(es: seq<Event>, id: int, name: string)
    ensures var r := UpdateWhere(es, id, Rename(name));
      && |r| == |es|
      && forall k :: 0 <= k < |es| ==>
           && r[k].id == es[k].id && r[k].startTime == es[k].startTime && r[k].endTime == es[k].endTime
           && r[k].name == (if es[k].id == id then name else es[k].name)
  {
  }

  /**
   * `delete_event` cascades: no event with that id and no log tagged with it
   * remain, and every other event and log is kept, as often as it occurred.
   */
  lemma DeleteEventCascades(es: seq<Event>, logs: seq<LogRow>, id: int, e: Event, l: LogRow)
    ensures e in EventsNot(es, id) <==> e in es && e.id != id
    ensures l in LogsNotOf(logs, id) <==> l in logs && l.eventId != Some(id)
    ensures l.eventId != Some(id) ==> multiset(LogsNotOf(logs, id))[l] == multiset(logs)[l]
    ensures e.id != id ==> multiset(EventsNot(es, id))[e] == multiset(es)[e]
  {
    FilterCounts(logs, (r: LogRow) => r.eventId != Some(id), l);
    FilterCounts(es, NotId(id), e);
  }

  /** With an event filter, `get_logs` returns exactly that event's logs, in ascending timestamp order. */
  lemma GetLogsOfEvent(db: Database, id: int, limit: int)
    requires id != 0
    ensures var r := db.GetLogs(Some(id), limit);
      && SortedBy(r, Timestamp)
      && (forall l :: l in r ==> l.eventId == Some(id))
      && (forall l :: multiset(r)[l] == if l.eventId == Some(id) then multiset(db.logs)[l] else 0)
  {
    var f := LogsOf(db.logs, id);
    SortBySorted(f, Timestamp);
    SortByPermutes(f, Timestamp);
    forall l
      ensures multiset(db.GetLogs(Some(id), limit))[l] == if l.eventId == Some(id) then multiset(db.logs)[l] else 0
    {
      FilterCounts(db.logs, (r: LogRow) => r.eventId == Some(id), l);
    }
    forall l | l in db.GetLogs(Some(id), limit)
      ensures l.eventId == Some(id)
    {
      assert l in multiset(f);
    }
  }

  /**
   * Without a filter, `get_logs` returns `limit` logs (all of them when the
   * limit is negative or too large), newest first, and no log left out is
   * newer than one returned.
   */
  lemma GetLogsLatest(db: Database, limit: int)
    ensures var r := db.GetLogs(None, limit);
      && |r| == (if 0 <= limit <= |db.logs| then limit else |db.logs|)
      && (forall i, j :: 0 <= i < j < |r| ==> r[i].timestamp >= r[j].timestamp)
      && multiset(r) <= multiset(db.logs)
      && (forall x, y :: x in r && y in multiset(db.logs) - multiset(r) ==> y.timestamp <= x.timestamp)
  {
    var sorted := SortBy(db.logs, NewestFirst);
    SortBySorted(db.logs, NewestFirst);
    SortByPermutes(db.logs, NewestFirst);
    var r := db.GetLogs(None, limit);
    assert r == sorted[..|r|];
    NewestPrefix(sorted, |r|);
  }

  /** A prefix of a newest-first sequence holds its newest elements. */
  lemma NewestPrefix(sorted: seq<LogRow>, n: nat)
    requires n <= |sorted|
    requires SortedBy(sorted, NewestFirst)
    ensures forall i, j :: 0 <= i < j < n ==> sorted[i].timestamp >= sorted[j].timestamp
    ensures multiset(sorted[..n]) <= multiset(sorted)
    ensures forall x, y :: x in sorted[..n] && y in multiset(sorted) - multiset(sorted[..n]) ==> y.timestamp <= x.timestamp
  {
    var r := sorted[..n];
    assert sorted == r + sorted[n..];
    assert multiset(sorted) == multiset(r) + multiset(sorted[n..]);
    forall i, j | 0 <= i < j < n
      ensures sorted[i].timestamp >= sorted[j].timestamp
    {
      assert NewestFirst(sorted[i]) <= NewestFirst(sorted[j]);
    }
    forall x, y | x in r && y in multiset(sorted) - multiset(r)
      ensures y.timestamp <= x.timestamp
    {
      var i :| 0 <= i < n && r[i] == x;
      assert y in multiset(sorted[n..]);
      var j :| 0 <= j < |sorted| - n && sorted[n..][j] == y;
      assert NewestFirst(sorted[i]) <= NewestFirst(sorted[n + j]);
    }
  }

  /** `get_events` lists every event once each, latest start first. */
  lemma GetEventsOrdered(db: Database)
    ensures multiset(db.GetEvents()) == multiset(db.events)
    ensures forall i, j :: 0 <= i < j < |db.GetEvents()| ==> db.GetEvents()[i].startTime >= db.GetEvents()[j].startTime
  {
    SortByPermutes(db.events, LatestStartFirst);
    SortBySorted(db.events, LatestStartFirst);
    var r := db.GetEvents();
    forall i, j | 0 <= i < j < |r|
      ensures r[i].startTime >= r[j].startTime
    {
      assert LatestStartFirst(r[i]) <= LatestStartFirst(r[j]);
    }
  }

  /**
   * `get_event_details`: found exactly when an event has the id; the duration
   * runs to the end time when it is set and to `now` otherwise, and the log
   * count is the number of logs tagged with the id.
   */
  lemma EventDetailsMeaning(db: Database, id: int, now: real)
    requires db.Valid()
    ensures var r := db.GetEventDetails(id, now);
      && (r.Some? <==> exists k :: 0 <= k < |db.events| && db.events[k].id == id)
      && (r.Some? ==>
            && r.value.event in db.events && r.value.event.id == id
            && r.value.duration == (if EndTimeSet(r.value.event) then r.value.event.endTime.value else now) - r.value.event.startTime
            && r.value.logCount == |set k | 0 <= k < |db.logs| && db.logs[k].eventId == Some(id)|)
  {
    LogCountIsTaggedRows(db.logs, id);
  }

  /** Ids are a primary key: looking up a stored event's id finds that very event. */
  lemma FindStoredEvent(db: Database, e: Event)
    requires db.Valid() && e in db.events
    ensures FindEvent(db.events, e.id) == Some(e)
  {
    var r := FindEvent(db.events, e.id);
    var k :| 0 <= k < |db.events| && db.events[k] == e;
    var k' :| 0 <= k' < |db.events| && db.events[k'] == r.value;
    if k < k' {
      assert db.events[k].id < db.events[k'].id;
    } else if k' < k {
      assert db.events[k'].id < db.events[k].id;
    }
  }

  /** A closed event's duration no longer depends on the clock; an open one's grows with it. */
  lemma DurationAgainstClock(db: Database, id: int, t1: real, t2: real)
    requires t1 <= t2
    requires db.GetEventDetails(id, t1).Some?
    ensures var d1, d2 := db.GetEventDetails(id, t1).value, db.GetEventDetails(id, t2).value;
      && d1.event == d2.event
      && (EndTimeSet(d1.event) ==> d1.duration == d2.duration)
      && (!EndTimeSet(d1.event) ==> d2.duration - d1.duration == t2 - t1)
  {
  }

  /** The logs of an event, counted by position: one per row tagged with its id. */
  lemma {:induction false} LogCountIsTaggedRows(logs: seq<LogRow>, id: int)
    ensures |LogsOf(logs, id)| == |set k | 0 <= k < |logs| && logs[k].eventId == Some(id)|
  {
    if logs == [] {
    } else {
      var init := logs[..|logs| - 1];
      LogCountIsTaggedRows(init, id);
      var s0 := set k | 0 <= k < |init| && init[k].eventId == Some(id);
      var s := set k | 0 <= k < |logs| && logs[k].eventId == Some(id);
      if logs[|logs| - 1].eventId == Some(id) {
        assert s == s0 + {|logs| - 1};
      } else {
        assert s == s0;
      }
    }
  }
}
