/**
 * `sensor-node/app.py`: the neutral-current estimate, one tick of the
 * background poller, and the recording state `current_event_id` driven by
 * the start/stop routes.
 *
 * Currents are in milliamperes, so the neutral current is the radicand's
 * square root rounded to the nearest integer: `round(sqrt(x), 3)` in amperes.
 */
module SensorApp {
  import opened Optional
  import opened ModbusHandler
  import opened DatabaseHandler
  import opened Seqs

  // ---------------------------------------------------------------------------
  // calculate_neutral
  // ---------------------------------------------------------------------------

  /** `i1² + i2² + i3² − (i1·i2 + i2·i3 + i3·i1)`. */
  function Radicand(i1: int, i2: int, i3: int): int {
    (i1 * i1 + i2 * i2 + i3 * i3) - (i1 * i2 + i2 * i3 + i3 * i1)
  }

  /** The radicand is half the sum of the squared pairwise differences. */
  lemma RadicandIsHalfSquaredDifferences(i1: int, i2: int, i3: int)
    ensures 2 * Radicand(i1, i2, i3) == (i1 - i2) * (i1 - i2) + (i2 - i3) * (i2 - i3) + (i3 - i1) * (i3 - i1)
  {
    assert (i1 - i2) * (i1 - i2) == i1 * i1 - 2 * (i1 * i2) + i2 * i2;
    assert (i2 - i3) * (i2 - i3) == i2 * i2 - 2 * (i2 * i3) + i3 * i3;
    assert (i3 - i1) * (i3 - i1) == i3 * i3 - 2 * (i3 * i1) + i1 * i1;
  }

  /** So it is never negative, and the `max(0, …)` clamp changes nothing in exact arithmetic. */
  lemma RadicandNonNegative(i1: int, i2: int, i3: int)
    ensures Radicand(i1, i2, i3) >= 0
    ensures Clamp(Radicand(i1, i2, i3)) == Radicand(i1, i2, i3)
  {
    RadicandIsHalfSquaredDifferences(i1, i2, i3);
    Square(i1 - i2);
    Square(i2 - i3);
    Square(i3 - i1);
  }

  /** The radicand is zero exactly when the three currents are equal. */
  lemma RadicandZeroIffBalanced(i1: int, i2: int, i3: int)
    ensures Radicand(i1, i2, i3) == 0 <==> i1 == i2 == i3
  {
    RadicandIsHalfSquaredDifferences(i1, i2, i3);
    Square(i1 - i2);
    Square(i2 - i3);
    Square(i3 - i1);
  }

  /** A square is never negative, and zero only for zero. */
  lemma Square(d: int)
    ensures d * d >= 0
    ensures d * d == 0 <==> d == 0
  {
    if d > 0 {
      assert d * d >= d;
    } else if d < 0 {
      assert d * d == (-d) * (-d) >= -d;
    }
  }

  /** The radicand does not depend on the order of the phases. */
  lemma RadicandSymmetric(i1: int, i2: int, i3: int)
    ensures Radicand(i1, i2, i3) == Radicand(i2, i1, i3)
    ensures Radicand(i1, i2, i3) == Radicand(i1, i3, i2)
    ensures Radicand(i1, i2, i3) == Radicand(i3, i1, i2)
  {
    assert i1 * i2 == i2 * i1 && i2 * i3 == i3 * i2 && i3 * i1 == i1 * i3;
  }

  /** `max(0, val)`. */
  function Clamp(x: int): nat {
    if x < 0 then 0 else x
  }

  /** The integer square root, rounded down. */
  function FloorSqrt(n: nat): (r: nat)
    ensures r * r <= n < (r + 1) * (r + 1)
  {
    if n < 4 then (if n == 0 then 0 else 1)
    else
      var q := FloorSqrt(n / 4);
      SqrtStep(n, q);
      if (2 * q + 1) * (2 * q + 1) <= n then 2 * q + 1 else 2 * q
  }

  /** Doubling the root of `n / 4` brackets the root of `n` to within one. */
  lemma SqrtStep(n: nat, q: nat)
    requires q * q <= n / 4 < (q + 1) * (q + 1)
    ensures (2 * q) * (2 * q) <= n < (2 * q + 2) * (2 * q + 2)
  {
    var m := n / 4;
    assert 4 * m <= n < 4 * m + 4;
    assert (2 * q) * (2 * q) == 4 * (q * q);
    assert (2 * q + 2) * (2 * q + 2) == 4 * ((q + 1) * (q + 1));
  }

  /**
   * The square root rounded to the nearest integer: `r` is within one half
   * of `sqrt(n)` (ties cannot occur for an integer `n`).
   */
  function RoundSqrt(n: nat): (r: nat)
    ensures r == 0 || (2 * r - 1) * (2 * r - 1) < 4 * n
    ensures 4 * n < (2 * r + 1) * (2 * r + 1)
  {
    var f := FloorSqrt(n);
    RoundStep(n, f);
    if n - f * f > f then f + 1 else f
  }

  /** Rounding the floor root up exactly when `n` is past the midpoint `f² + f`. */
  lemma RoundStep(n: nat, f: nat)
    requires f * f <= n < (f + 1) * (f + 1)
    ensures n - f * f > f ==> (2 * f + 1) * (2 * f + 1) < 4 * n < (2 * f + 3) * (2 * f + 3)
    ensures n - f * f <= f ==> (f == 0 || (2 * f - 1) * (2 * f - 1) < 4 * n) && 4 * n < (2 * f + 1) * (2 * f + 1)
  {
    Expand(f);
  }

  /** The squares around `2f`, written out in `f²`. */
  lemma Expand(f: nat)
    ensures (2 * f + 1) * (2 * f + 1) == 4 * (f * f) + 4 * f + 1
    ensures (2 * f + 3) * (2 * f + 3) == 4 * (f * f) + 12 * f + 9
    ensures (f + 1) * (f + 1) == f * f + 2 * f + 1
    ensures f > 0 ==> (2 * f - 1) * (2 * f - 1) == 4 * (f * f) - 4 * f + 1
  {
  }

  /**
   * `calculate_neutral` in milliamperes: the nearest integer to the square
   * root of the clamped radicand.
   */
  function CalculateNeutral(i1: int, i2: int, i3: int): (r: nat)
    ensures var x := Radicand(i1, i2, i3);
      (r == 0 || (2 * r - 1) * (2 * r - 1) < 4 * x) && 4 * x < (2 * r + 1) * (2 * r + 1)
  {
    RadicandNonNegative(i1, i2, i3);
    RoundSqrt(Clamp(Radicand(i1, i2, i3)))
  }

  /** Balanced phases have no neutral current, and only they. */
  lemma NeutralZeroIffBalanced(i1: int, i2: int, i3: int)
    ensures CalculateNeutral(i1, i2, i3) == 0 <==> i1 == i2 == i3
  {
    RadicandZeroIffBalanced(i1, i2, i3);
    RadicandNonNegative(i1, i2, i3);
    var r := CalculateNeutral(i1, i2, i3);
    if r == 0 {
      assert 4 * Radicand(i1, i2, i3) < 1;
    }
  }

  /** The neutral current does not depend on the order of the phases. */
  lemma NeutralSymmetric(i1: int, i2: int, i3: int)
    ensures CalculateNeutral(i1, i2, i3) == CalculateNeutral(i2, i1, i3)
    ensures CalculateNeutral(i1, i2, i3) == CalculateNeutral(i1, i3, i2)
    ensures CalculateNeutral(i1, i2, i3) == CalculateNeutral(i3, i1, i2)
  {
    RadicandSymmetric(i1, i2, i3);
  }

  // ---------------------------------------------------------------------------
  // One poller tick
  // ---------------------------------------------------------------------------

  /** `latest_data`: `{}` before the first tick, then the last published snapshot. */
  datatype LatestData =
    | NoData
    | Snapshot(timestamp: real, sensors: map<int, Option<Reading>>, neutralCurrent: int, eventId: Option<int>)

  /**
   * `get_i`: the current of address `a`. A missing key reads 0, but a `None`
   * entry raises (`None.get`), shown here as `None`.
   */
  function GetI(data: map<int, Option<Reading>>, a: int): Option<int> {
    if a !in data then Some(0)
    else
      match data[a]
      case None => None
      case Some(r) => Some(r.milliAmps)
  }

  /**
   * The tick's neutral current: 0 unless exactly three addresses are
   * configured; otherwise computed from the first, second and third address
   * in configuration order. `None` when computing it raises.
   */
  function TickNeutral(addresses: seq<int>, data: map<int, Option<Reading>>): Option<int> {
    if |addresses| != 3 then Some(0)
    else
      match (GetI(data, addresses[0]), GetI(data, addresses[1]), GetI(data, addresses[2]))
      case (Some(i1), Some(i2), Some(i3)) => Some(CalculateNeutral(i1, i2, i3))
      case _ => None
  }

  /**
   * On the dictionary `read_all` returns: a tick with other than three
   * addresses always goes through with neutral current 0; with three, it
   * raises exactly when one of them read `None`, and otherwise uses their
   * currents in configuration order.
   */
  lemma TickNeutralCases(addresses: seq<int>, simulationMode: bool, bus: Bus, clock: real)
    ensures var data := ReadAllSpec(addresses, simulationMode, bus, clock);
      && (|addresses| != 3 ==> TickNeutral(addresses, data) == Some(0))
      && (|addresses| == 3 ==>
            && (TickNeutral(addresses, data).None? <==> exists k :: 0 <= k < 3 && data[addresses[k]].None?)
            && (TickNeutral(addresses, data).Some? ==>
                  TickNeutral(addresses, data) == Some(CalculateNeutral(
                    data[addresses[0]].value.milliAmps,
                    data[addresses[1]].value.milliAmps,
                    data[addresses[2]].value.milliAmps))))
  {
    var data := ReadAllSpec(addresses, simulationMode, bus, clock);
    if |addresses| == 3 {
      forall k | 0 <= k < 3
        ensures addresses[k] in data
      {
        ReadAllEntries(addresses, simulationMode, bus, clock, addresses[k]);
      }
      TickNeutralOfThree(addresses, data);
    }
  }

  /** With three configured keys present, the tick raises exactly on a `None` among them. */
  lemma TickNeutralOfThree(addresses: seq<int>, data: map<int, Option<Reading>>)
    requires |addresses| == 3
    requires forall k :: 0 <= k < 3 ==> addresses[k] in data
    ensures TickNeutral(addresses, data).None? <==> exists k :: 0 <= k < 3 && data[addresses[k]].None?
    ensures TickNeutral(addresses, data).Some? ==>
      TickNeutral(addresses, data) == Some(CalculateNeutral(
        data[addresses[0]].value.milliAmps,
        data[addresses[1]].value.milliAmps,
        data[addresses[2]].value.milliAmps))
  {
    GetIOfEntry(data, addresses[0]);
    GetIOfEntry(data, addresses[1]);
    GetIOfEntry(data, addresses[2]);
  }

  /** For a key that is present, `get_i` raises exactly on a `None` entry. */
  lemma GetIOfEntry(data: map<int, Option<Reading>>, a: int)
    requires a in data
    ensures GetI(data, a).None? <==> data[a].None?
    ensures data[a].Some? ==> GetI(data, a) == Some(data[a].value.milliAmps)
  {
  }

  /** In simulation mode no tick ever raises. */
  lemma SimulatedTicksNeverRaise(addresses: seq<int>, bus: Bus, clock: real)
    ensures TickNeutral(addresses, ReadAllSpec(addresses, true, bus, clock)).Some?
  {
    SimulationNeverFails(addresses, bus, clock);
    var data := ReadAllSpec(addresses, true, bus, clock);
    if |addresses| == 3 {
      assert addresses[0] in addresses && addresses[1] in addresses && addresses[2] in addresses;
    }
  }

  /** Rotating or swapping the configured order leaves the neutral current as it was. */
  lemma TickNeutralOrderFree(a: int, b: int, c: int, data: map<int, Option<Reading>>)
    ensures TickNeutral([a, b, c], data) == TickNeutral([b, a, c], data)
    ensures TickNeutral([a, b, c], data) == TickNeutral([c, a, b], data)
  {
    match (GetI(data, a), GetI(data, b), GetI(data, c))
    case (Some(i1), Some(i2), Some(i3)) =>
      NeutralSymmetric(i1, i2, i3);
    case _ =>
  }

  // ---------------------------------------------------------------------------
  // The application state
  // ---------------------------------------------------------------------------

  /** The answer of `start_recording`: success, 400 (no id) or 404 (unknown id). */
  datatype StartResult = Started | EventIdRequired | EventNotFound

  /** An entry of the `GET /api/events` answer: the event and its `is_active` flag. */
  datatype TaggedEvent = TaggedEvent(event: Event, isActive: bool)

  /** An event's primary key. */
  function EventKey(e: Event): int { e.id }

  class SensorNode {
    const pzem: PzemHandler
    const db: Database
    var latestData: LatestData
    var currentEventId: Option<int>

    ghost predicate Valid()
      reads this, db
    {
      db.Valid()
    }

    /**
     * Module start-up: the handler, no data and no recording. `stored` is the
     * database file as it is opened: empty on a first start, and after a
     * restart holding the earlier events and logs with the id counter past
     * their ids.
     */
    constructor (addresses: seq<int>, portOpens: bool, stored: Database)
      requires stored.Valid()
      ensures Valid() && db == stored
      ensures pzem.addresses == addresses && pzem.simulationMode == !portOpens
      ensures db.events == old(stored.events) && db.logs == old(stored.logs)
      ensures latestData == NoData && currentEventId == None
    {
      pzem := new PzemHandler(addresses, portOpens);
      db := stored;
      latestData := NoData;
      currentEventId := None;
    }

    /** `recording_status`. */
    function RecordingStatus(): (bool, Option<int>)
      reads this
    {
      (currentEventId.Some?, currentEventId)
    }

    /**
     * The body of `background_poller`'s loop. When the neutral computation
     * raises, the outer `except` swallows it: nothing is published or logged.
     * Otherwise `latest_data` is replaced as a whole, then the row is logged,
     * both tagged with the same event id.
     */
    method PollTick(timestamp: real, bus: Bus, clock: real)
      requires Valid()
      modifies this`latestData, db`logs
      ensures Valid()
      ensures currentEventId == old(currentEventId)
      ensures var data := ReadAllSpec(pzem.addresses, pzem.simulationMode, bus, clock);
        match TickNeutral(pzem.addresses, data)
        case None =>
          latestData == old(latestData) && db.logs == old(db.logs)
        case Some(n) =>
          && latestData == Snapshot(timestamp, data, n, currentEventId)
          && db.logs == old(db.logs) + [FlattenRow(data, timestamp, currentEventId, Some(n))]
    {
      var data := pzem.ReadAll(bus, clock);
      var neutralI := 0;
      if |pzem.addresses| == 3 {
        var i1 := GetI(data, pzem.addresses[0]);
        if i1.None? { return; }
        var i2 := GetI(data, pzem.addresses[1]);
        if i2.None? { return; }
        var i3 := GetI(data, pzem.addresses[2]);
        if i3.None? { return; }
        neutralI := CalculateNeutral(i1.value, i2.value, i3.value);
      }
      latestData := Snapshot(timestamp, data, neutralI, currentEventId);
      db.LogData(data, timestamp, currentEventId, Some(neutralI));
    }

    /**
     * `start_recording`: a missing or zero id is refused with 400, an unknown
     * one with 404, both leaving the state alone; otherwise that event becomes
     * the recording one.
     */
    method StartRecording(eventId: Option<int>) returns (result: StartResult)
      modifies this`currentEventId
      ensures result == (if eventId.None? || eventId.value == 0 then EventIdRequired
                         else if FindEvent(db.events, eventId.value).None? then EventNotFound
                         else Started)
      ensures result == Started ==> currentEventId == eventId && RecordingStatus() == (true, eventId)
      ensures result != Started ==> currentEventId == old(currentEventId)
    {
      if eventId.None? || eventId.value == 0 {
        return EventIdRequired;
      }
      if FindEvent(db.events, eventId.value).None? {
        return EventNotFound;
      }
      currentEventId := eventId;
      result := Started;
    }

    /** `stop_recording`: always clears the recording id, so it is idempotent. */
    method StopRecording()
      modifies this`currentEventId
      ensures currentEventId == None && RecordingStatus() == (false, None)
    {
      currentEventId := None;
    }

    /**
     * `stop_event`: with no recording event (or id 0) answers 400 and touches
     * nothing; otherwise stamps that event's end time and clears the id.
     */
    method StopEvent(now: real) returns (ok: bool)
      requires Valid()
      modifies this`currentEventId, db`events
      ensures Valid()
      ensures ok == (old(currentEventId).Some? && old(currentEventId).value != 0)
      ensures !ok ==> currentEventId == old(currentEventId) && db.events == old(db.events)
      ensures ok ==>
        && currentEventId == None
        && db.events == UpdateWhere(old(db.events), old(currentEventId).value, StampEnd(now))
    {
      if currentEventId.None? || currentEventId.value == 0 {
        return false;
      }
      db.StopEvent(currentEventId.value, now);
      currentEventId := None;
      ok := true;
    }

    /** `handle_events` (GET): every event, latest first, flagged when it is the recording one. */
    method HandleEventsGet() returns (tagged: seq<TaggedEvent>)
      ensures |tagged| == |db.GetEvents()|
      ensures forall k :: 0 <= k < |tagged| ==>
        tagged[k].event == db.GetEvents()[k] && tagged[k].isActive == (currentEventId == Some(tagged[k].event.id))
    {
      var events := db.GetEvents();
      tagged := [];
      for k := 0 to |events|
        invariant |tagged| == k
        invariant forall j :: 0 <= j < k ==>
          tagged[j].event == events[j] && tagged[j].isActive == (currentEventId == Some(events[j].id))
      {
        tagged := tagged + [TaggedEvent(events[k], currentEventId == Some(events[k].id))];
      }
    }
  }

  /**
   * Since event ids are unique, at most one listed event is flagged active,
   * and when nothing records none is.
   */
  lemma AtMostOneActive(db: Database, current: Option<int>, tagged: seq<TaggedEvent>)
    requires db.Valid()
    requires |tagged| == |db.GetEvents()|
    requires forall k :: 0 <= k < |tagged| ==>
      tagged[k].event == db.GetEvents()[k] && tagged[k].isActive == (current == Some(tagged[k].event.id))
    ensures forall i, j :: 0 <= i < j < |tagged| ==> !(tagged[i].isActive && tagged[j].isActive)
    ensures current.None? ==> forall k :: 0 <= k < |tagged| ==> !tagged[k].isActive
  {
    var listed := db.GetEvents();
    GetEventsOrdered(db);
    forall i, j | 0 <= i < j < |db.events|
      ensures EventKey(db.events[i]) != EventKey(db.events[j])
    {
    }
    DistinctKeysPermutation(db.events, listed, EventKey);
    forall i, j | 0 <= i < j < |tagged|
      ensures !(tagged[i].isActive && tagged[j].isActive)
    {
      assert EventKey(listed[i]) != EventKey(listed[j]);
    }
  }
}
