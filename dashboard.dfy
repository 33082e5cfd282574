/**
 * `sensor-node/static/js/script.js`: the live charts' sliding window, the
 * total-power sums, and the status and duration cells of the event table.
 *
 * A chart is its label list and one point list per dataset. A point is a
 * JavaScript value: `undefined`, `null` or a number (in the fixed-point
 * units of the decoder). A label is the timestamp it is formatted from.
 */
module Dashboard {
  import opened Optional
  import opened Seqs
  import opened ModbusHandler
  import opened DatabaseHandler
  import opened SensorApp

  datatype JsValue = Undefined | Null | Number(n: int)

  /** A nullable column as it arrives in JSON. */
  function FromColumn(c: Option<int>): JsValue {
    if c.Some? then Number(c.value) else Null
  }

  // ---------------------------------------------------------------------------
  // addDataToChart
  // ---------------------------------------------------------------------------

  datatype ChartData = ChartData(labels: seq<real>, datasets: seq<seq<JsValue>>)

  /** A chart as `initCharts` creates it: no labels and `n` empty datasets. */
  function EmptyChart(n: nat): ChartData {
    ChartData([], seq(n, _ => []))
  }

  /** `Array.prototype.shift`, which leaves an empty array alone. */
  function Shift<T>(s: seq<T>): seq<T> {
    if s == [] then [] else s[1..]
  }

  /** `dataArray[idx]`: `undefined` past the end. */
  function At(arr: seq<JsValue>, k: int): JsValue {
    if 0 <= k < |arr| then arr[k] else Undefined
  }

  function PushDefined(ds: seq<JsValue>, v: JsValue): seq<JsValue> {
    if v.Undefined? then ds else ds + [v]
  }

  /** The chart after `addDataToChart(chart, label, dataArray)`. */
  function AddData(c: ChartData, stamp: real, dataArray: seq<JsValue>): ChartData {
    var full := |c.labels| > 100;
    ChartData(
      (if full then Shift(c.labels) else c.labels) + [stamp],
      seq(|c.datasets|, k requires 0 <= k < |c.datasets| =>
        PushDefined(if full then Shift(c.datasets[k]) else c.datasets[k], At(dataArray, k))))
  }

  /**
   * One call: at most 101 labels stay when there were at most 101, the new
   * label comes last, a full chart loses its oldest label and the oldest
   * point of every dataset, and every dataset with a defined value (`null`
   * included) gains it as its newest point.
   */
  lemma AddDataStep(c: ChartData, stamp: real, dataArray: seq<JsValue>)
    ensures var r := AddData(c, stamp, dataArray);
      && (|c.labels| <= 101 ==> |r.labels| <= 101)
      && r.labels[|r.labels| - 1] == stamp
      && r.labels[..|r.labels| - 1] == (if |c.labels| > 100 then c.labels[1..] else c.labels)
      && |r.datasets| == |c.datasets|
      && forall k :: 0 <= k < |c.datasets| ==>
           var before := if |c.labels| > 100 then Shift(c.datasets[k]) else c.datasets[k];
           && (At(dataArray, k) != Undefined ==> r.datasets[k] == before + [At(dataArray, k)])
           && (At(dataArray, k) == Undefined ==> r.datasets[k] == before)
  {
    var r := AddData(c, stamp, dataArray);
    assert r.labels == (if |c.labels| > 100 then Shift(c.labels) else c.labels) + [stamp];
  }

  /** A point as passed to `addDataToChart`: its label and its data array. */
  datatype Point = Point(stamp: real, values: seq<JsValue>)

  /** The chart after adding the points one after another. */
  function FeedAll(c: ChartData, ps: seq<Point>): ChartData {
    if ps == [] then c
    else
      var last := ps[|ps| - 1];
      AddData(FeedAll(c, ps[..|ps| - 1]), last.stamp, last.values)
  }

  function Labels(ps: seq<Point>): seq<real> {
    seq(|ps|, j requires 0 <= j < |ps| => ps[j].stamp)
  }

  /** The values destined for dataset `k`. */
  function Column(ps: seq<Point>, k: int): seq<JsValue> {
    seq(|ps|, j requires 0 <= j < |ps| => At(ps[j].values, k))
  }

  /** Every point has a defined value for each of the first `n` datasets. */
  predicate Defined(ps: seq<Point>, n: nat) {
    forall j, k :: 0 <= j < |ps| && 0 <= k < n ==> At(ps[j].values, k) != Undefined
  }

  /** Appending to the last 101 elements of `s`, dropping the oldest when full. */
  lemma TailSnoc<T>(s: seq<T>, x: T)
    ensures Tail(s + [x], 101) == (if |Tail(s, 101)| > 100 then Shift(Tail(s, 101)) else Tail(s, 101)) + [x]
  {
    if |s| >= 101 {
      assert Tail(s, 101) == s[|s| - 101..];
      assert Shift(Tail(s, 101)) == s[|s| - 100..];
      assert Tail(s + [x], 101) == (s + [x])[|s| - 100..];
    }
  }

  /**
   * One step of the window: a chart holding the last 101 labels and the last
   * 101 values of each column still does after a point with defined values.
   */
  lemma AddDataKeepsWindow(c: ChartData, ls: seq<real>, cols: seq<seq<JsValue>>, p: Point)
    requires c.labels == Tail(ls, 101) && |c.datasets| == |cols|
    requires forall k :: 0 <= k < |cols| ==> |cols[k]| == |ls| && c.datasets[k] == Tail(cols[k], 101)
    requires forall k :: 0 <= k < |cols| ==> At(p.values, k) != Undefined
    ensures var r := AddData(c, p.stamp, p.values);
      && r.labels == Tail(ls + [p.stamp], 101)
      && |r.datasets| == |cols|
      && forall k :: 0 <= k < |cols| ==> r.datasets[k] == Tail(cols[k] + [At(p.values, k)], 101)
  {
    TailSnoc(ls, p.stamp);
    var r := AddData(c, p.stamp, p.values);
    forall k | 0 <= k < |cols|
      ensures r.datasets[k] == Tail(cols[k] + [At(p.values, k)], 101)
    {
      TailSnoc(cols[k], At(p.values, k));
    }
  }

  /** The columns of the first `n` datasets. */
  function Columns(ps: seq<Point>, n: nat): seq<seq<JsValue>> {
    seq(n, k requires 0 <= k < n => Column(ps, k))
  }

  /**
   * The window: from a fresh chart whose points always give every dataset a
   * value, the chart shows exactly the last 101 labels, and each dataset the
   * last 101 values meant for it, aligned with the labels.
   */
  lemma {:induction false} FeedWindow(n: nat, ps: seq<Point>)
    requires Defined(ps, n)
    ensures var c := FeedAll(EmptyChart(n), ps);
      && c.labels == Tail(Labels(ps), 101)
      && |c.datasets| == n
      && forall k :: 0 <= k < n ==> c.datasets[k] == Tail(Column(ps, k), 101)
  {
    if ps != [] {
      var m := |ps| - 1;
      var init, last := ps[..m], ps[m];
      assert Defined(init, n) by {
        forall j, k | 0 <= j < |init| && 0 <= k < n
          ensures At(init[j].values, k) != Undefined
        {
          assert init[j] == ps[j];
        }
      }
      FeedWindow(n, init);
      var prev := FeedAll(EmptyChart(n), init);
      var c := FeedAll(EmptyChart(n), ps);
      assert c == AddData(prev, last.stamp, last.values);
      var cols := Columns(init, n);
      AddDataKeepsWindow(prev, Labels(init), cols, last);
      LabelsSnoc(ps);
      forall k | 0 <= k < n
        ensures c.datasets[k] == Tail(Column(ps, k), 101)
      {
        ColumnSnoc(ps, k);
      }
    }
  }

  lemma LabelsSnoc(ps: seq<Point>)
    requires ps != []
    ensures Labels(ps) == Labels(ps[..|ps| - 1]) + [ps[|ps| - 1].stamp]
  {
  }

  lemma ColumnSnoc(ps: seq<Point>, k: int)
    requires ps != []
    ensures Column(ps, k) == Column(ps[..|ps| - 1], k) + [At(ps[|ps| - 1].values, k)]
  {
  }

  /** A live chart of `script.js`, updated in place. */
  class LiveChart {
    var labels: seq<real>
    var datasets: seq<seq<JsValue>>

    function Data(): ChartData
      reads this
    {
      ChartData(labels, datasets)
    }

    constructor (n: nat)
      ensures Data() == EmptyChart(n)
    {
      labels := [];
      datasets := seq(n, _ => []);
    }

    /** `addDataToChart`: shift when over 100 labels, then push the label and each defined value. */
    method AddDataToChart(stamp: real, dataArray: seq<JsValue>)
      modifies this
      ensures Data() == AddData(old(Data()), stamp, dataArray)
    {
      ghost var c := Data();
      var full := |labels| > 100;
      if full {
        labels := labels[1..];
        for k := 0 to |datasets|
          invariant labels == c.labels[1..]
          invariant |datasets| == |c.datasets|
          invariant forall j :: 0 <= j < k ==> datasets[j] == Shift(c.datasets[j])
          invariant forall j :: k <= j < |datasets| ==> datasets[j] == c.datasets[j]
        {
          datasets := datasets[k := Shift(datasets[k])];
        }
      }
      labels := labels + [stamp];
      assert forall j :: 0 <= j < |datasets| ==>
        datasets[j] == (if full then Shift(c.datasets[j]) else c.datasets[j]);
      ghost var shifted := datasets;
      for k := 0 to |datasets|
        invariant labels == (if full then c.labels[1..] else c.labels) + [stamp]
        invariant |datasets| == |shifted|
        invariant forall j :: 0 <= j < k ==> datasets[j] == PushDefined(shifted[j], At(dataArray, j))
        invariant forall j :: k <= j < |datasets| ==> datasets[j] == shifted[j]
      {
        if k < |dataArray| && dataArray[k] != Undefined {
          datasets := datasets[k := datasets[k] + [dataArray[k]]];
        }
      }
      ghost var r := AddData(c, stamp, dataArray);
      assert labels == r.labels;
      assert |datasets| == |r.datasets|;
      forall j | 0 <= j < |datasets|
        ensures datasets[j] == r.datasets[j]
      {
      }
    }
  }

  // ---------------------------------------------------------------------------
  // Total power
  // ---------------------------------------------------------------------------

  /** What a sensor contributes to the live total: its power, or nothing when `null`. */
  function PowerOf(v: Option<Reading>): int {
    if v.Some? then v.value.deciWatts else 0
  }

  /** Every key `order` visits is a sensor. */
  predicate Listed(order: seq<int>, sensors: map<int, Option<Reading>>) {
    forall k :: 0 <= k < |order| ==> order[k] in sensors
  }

  /** `order` lists the keys of `sensors`, each once: how `Object.values` visits them. */
  ghost predicate KeyOrder(order: seq<int>, sensors: map<int, Option<Reading>>) {
    && Listed(order, sensors)
    && (forall a :: a in sensors ==> a in order)
    && (forall i, j :: 0 <= i < j < |order| ==> order[i] != order[j])
  }

  /** The total over the sensors, visited in `order`. */
  function SumPower(sensors: map<int, Option<Reading>>, order: seq<int>): int
    requires Listed(order, sensors)
  {
    if order == [] then 0
    else
      var init, last := order[..|order| - 1], order[|order| - 1];
      assert order == init + [last];
      SumPower(sensors, init) + PowerOf(sensors[last])
  }

  /** `totalP` of `updateDashboard` and `updateLiveCharts`, accumulated over the non-null sensors. */
  method TotalLivePower(sensors: map<int, Option<Reading>>, order: seq<int>) returns (total: int)
    requires Listed(order, sensors)
    ensures total == SumPower(sensors, order)
  {
    total := 0;
    for j := 0 to |order|
      invariant total == SumPower(sensors, order[..j])
    {
      assert order[..j + 1][..j] == order[..j];
      var s := sensors[order[j]];
      if s.Some? {
        total := total + s.value.deciWatts;
      }
    }
    assert order[..|order|] == order;
  }

  lemma {:induction false} SumPowerConcat(sensors: map<int, Option<Reading>>, a: seq<int>, b: seq<int>)
    requires Listed(a, sensors) && Listed(b, sensors)
    ensures Listed(a + b, sensors)
    ensures SumPower(sensors, a + b) == SumPower(sensors, a) + SumPower(sensors, b)
  {
    if b != [] {
      var m := |b| - 1;
      assert (a + b)[..|a + b| - 1] == a + b[..m];
      SumPowerConcat(sensors, a, b[..m]);
    } else {
      assert a + b == a;
    }
  }

  /** The total does not depend on the order the sensors are visited in. */
  lemma {:induction false} SumPowerPermutation(sensors: map<int, Option<Reading>>, o1: seq<int>, o2: seq<int>)
    requires Listed(o1, sensors)
    requires multiset(o1) == multiset(o2)
    ensures Listed(o2, sensors)
    ensures SumPower(sensors, o1) == SumPower(sensors, o2)
  {
    ListedPermutation(sensors, o1, o2);
    if o1 != [] {
      var m := |o1| - 1;
      var x := o1[m];
      assert x in multiset(o2);
      var i :| 0 <= i < |o2| && o2[i] == x;
      RemoveAt(o1, m);
      RemoveAt(o2, i);
      assert o1[..m] + o1[m + 1..] == o1[..m];
      assert multiset(o1[..m]) == multiset(o2[..i] + o2[i + 1..]);
      SumPowerRemove(sensors, o2, i);
      SumPowerPermutation(sensors, o1[..m], o2[..i] + o2[i + 1..]);
    }
  }

  /** A rearrangement of listed keys is listed. */
  lemma ListedPermutation(sensors: map<int, Option<Reading>>, o1: seq<int>, o2: seq<int>)
    requires Listed(o1, sensors)
    requires multiset(o1) == multiset(o2)
    ensures Listed(o2, sensors)
  {
    forall k | 0 <= k < |o2|
      ensures o2[k] in sensors
    {
      assert o2[k] in multiset(o1);
    }
  }

  /** Removing the element at `i` removes one occurrence of it. */
  lemma RemoveAt(s: seq<int>, i: int)
    requires 0 <= i < |s|
    ensures multiset(s[..i] + s[i + 1..]) == multiset(s) - multiset{s[i]}
  {
    assert s == s[..i] + [s[i]] + s[i + 1..];
  }

  /** The total with the sensor at `i` left out, plus that sensor's power. */
  lemma SumPowerRemove(sensors: map<int, Option<Reading>>, o: seq<int>, i: int)
    requires Listed(o, sensors) && 0 <= i < |o|
    ensures Listed(o[..i] + o[i + 1..], sensors)
    ensures SumPower(sensors, o) == SumPower(sensors, o[..i] + o[i + 1..]) + PowerOf(sensors[o[i]])
  {
    var pre, x, post := o[..i], o[i], o[i + 1..];
    assert o == pre + [x] + post;
    assert Listed(pre, sensors) && Listed(post, sensors) && Listed([x], sensors);
    SumPowerConcat(sensors, pre + [x], post);
    SumPowerConcat(sensors, pre, [x]);
    SumPowerConcat(sensors, pre, post);
    assert SumPower(sensors, [x]) == PowerOf(sensors[x]) by {
      assert [x][..0] == [];
    }
  }

  /** Two orders that each list the same keys once hold the same keys as often. */
  lemma EnumerationsAgree(o1: seq<int>, o2: seq<int>, sensors: map<int, Option<Reading>>)
    requires KeyOrder(o1, sensors) && KeyOrder(o2, sensors)
    ensures multiset(o1) == multiset(o2)
  {
    forall a
      ensures multiset(o1)[a] == multiset(o2)[a]
    {
      DistinctKeysOccurOnce(o1, (x: int) => x, a);
      DistinctKeysOccurOnce(o2, (x: int) => x, a);
      if a in sensors {
        assert a in o1 && a in o2;
        assert a in multiset(o1) && a in multiset(o2);
      } else {
        assert a !in o1 && a !in o2;
        assert a !in multiset(o1) && a !in multiset(o2);
      }
    }
  }

  /** `(log.p1_p||0) + (log.p2_p||0) + (log.p3_p||0)`: a history row's total, missing phases as 0. */
  function HistoryTotalPower(row: LogRow): int {
    row.p1.p.GetOr(0) + row.p2.p.GetOr(0) + row.p3.p.GetOr(0)
  }

  // ---------------------------------------------------------------------------
  // The data arrays of the three live charts
  // ---------------------------------------------------------------------------

  /** The arrays a tick gives to the voltage, current and power charts. */
  datatype ChartRows = ChartRows(voltage: seq<JsValue>, current: seq<JsValue>, power: seq<JsValue>)

  datatype ChartKind = VoltageChart | CurrentChart | PowerChart

  function Pick(r: ChartRows, kind: ChartKind): seq<JsValue> {
    match kind
    case VoltageChart => r.voltage
    case CurrentChart => r.current
    case PowerChart => r.power
  }

  /** The helpers `v`, `i`, `p`: a field of address `n`, `null` when it has no reading. */
  function LiveValue(sensors: map<int, Option<Reading>>, n: int, f: Field): JsValue {
    if n in sensors && sensors[n].Some? then Number(FieldOf(sensors[n].value, f)) else Null
  }

  /** `updateLiveCharts`: phases 1 to 3, the neutral current, and the total ahead of the phase powers. */
  function LiveRows(sensors: map<int, Option<Reading>>, neutral: int, order: seq<int>): ChartRows
    requires Listed(order, sensors)
  {
    ChartRows(
      [LiveValue(sensors, 1, Voltage), LiveValue(sensors, 2, Voltage), LiveValue(sensors, 3, Voltage)],
      [LiveValue(sensors, 1, Current), LiveValue(sensors, 2, Current), LiveValue(sensors, 3, Current), Number(neutral)],
      [Number(SumPower(sensors, order)), LiveValue(sensors, 1, Power), LiveValue(sensors, 2, Power), LiveValue(sensors, 3, Power)])
  }

  /** `fetchInitialHistory`: the same arrays, built from a stored row. */
  function HistoryRows(row: LogRow): ChartRows {
    ChartRows(
      [FromColumn(row.p1.v), FromColumn(row.p2.v), FromColumn(row.p3.v)],
      [FromColumn(row.p1.i), FromColumn(row.p2.i), FromColumn(row.p3.i), FromColumn(row.neutralI)],
      [Number(HistoryTotalPower(row)), FromColumn(row.p1.p), FromColumn(row.p2.p), FromColumn(row.p3.p)])
  }

  /**
   * With sensors at addresses 1 to 3, a live tick and the row it is logged as
   * give the charts the same arrays, whatever order `Object.values` takes:
   * a reloaded page redraws what the live page showed.
   */
  lemma LiveMatchesHistory(data: map<int, Option<Reading>>, timestamp: real, eventId: Option<int>, neutral: int, order: seq<int>)
    requires data.Keys == {1, 2, 3}
    requires KeyOrder(order, data)
    ensures LiveRows(data, neutral, order) == HistoryRows(FlattenRow(data, timestamp, eventId, Some(neutral)))
  {
    var canonical := [1, 2, 3];
    assert KeyOrder(canonical, data);
    EnumerationsAgree(order, canonical, data);
    SumPowerPermutation(data, order, canonical);
    assert SumPower(data, [1]) == PowerOf(data[1]) by {
      assert [1][..0] == [];
    }
    assert SumPower(data, [1, 2]) == SumPower(data, [1]) + PowerOf(data[2]) by {
      assert [1, 2][..1] == [1];
    }
    assert SumPower(data, canonical) == SumPower(data, [1, 2]) + PowerOf(data[3]) by {
      assert canonical[..2] == [1, 2];
    }
  }

  /** The live dashboard: its three charts and the "total-power" and connection indicators. */
  class LiveDashboard {
    const voltage: LiveChart
    const current: LiveChart
    const power: LiveChart
    var totalPower: Option<int>
    var connected: bool

    ghost predicate Valid()
      reads this
    {
      voltage != current && current != power && voltage != power
    }

    /** `initCharts`: three, four and four datasets. */
    constructor ()
      ensures Valid()
      ensures voltage.Data() == EmptyChart(3) && current.Data() == EmptyChart(4) && power.Data() == EmptyChart(4)
      ensures totalPower == None && !connected
    {
      voltage := new LiveChart(3);
      current := new LiveChart(4);
      power := new LiveChart(4);
      totalPower := None;
      connected := false;
    }

    /**
     * `fetchData`, from the answer of `/api/data` (`None` when the request
     * fails). Before the first tick the answer is `{}`, and `updateDashboard`
     * throws on its missing `sensors`: the page then only shows
     * "Disconnected", as it does on a failed request.
     */
    method FetchData(response: Option<LatestData>, order: seq<int>)
      requires Valid()
      requires response.Some? && response.value.Snapshot? ==> KeyOrder(order, response.value.sensors)
      modifies this`totalPower, this`connected, voltage, current, power
      ensures Valid()
      ensures match response
        case Some(Snapshot(_, sensors, neutral, _)) =>
          && connected
          && totalPower == Some(SumPower(sensors, order))
          && voltage.Data() == AddData(old(voltage.Data()), response.value.timestamp, LiveRows(sensors, neutral, order).voltage)
          && current.Data() == AddData(old(current.Data()), response.value.timestamp, LiveRows(sensors, neutral, order).current)
          && power.Data() == AddData(old(power.Data()), response.value.timestamp, LiveRows(sensors, neutral, order).power)
        case _ =>
          && !connected && totalPower == old(totalPower)
          && voltage.Data() == old(voltage.Data()) && current.Data() == old(current.Data()) && power.Data() == old(power.Data())
    {
      if response.None? || response.value.NoData? {
        connected := false;
        return;
      }
      var snap := response.value;
      var total := TotalLivePower(snap.sensors, order);
      totalPower := Some(total);
      AddRows(snap.timestamp, LiveRows(snap.sensors, snap.neutralCurrent, order));
      connected := true;
    }

    /** The three `addDataToChart` calls a tick or a history row makes, one per chart. */
    method AddRows(stamp: real, rows: ChartRows)
      requires Valid()
      modifies voltage, current, power
      ensures voltage.Data() == AddData(old(voltage.Data()), stamp, Pick(rows, VoltageChart))
      ensures current.Data() == AddData(old(current.Data()), stamp, Pick(rows, CurrentChart))
      ensures power.Data() == AddData(old(power.Data()), stamp, Pick(rows, PowerChart))
    {
      voltage.AddDataToChart(stamp, rows.voltage);
      current.AddDataToChart(stamp, rows.current);
      power.AddDataToChart(stamp, rows.power);
    }

    /** `fetchInitialHistory`: every row of `/api/history`, oldest first, into all three charts. */
    method LoadInitialHistory(logs: seq<LogRow>)
      requires Valid()
      modifies voltage, current, power
      ensures voltage.Data() == FeedAll(old(voltage.Data()), HistoryPoints(logs, VoltageChart))
      ensures current.Data() == FeedAll(old(current.Data()), HistoryPoints(logs, CurrentChart))
      ensures power.Data() == FeedAll(old(power.Data()), HistoryPoints(logs, PowerChart))
    {
      ghost var pv, pc, pp := HistoryPoints(logs, VoltageChart), HistoryPoints(logs, CurrentChart), HistoryPoints(logs, PowerChart);
      ghost var v0, c0, p0 := voltage.Data(), current.Data(), power.Data();
      for j := 0 to |logs|
        invariant voltage.Data() == FeedAll(v0, pv[..j])
        invariant current.Data() == FeedAll(c0, pc[..j])
        invariant power.Data() == FeedAll(p0, pp[..j])
      {
        HistoryFeedStep(v0, logs, VoltageChart, j);
        HistoryFeedStep(c0, logs, CurrentChart, j);
        HistoryFeedStep(p0, logs, PowerChart, j);
        AddRows(logs[j].timestamp, HistoryRows(logs[j]));
      }
      assert pv[..|logs|] == pv && pc[..|logs|] == pc && pp[..|logs|] == pp;
    }
  }

  /** The points `fetchInitialHistory` adds to one chart. */
  function HistoryPoints(logs: seq<LogRow>, kind: ChartKind): seq<Point> {
    seq(|logs|, j requires 0 <= j < |logs| => Point(logs[j].timestamp, Pick(HistoryRows(logs[j]), kind)))
  }

  /** Adding one more point of `ps` to the chart fed with the ones before it. */
  lemma FeedAllStep(c: ChartData, ps: seq<Point>, j: int)
    requires 0 <= j < |ps|
    ensures FeedAll(c, ps[..j + 1]) == AddData(FeedAll(c, ps[..j]), ps[j].stamp, ps[j].values)
  {
    assert ps[..j + 1][..j] == ps[..j];
  }

  /** Adding the chart's part of row `j` to the chart fed with the rows before it. */
  lemma HistoryFeedStep(c: ChartData, logs: seq<LogRow>, kind: ChartKind, j: int)
    requires 0 <= j < |logs|
    ensures FeedAll(c, HistoryPoints(logs, kind)[..j + 1])
      == AddData(FeedAll(c, HistoryPoints(logs, kind)[..j]), logs[j].timestamp, Pick(HistoryRows(logs[j]), kind))
  {
    FeedAllStep(c, HistoryPoints(logs, kind), j);
  }

  /** How many datasets each live chart has. */
  function Width(kind: ChartKind): nat {
    if kind == VoltageChart then 3 else 4
  }

  /**
   * After loading the history into a fresh chart, it shows the timestamps of
   * the last (at most) 101 rows, oldest first, and each dataset its column
   * of those same rows.
   */
  lemma HistoryWindow(logs: seq<LogRow>, kind: ChartKind)
    ensures var c := FeedAll(EmptyChart(Width(kind)), HistoryPoints(logs, kind));
      var shown := if |logs| <= 101 then |logs| else 101;
      && |c.labels| == shown
      && |c.datasets| == Width(kind)
      && (forall k :: 0 <= k < Width(kind) ==> |c.datasets[k]| == shown)
      && (forall j :: 0 <= j < shown ==> c.labels[j] == logs[|logs| - shown + j].timestamp)
      && (forall k, j :: 0 <= k < Width(kind) && 0 <= j < shown ==>
            c.datasets[k][j] == Pick(HistoryRows(logs[|logs| - shown + j]), kind)[k])
  {
    var ps := HistoryPoints(logs, kind);
    forall j, k | 0 <= j < |ps| && 0 <= k < Width(kind)
      ensures At(ps[j].values, k) != Undefined
    {
      assert ps[j].values == Pick(HistoryRows(logs[j]), kind);
    }
    FeedWindow(Width(kind), ps);
    var c := FeedAll(EmptyChart(Width(kind)), ps);
    WindowShape(c, ps, Width(kind));
    HistoryShape(c, ps, logs, kind);
  }

  /** The window of a history chart, read row by row. */
  lemma HistoryShape(c: ChartData, ps: seq<Point>, logs: seq<LogRow>, kind: ChartKind)
    requires |ps| == |logs|
    requires forall i :: 0 <= i < |ps| ==> ps[i].stamp == logs[i].timestamp && ps[i].values == Pick(HistoryRows(logs[i]), kind)
    requires var shown := if |ps| <= 101 then |ps| else 101;
      && |c.labels| == shown
      && |c.datasets| == Width(kind)
      && (forall k :: 0 <= k < Width(kind) ==> |c.datasets[k]| == shown)
      && (forall j :: 0 <= j < shown ==> c.labels[j] == ps[|ps| - shown + j].stamp)
      && (forall k, j :: 0 <= k < Width(kind) && 0 <= j < shown ==> c.datasets[k][j] == At(ps[|ps| - shown + j].values, k))
    ensures var shown := if |logs| <= 101 then |logs| else 101;
      && (forall j :: 0 <= j < shown ==> c.labels[j] == logs[|logs| - shown + j].timestamp)
      && (forall k, j :: 0 <= k < Width(kind) && 0 <= j < shown ==>
            c.datasets[k][j] == Pick(HistoryRows(logs[|logs| - shown + j]), kind)[k])
  {
    var shown := if |logs| <= 101 then |logs| else 101;
    forall k, j | 0 <= k < Width(kind) && 0 <= j < shown
      ensures c.datasets[k][j] == Pick(HistoryRows(logs[|logs| - shown + j]), kind)[k]
    {
      var i := |logs| - shown + j;
      assert c.datasets[k][j] == At(ps[i].values, k);
    }
  }

  /** The window read position by position. */
  lemma WindowShape(c: ChartData, ps: seq<Point>, n: nat)
    requires c.labels == Tail(Labels(ps), 101) && |c.datasets| == n
    requires forall k :: 0 <= k < n ==> c.datasets[k] == Tail(Column(ps, k), 101)
    ensures var shown := if |ps| <= 101 then |ps| else 101;
      && |c.labels| == shown
      && (forall k :: 0 <= k < n ==> |c.datasets[k]| == shown)
      && (forall j :: 0 <= j < shown ==> c.labels[j] == ps[|ps| - shown + j].stamp)
      && (forall k, j :: 0 <= k < n && 0 <= j < shown ==> c.datasets[k][j] == At(ps[|ps| - shown + j].values, k))
  {
    var shown := if |ps| <= 101 then |ps| else 101;
    forall j | 0 <= j < shown
      ensures c.labels[j] == ps[|ps| - shown + j].stamp
    {
      assert c.labels[j] == Labels(ps)[|ps| - shown + j];
    }
    forall k | 0 <= k < n
      ensures |c.datasets[k]| == shown
      ensures forall j :: 0 <= j < shown ==> c.datasets[k][j] == At(ps[|ps| - shown + j].values, k)
    {
      ColumnWindow(c.datasets[k], ps, k);
    }
  }

  /** One dataset of the window read position by position. */
  lemma ColumnWindow(d: seq<JsValue>, ps: seq<Point>, k: int)
    requires d == Tail(Column(ps, k), 101)
    ensures var shown := if |ps| <= 101 then |ps| else 101;
      && |d| == shown
      && forall j :: 0 <= j < shown ==> d[j] == At(ps[|ps| - shown + j].values, k)
  {
    var shown := if |ps| <= 101 then |ps| else 101;
    ColumnAt(ps, k, 0);
    assert d == Column(ps, k)[|ps| - shown..];
    forall j | 0 <= j < shown
      ensures d[j] == At(ps[|ps| - shown + j].values, k)
    {
      ColumnAt(ps, k, |ps| - shown + j);
    }
  }

  lemma ColumnAt(ps: seq<Point>, k: int, i: int)
    ensures |Column(ps, k)| == |ps|
    ensures 0 <= i < |ps| ==> Column(ps, k)[i] == At(ps[i].values, k)
  {
  }

  // ---------------------------------------------------------------------------
  // loadHistory: the status and duration cells of the event table
  // ---------------------------------------------------------------------------

  datatype Status = Recording | Closed | Created

  /** The status cell: "recording..." for the active event, else "Closed" once ended, else "Created". */
  function EventStatus(t: TaggedEvent): Status {
    if t.isActive then Recording
    else if EndTimeSet(t.event) then Closed
    else Created
  }

  datatype DurationCell = Minutes(minutes: real) | Running | Dash

  /** The duration cell: minutes once ended, else "Running" while active, else "-". */
  function EventDuration(t: TaggedEvent): DurationCell {
    if EndTimeSet(t.event) then Minutes((t.event.endTime.value - t.event.startTime) / 60.0)
    else if t.isActive then Running
    else Dash
  }

  /**
   * The two cells give opposite precedence: an ended event that is recording
   * again shows "recording..." with its old duration in minutes.
   */
  lemma StatusAndDurationPrecedence(t: TaggedEvent)
    ensures EventStatus(t) == Recording <==> t.isActive
    ensures EventDuration(t).Minutes? <==> EndTimeSet(t.event)
    ensures t.isActive && EndTimeSet(t.event) ==> EventStatus(t) == Recording && EventDuration(t).Minutes?
    ensures EventDuration(t) == Running <==> t.isActive && !EndTimeSet(t.event)
    ensures EventStatus(t) == Created <==> EventDuration(t) == Dash
  {
  }

  /**
   * On the listing `GET /api/events` returns, exactly the rows of the
   * recording event say "recording...", and at most one row does.
   */
  lemma StatusColumn(db: Database, current: Option<int>, tagged: seq<TaggedEvent>)
    requires db.Valid()
    requires |tagged| == |db.GetEvents()|
    requires forall k :: 0 <= k < |tagged| ==>
      tagged[k].event == db.GetEvents()[k] && tagged[k].isActive == (current == Some(tagged[k].event.id))
    ensures forall k :: 0 <= k < |tagged| ==> (EventStatus(tagged[k]) == Recording <==> current == Some(tagged[k].event.id))
    ensures forall i, j :: 0 <= i < j < |tagged| ==> !(EventStatus(tagged[i]) == Recording && EventStatus(tagged[j]) == Recording)
  {
    AtMostOneActive(db, current, tagged);
  }

  /** An ended event's minutes are the duration `get_event_details` reports, over 60. */
  lemma ClosedDurationMatchesDetails(db: Database, t: TaggedEvent, now: real)
    requires db.Valid() && t.event in db.events && EndTimeSet(t.event)
    ensures db.GetEventDetails(t.event.id, now).Some?
    ensures EventDuration(t) == Minutes(db.GetEventDetails(t.event.id, now).value.duration / 60.0)
  {
    FindStoredEvent(db, t.event);
  }
}
