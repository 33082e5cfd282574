/**
 * `sensor-node/static/js/event_charts.js`: the event page's duration text,
 * the tail limit and series of `renderCharts`, and the styling and y-axis
 * rules of `updateChartData`.
 */
module EventCharts {
  import opened Optional
  import opened Seqs
  import opened DatabaseHandler
  import opened SensorApp
  import opened Dashboard

  // ---------------------------------------------------------------------------
  // fetchEventDetails
  // ---------------------------------------------------------------------------

  datatype DurationText = MinutesText(minutes: real) | Open

  /** The duration line: minutes once `end_time` is set, "Open" otherwise. */
  function DetailsDuration(d: Event): DurationText {
    if EndTimeSet(d) then MinutesText((d.endTime.value - d.startTime) / 60.0) else Open
  }

  /**
   * For an event `GET /api/events/<id>` finds, the page computes its own
   * minutes from `start_time` and `end_time` once it has ended, and shows
   * "Open" before. In exact arithmetic those minutes are the server's
   * `duration` over 60 and those of the event table's duration cell; and the
   * point count the page shows (the length of the logs in the same answer)
   * is `log_count`.
   */
  lemma DetailsAgree(db: Database, id: int, now: real, isActive: bool)
    requires db.Valid() && id != 0
    requires db.GetEventDetails(id, now).Some?
    ensures var d := db.GetEventDetails(id, now).value;
      && DetailsDuration(d.event) == (if EndTimeSet(d.event) then MinutesText(d.duration / 60.0) else Open)
      && (EndTimeSet(d.event) ==> EventDuration(TaggedEvent(d.event, isActive)) == Minutes(d.duration / 60.0))
      && |db.GetLogs(Some(id), 100)| == d.logCount
  {
    SortByPermutes(LogsOf(db.logs, id), Timestamp);
    assert |multiset(db.GetLogs(Some(id), 100))| == |multiset(LogsOf(db.logs, id))|;
  }

  // ---------------------------------------------------------------------------
  // renderCharts
  // ---------------------------------------------------------------------------

  /**
   * The logs drawn: the last `limit` when `limit` is positive and there are
   * more logs than that, all of them otherwise. `parsed` is `parseInt` of the
   * limit box, `None` for NaN, which `|| 0` turns into 0.
   */
  function DisplayLogs(logs: seq<LogRow>, parsed: Option<int>): (r: seq<LogRow>)
    ensures var limit := parsed.GetOr(0);
      && |r| == (if limit > 0 && |logs| > limit then limit else |logs|)
      && logs == logs[..|logs| - |r|] + r
      && (limit > 0 ==> r == Tail(logs, limit))
  {
    var limit := parsed.GetOr(0);
    if limit > 0 && |logs| > limit then logs[|logs| - limit..] else logs
  }

  /** A dataset as `renderCharts` passes it: a name, its points and maybe a width. */
  datatype Series = Series(name: string, data: seq<JsValue>, borderWidth: Option<int>)

  /** The columns `renderCharts` plots. */
  datatype Col = V1 | V2 | V3 | I1 | I2 | I3 | N | P1

  function Cell(l: LogRow, c: Col): Option<int> {
    match c
    case V1 => l.p1.v
    case V2 => l.p2.v
    case V3 => l.p3.v
    case I1 => l.p1.i
    case I2 => l.p2.i
    case I3 => l.p3.i
    case N => l.neutralI
    case P1 => l.p1.p
  }

  /** `displayLogs.map(l => l.col)`. */
  function ColumnData(ls: seq<LogRow>, c: Col): seq<JsValue> {
    seq(|ls|, j requires 0 <= j < |ls| => FromColumn(Cell(ls[j], c)))
  }

  /** `totalP`: each log's total, missing phases as 0. */
  function TotalData(ls: seq<LogRow>): seq<JsValue> {
    seq(|ls|, j requires 0 <= j < |ls| => Number(HistoryTotalPower(ls[j])))
  }

  datatype Rendered = Rendered(labels: seq<real>, voltage: seq<Series>, current: seq<Series>, power: seq<Series>)

  /** What `renderCharts` hands to the three charts for the drawn logs `d`. */
  function Render(d: seq<LogRow>): Rendered {
    Rendered(
      seq(|d|, j requires 0 <= j < |d| => d[j].timestamp),
      [Series("L1", ColumnData(d, V1), None), Series("L2", ColumnData(d, V2), None), Series("L3", ColumnData(d, V3), None)],
      [Series("L1", ColumnData(d, I1), None), Series("L2", ColumnData(d, I2), None),
       Series("L3", ColumnData(d, I3), None), Series("N", ColumnData(d, N), None)],
      [Series("Total", TotalData(d), Some(2)), Series("L1", ColumnData(d, P1), None)])
  }

  /** `renderCharts` on the page's logs and limit box. */
  function RenderData(logs: seq<LogRow>, parsed: Option<int>): Rendered {
    Render(DisplayLogs(logs, parsed))
  }

  /** Every series has one point per label. */
  predicate Aligned(labels: seq<real>, series: seq<Series>) {
    forall k :: 0 <= k < |series| ==> |series[k].data| == |labels|
  }

  /**
   * One label per drawn log, its timestamp, in order; every series as long as
   * the labels; three voltage, four current and two power series.
   */
  lemma RenderShape(d: seq<LogRow>)
    ensures var r := Render(d);
      && |r.labels| == |d|
      && (forall j :: 0 <= j < |d| ==> r.labels[j] == d[j].timestamp)
      && Aligned(r.labels, r.voltage) && Aligned(r.labels, r.current) && Aligned(r.labels, r.power)
      && |r.voltage| == 3 && |r.current| == 4 && |r.power| == 2
  {
    var r := Render(d);
    assert |r.labels| == |d|;
  }

  /**
   * The power chart has only the Total and L1 series; the Total treats
   * missing phases as 0.
   */
  lemma RenderPower(d: seq<LogRow>)
    ensures var p := Render(d).power;
      && |p| == 2 && p[0].name == "Total" && p[1].name == "L1"
      && |p[0].data| == |d| && |p[1].data| == |d|
      && (forall j :: 0 <= j < |d| ==>
            p[0].data[j] == Number(d[j].p1.p.GetOr(0) + d[j].p2.p.GetOr(0) + d[j].p3.p.GetOr(0)))
      && (forall j :: 0 <= j < |d| ==> p[1].data[j] == FromColumn(d[j].p1.p))
  {
  }

  // ---------------------------------------------------------------------------
  // updateChartData
  // ---------------------------------------------------------------------------

  /** A dataset as the chart holds it. */
  datatype Dataset = Dataset(name: string, data: seq<JsValue>, fill: bool, borderWidth: int)

  /** `{...d, fill: false, borderWidth: d.borderWidth || 1}`. */
  function Styled(d: Series): (r: Dataset)
    ensures r.name == d.name && r.data == d.data && !r.fill
    ensures r.borderWidth != 0
    ensures d.borderWidth.Some? && d.borderWidth.value != 0 ==> r.borderWidth == d.borderWidth.value
    ensures d.borderWidth.None? || d.borderWidth == Some(0) ==> r.borderWidth == 1
  {
    Dataset(d.name, d.data, false, OrOne(d.borderWidth.GetOr(0)))
  }

  /** JavaScript's `w || 1` on a number, with `undefined` read as the falsy 0. */
  function OrOne(w: int): int {
    if w != 0 then w else 1
  }

  /** Styling a dataset that is already styled changes nothing. */
  lemma StyledIdempotent(d: Series)
    ensures var r := Styled(d);
      Styled(Series(r.name, r.data, Some(r.borderWidth))) == r
  {
  }

  /** The y-axis maximum kept: the parsed box value when positive, none otherwise. */
  function AxisMax(parsed: Option<real>): (r: Option<real>)
    ensures r.Some? <==> parsed.Some? && parsed.value > 0.0
    ensures r.Some? ==> r == parsed
  {
    if parsed.Some? && parsed.value > 0.0 then parsed else None
  }

  /** A chart of the event page. */
  class EventChart {
    var labels: seq<real>
    var datasets: seq<Dataset>
    var yMax: Option<real>

    /** `createLineChart`: no labels, no datasets, no y maximum. */
    constructor ()
      ensures labels == [] && datasets == [] && yMax == None
    {
      labels := [];
      datasets := [];
      yMax := None;
    }

    /**
     * `updateChartData`: replaces labels and datasets, each dataset unfilled
     * and one pixel wide unless it asks otherwise; sets the y maximum when the
     * box parses to a positive number and deletes it otherwise. `parsedYMax`
     * is `parseFloat` of the box, `None` when it is empty or NaN.
     */
    method UpdateChartData(newLabels: seq<real>, series: seq<Series>, parsedYMax: Option<real>)
      modifies this
      ensures labels == newLabels
      ensures |datasets| == |series| && forall k :: 0 <= k < |series| ==> datasets[k] == Styled(series[k])
      ensures yMax == AxisMax(parsedYMax)
    {
      labels := newLabels;
      datasets := seq(|series|, k requires 0 <= k < |series| => Styled(series[k]));
      if parsedYMax.Some? && parsedYMax.value > 0.0 {
        yMax := parsedYMax;
      } else {
        yMax := None;
      }
    }
  }

  /** The event page's three charts. */
  class EventView {
    const voltage: EventChart
    const current: EventChart
    const power: EventChart

    ghost predicate Valid()
      reads this
    {
      voltage != current && current != power && voltage != power
    }

    constructor ()
      ensures Valid()
    {
      voltage := new EventChart();
      current := new EventChart();
      power := new EventChart();
    }

    /**
     * `renderCharts` with the page's limit and y-maximum boxes: nothing when
     * there are no logs, otherwise every chart shows the drawn logs.
     */
    method RenderCharts(logs: Option<seq<LogRow>>, parsedLimit: Option<int>,
                        yVoltage: Option<real>, yCurrent: Option<real>, yPower: Option<real>)
      requires Valid()
      modifies voltage, current, power
      ensures logs.None? ==>
        && unchanged(voltage) && unchanged(current) && unchanged(power)
      ensures logs.Some? ==>
        var r := RenderData(logs.value, parsedLimit);
        && voltage.labels == r.labels && current.labels == r.labels && power.labels == r.labels
        && |voltage.datasets| == 3 && |current.datasets| == 4 && |power.datasets| == 2
        && (forall k :: 0 <= k < 3 ==> voltage.datasets[k] == Styled(r.voltage[k]))
        && (forall k :: 0 <= k < 4 ==> current.datasets[k] == Styled(r.current[k]))
        && (forall k :: 0 <= k < 2 ==> power.datasets[k] == Styled(r.power[k]))
        && voltage.yMax == AxisMax(yVoltage) && current.yMax == AxisMax(yCurrent) && power.yMax == AxisMax(yPower)
    {
      if logs.None? {
        return;
      }
      var r := RenderData(logs.value, parsedLimit);
      voltage.UpdateChartData(r.labels, r.voltage, yVoltage);
      current.UpdateChartData(r.labels, r.current, yCurrent);
      power.UpdateChartData(r.labels, r.power, yPower);
    }
  }

  /** The power chart's Total line is two pixels wide and every other line one. */
  lemma RenderedWidths(d: seq<LogRow>)
    ensures var r := Render(d);
      && |r.power| == 2
      && Styled(r.power[0]).borderWidth == 2
      && Styled(r.power[1]).borderWidth == 1
      && (forall k :: 0 <= k < |r.voltage| ==> Styled(r.voltage[k]).borderWidth == 1)
      && (forall k :: 0 <= k < |r.current| ==> Styled(r.current[k]).borderWidth == 1)
  {
  }
}
