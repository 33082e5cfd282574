# VoltWise sensor node — a verified model

This project models the core of the VoltWise sensor node. The node reads up
to three PZEM-004T energy meters over a MODBUS RTU serial bus. A background
poller publishes the latest readings and estimates the three-phase neutral
current. It also logs every tick into an SQLite table, tagged with the event
("recording") that is active at the time. A browser dashboard draws live
charts and an event table. An event page draws one event's logs.

One Dafny module models each source file:

- `ModbusHandler` (`modbus_handler.dfy`) covers `sensor-node/modbus_handler.py`:
  - register decoding;
  - `read_all` over an abstract bus;
  - the MODBUS RTU CRC-16 (MODBUS over Serial Line V1.02, section 6.2.2);
  - the vendor energy-reset frame.
- `DatabaseHandler` (`database_handler.dfy`) covers `sensor-node/database_handler.py`:
  - the `events` and `logs` tables as in-memory sequences, held by a `Database` class;
  - the 15-column flattening of `log_data`.
- `SensorApp` (`app.dfy`) covers `sensor-node/app.py`:
  - `calculate_neutral`;
  - one tick of `background_poller`;
  - the recording state `current_event_id` as the start/stop/status routes drive it;
  - the `is_active` tagging of `GET /api/events`.
- `Dashboard` (`dashboard.dfy`) covers `sensor-node/static/js/script.js`:
  - the 101-label sliding window of `addDataToChart`;
  - the live and history total power;
  - `fetchData` and `fetchInitialHistory`;
  - the status and duration cells of the event table.
- `EventCharts` (`event_charts.dfy`) covers `sensor-node/static/js/event_charts.js`:
  - the duration text of the event page;
  - the tail limit and the series of `renderCharts`;
  - the border-width and y-axis rules of `updateChartData`.
- `Optional` and `Seqs` are shared helpers:
  - an `Option` type;
  - filtering (SQL `WHERE`);
  - the last `n` elements of a sequence;
  - a stable insertion sort (SQL `ORDER BY`), proved to permute and to sort.

Quantities are kept as integers in the meter's native fixed-point units:
0.1 V, 0.001 A, 0.1 W, 1 Wh, 0.1 Hz and 0.01 PF. In these units, the Python
decoder's scaling followed by `round` is exact. The neutral current is in
milliamperes.

**Behaviour of the code worth knowing:**

- **A failed reading with three meters.** A `None` reading makes `get_i`
  raise (`app.py:41`). With three addresses configured, the outer `except`
  (`app.py:59`) then swallows the whole tick, so nothing is published and
  nothing is logged (`SensorApp.SensorNode.PollTick`). With one or two
  addresses, the tick goes through with neutral current 0.
- **Stopping an event twice.** `stop_event` stamps `end_time` again on every
  call (`DatabaseHandler.Database.StopEvent`).
- **Deleting the recording event.** `delete_event` does not clear
  `current_event_id`. Later ticks keep tagging their logs with the deleted id.
- **Restarting the node.** The database file persists: a restart opens it
  with its earlier events and logs, and new ids continue past the old ones.
  `current_event_id` starts as `None`, so an event that was recording when
  the node stopped stays without an end time and is no longer current
  (`SensorApp.SensorNode.constructor`).

## Model

| member | source | states |
|---|---|---|
| ModbusHandler.OrOfDisjointBits | sensor-node/modbus_handler.py:88 | OR-ing a value below 2^n into a value shifted left by n adds the two |
| ModbusHandler.Combine | sensor-node/modbus_handler.py:85-98 | Python's bitwise OR of `high << 16` with `low`, on two 16-bit words, equals `high·65536 + low` and is below 2^32 |
| ModbusHandler.Decode | sensor-node/modbus_handler.py:83-115 | a reply decodes exactly when it has at least 9 registers (a shorter one raises and records `None`). Each field equals its raw registers in native units, low word first: 0.1 V = r0, mA = r1+65536·r2, 0.1 W = r3+65536·r4, Wh = r5+65536·r6, 0.1 Hz = r7, 0.01 PF = r8. The 32-bit fields are below 2^32 |
| ModbusHandler.DecodeExample | sensor-node/modbus_handler.py:83-110 | registers `[2300,500,0,11500,0,1200,0,500,95,0]` give 230.0 V, 0.500 A, 1150.0 W, 1200 Wh, 50.0 Hz and PF 0.95 |
| ModbusHandler.DecodeIgnoresAlarm | sensor-node/modbus_handler.py:80-110 | the alarm register 9 never changes the reading, and the first nine registers alone give the same reading |
| ModbusHandler.ReadAllEntries | sensor-node/modbus_handler.py:40-116 | the result has exactly the configured addresses as keys. Outside simulation, each entry is the decoding of that address's reply, or `None` when the bus transaction fails |
| ModbusHandler.FailureIsolated | sensor-node/modbus_handler.py:41-116 | a failure at one address sets that address's entry to `None`, leaves every other entry as it was, and keeps the same keys |
| ModbusHandler.SimulationNeverFails | sensor-node/modbus_handler.py:42-43 | in simulation mode every configured address has a reading |
| ModbusHandler.CrcBytes | sensor-node/modbus_handler.py:176 | the checksum goes out as two bytes, low byte first, which reassemble to the 16-bit value |
| ModbusHandler.CalculateCrc | sensor-node/modbus_handler.py:165-176 | the loop over the bytes computes the left fold, from 0xFFFF, of the per-byte step, and returns it low byte first |
| ModbusHandler.UpdateCrc | sensor-node/modbus_handler.py:168-175 | the inner loop is the per-byte step: XOR the byte into the state, then eight rounds that shift right and XOR in 0xA001 when the bit shifted out was 1 |
| ModbusHandler.CrcOfEmpty | sensor-node/modbus_handler.py:167-176 | the empty message has CRC 0xFFFF, sent as `FF FF` |
| ModbusHandler.CrcFoldAppend | sensor-node/modbus_handler.py:168-175 | the checksum of a concatenation continues from the checksum state of the first part |
| ModbusHandler.EightRounds | sensor-node/modbus_handler.py:170-175 | each byte's step is exactly eight rounds |
| ModbusHandler.CrcOfOwnBytes | sensor-node/modbus_handler.py:165-176 | feeding a checksum state its own two bytes, low first, gives zero |
| ModbusHandler.RtuCheck | sensor-node/modbus_handler.py:165-176 | any message followed by its own CRC, low byte first, has CRC zero. This is the receiver-side RTU check |
| ModbusHandler.ReadRequestVector | sensor-node/modbus_handler.py:165-176 | the standard test vector: the read request `01 04 00 00 00 0A` gets the trailer `70 0D` |
| ModbusHandler.ResetFrame | sensor-node/modbus_handler.py:135-138 | the reset frame has 4 bytes: the address, `0x42`, then the CRC of those two bytes low byte first. The CRC over all four bytes is zero |
| ModbusHandler.ResetFrameExample | sensor-node/modbus_handler.py:135-138 | the reset frame for address 1 is `01 42 80 11` |
| ModbusHandler.PzemHandler.constructor | sensor-node/modbus_handler.py:8-33 | the handler keeps the addresses. It is in simulation mode exactly when the port cannot be opened |
| ModbusHandler.Simulate | sensor-node/modbus_handler.py:150-163 | no contract; the centre reading `_simulate_data` gives an address (see Left out); specified by `SimulationNeverFails` |
| ModbusHandler.ReadAddress | sensor-node/modbus_handler.py:41-116 | no contract; one address's entry of `read_all`; specified by `ReadAllEntries` and `FailureIsolated` |
| ModbusHandler.ReadAllSpec | sensor-node/modbus_handler.py:35-116 | no contract; the dictionary `read_all` returns; specified by `ReadAllEntries`, `FailureIsolated` and `PzemHandler.ReadAll` |
| ModbusHandler.CrcByte | sensor-node/modbus_handler.py:168-175 | no contract; the per-byte CRC step; specified by `EightRounds` and `UpdateCrc` |
| ModbusHandler.Crc | sensor-node/modbus_handler.py:165-176 | no contract; the CRC-16 of a message; specified by `CalculateCrc`, `CrcOfEmpty`, `RtuCheck` and `ReadRequestVector` |
| ModbusHandler.PzemHandler.ReadAll | sensor-node/modbus_handler.py:35-116 | the loop over the addresses builds the dictionary `ReadAllSpec` describes: a reading or `None` per address, with later addresses still read after a failure |
| ModbusHandler.PzemHandler.ResetEnergy | sensor-node/modbus_handler.py:118-148 | returns true in simulation mode, without sending. Otherwise it returns true exactly when the address fits in a byte and the port calls succeed, and the frame handed to the port is `ResetFrame(address)`. It never raises |
| DatabaseHandler.G | sensor-node/database_handler.py:82-85 | no contract; one column of the row, `None` when the address has no reading; specified by `FlattenRowColumns` |
| DatabaseHandler.FlattenRow | sensor-node/database_handler.py:87-101 | no contract; the 15-column row `log_data` inserts; specified by `FlattenRowColumns` and `FlattenRowIgnoresRest` |
| DatabaseHandler.FlattenRowColumns | sensor-node/database_handler.py:82-101 | for addresses 1, 2 and 3, the four phase columns hold voltage, current, power and energy of that address's reading when there is one, and are all NULL otherwise. Timestamp, event id and neutral current pass through unchanged |
| DatabaseHandler.FlattenRowIgnoresRest | sensor-node/database_handler.py:82-101 | two dictionaries that agree on the four stored fields of addresses 1 to 3 give the same row. Other addresses, frequency and PF never reach the table |
| DatabaseHandler.UpdateWhere | sensor-node/database_handler.py:69 | an `UPDATE … WHERE id = ?` keeps the table's length, changes the rows with that id, and leaves every other row as it was |
| DatabaseHandler.FindEvent | sensor-node/database_handler.py:121-122 | the lookup finds something exactly when some stored event has the id. What it finds is a stored event with that id |
| DatabaseHandler.EventsNotKeepsIds | sensor-node/database_handler.py:171 | deleting events keeps the ids strictly increasing and below the AUTOINCREMENT counter |
| DatabaseHandler.Database.constructor | sensor-node/database_handler.py:14-52 | `init_db` on a new file gives two empty tables and satisfies the id invariant |
| DatabaseHandler.Database.CreateEvent | sensor-node/database_handler.py:54-63 | appends an event with the given name and start time and no end time, under an id no stored event has. It keeps the id invariant |
| DatabaseHandler.Database.StopEvent | sensor-node/database_handler.py:65-71 | stamps the end time of the rows with that id, and keeps the id invariant |
| DatabaseHandler.Database.UpdateEvent | sensor-node/database_handler.py:158-164 | renames the rows with that id, and keeps the id invariant |
| DatabaseHandler.Database.DeleteEvent | sensor-node/database_handler.py:166-173 | removes the event's logs, then the event, and keeps the id invariant |
| DatabaseHandler.Database.LogData | sensor-node/database_handler.py:73-104 | appends exactly the flattened row |
| DatabaseHandler.StopEventOnlyStampsThatEvent | sensor-node/database_handler.py:69 | `stop_event` changes only `end_time`, and only on the event with that id |
| DatabaseHandler.UpdateEventOnlyRenamesThatEvent | sensor-node/database_handler.py:162 | `update_event` changes only the name, and only on the event with that id |
| DatabaseHandler.DeleteEventCascades | sensor-node/database_handler.py:170-171 | after the cascade, no event with the id and no log tagged with it remain. Every other event and log remains, with its multiplicity |
| DatabaseHandler.GetLogsOfEvent | sensor-node/database_handler.py:148-149 | with a truthy event id, `get_logs` returns every log of that event, each as often as stored and no other, in ascending timestamp order |
| DatabaseHandler.GetLogsLatest | sensor-node/database_handler.py:150-151 | without a filter, `get_logs` returns `limit` logs (all of them when the limit is negative or too large), newest first, and every log left out is no newer than every log returned |
| DatabaseHandler.NewestPrefix | sensor-node/database_handler.py:151 | `LIMIT n` on a newest-first ordering keeps the n newest logs |
| DatabaseHandler.Database.GetEvents | sensor-node/database_handler.py:106-114 | no contract; `get_events`; specified by `GetEventsOrdered` |
| DatabaseHandler.Database.GetEventDetails | sensor-node/database_handler.py:116-140 | no contract; `get_event_details`; specified by `EventDetailsMeaning` |
| DatabaseHandler.Database.GetLogs | sensor-node/database_handler.py:142-156 | no contract; `get_logs`; specified by `GetLogsOfEvent` and `GetLogsLatest` |
| DatabaseHandler.GetEventsOrdered | sensor-node/database_handler.py:111 | `get_events` lists every event exactly once, latest start first |
| DatabaseHandler.EventDetailsMeaning | sensor-node/database_handler.py:116-140 | details exist exactly when an event has the id. The duration runs from start to the end time when that is set and truthy, and to the clock otherwise. The log count is the number of rows tagged with the id |
| DatabaseHandler.FindStoredEvent | sensor-node/database_handler.py:23 | the id is a primary key: looking up a stored event's id finds that very event |
| DatabaseHandler.DurationAgainstClock | sensor-node/database_handler.py:127-128 | an ended event's duration does not depend on the clock. An open event's duration grows one for one with the clock |
| DatabaseHandler.LogCountIsTaggedRows | sensor-node/database_handler.py:135-137 | the filtered log list has one entry per row position tagged with the id |
| SensorApp.Radicand | sensor-node/app.py:23 | no contract; the expression under the square root; specified by `RadicandIsHalfSquaredDifferences`, `RadicandNonNegative`, `RadicandZeroIffBalanced` and `RadicandSymmetric` |
| SensorApp.RadicandIsHalfSquaredDifferences | sensor-node/app.py:23 | twice the radicand is the sum of the squared pairwise differences of the currents |
| SensorApp.RadicandNonNegative | sensor-node/app.py:23-25 | the radicand is never negative, so the `max(0, …)` clamp changes nothing in exact arithmetic |
| SensorApp.RadicandZeroIffBalanced | sensor-node/app.py:23 | the radicand is zero exactly when the three currents are equal |
| SensorApp.RadicandSymmetric | sensor-node/app.py:23 | swapping or rotating the three currents leaves the radicand unchanged, so any permutation does |
| SensorApp.FloorSqrt | sensor-node/app.py:25 | the integer square root rounded down: `r² ≤ n < (r+1)²` |
| SensorApp.RoundSqrt | sensor-node/app.py:25 | the square root rounded to the nearest integer: `(2r−1)² < 4n < (2r+1)²`, i.e. `r` is within one half of `√n` |
| SensorApp.CalculateNeutral | sensor-node/app.py:17-27 | the neutral current in milliamperes is the radicand's square root, to the nearest milliampere (`round(sqrt(x), 3)` in amperes) |
| SensorApp.NeutralZeroIffBalanced | sensor-node/app.py:23-25 | the neutral current is zero exactly for equal currents |
| SensorApp.NeutralSymmetric | sensor-node/app.py:23-25 | the neutral current does not depend on the order of the phases |
| SensorApp.GetI | sensor-node/app.py:40-41 | no contract; `get_i`: 0 for a missing address, a raise (`None`) for a `None` entry, else the current; specified by `GetIOfEntry` |
| SensorApp.TickNeutral | sensor-node/app.py:36-46 | no contract; the tick's neutral current, `None` when it raises; specified by `TickNeutralOfThree`, `TickNeutralCases` and `TickNeutralOrderFree` |
| SensorApp.TickNeutralOfThree | sensor-node/app.py:40-46 | with three configured addresses present in the dictionary, the tick raises exactly when one of them holds `None`, and otherwise takes their currents in configuration order |
| SensorApp.TickNeutralCases | sensor-node/app.py:36-46 | with other than three addresses, the neutral current is 0. With three, the tick raises exactly when one of them read `None`, and otherwise uses their currents in configuration order |
| SensorApp.SimulatedTicksNeverRaise | sensor-node/app.py:40-46 | in simulation mode the neutral computation never raises |
| SensorApp.TickNeutralOrderFree | sensor-node/app.py:43-46 | swapping or rotating the configured addresses does not change the tick's neutral current, nor whether it raises |
| SensorApp.SensorNode.constructor | sensor-node/app.py:12-15 | start-up: no data and no recording, a handler for the configured addresses, and the database file as opened, unchanged (empty on a first start, the earlier events and logs after a restart) |
| SensorApp.SensorNode.RecordingStatus | sensor-node/app.py:132-133 | no contract; `recording_status`; specified through `StartRecording` and `StopRecording` |
| SensorApp.SensorNode.PollTick | sensor-node/app.py:32-60 | a tick that raises publishes and logs nothing. Otherwise it replaces `latest_data` as a whole by the snapshot (timestamp, dictionary, neutral current, event id) and logs the flattened row with the same event id |
| SensorApp.SensorNode.StartRecording | sensor-node/app.py:108-123 | a missing or zero id is refused with 400, and an unknown id with 404, leaving the recording id unchanged. Otherwise that id records and the status reports it |
| SensorApp.SensorNode.StopRecording | sensor-node/app.py:125-129 | always clears the recording id, so a second call changes nothing. The status then reports not recording |
| SensorApp.SensorNode.StopEvent | sensor-node/app.py:135-143 | with no recording event it answers 400 and touches nothing. Otherwise it stamps that event's end time and clears the recording id |
| SensorApp.SensorNode.HandleEventsGet | sensor-node/app.py:94-99 | lists the events in `get_events` order, each flagged active exactly when its id is the recording id |
| SensorApp.AtMostOneActive | sensor-node/app.py:96-98 | because ids are unique, at most one listed event is active, and none is while nothing records |
| Dashboard.AddData | sensor-node/static/js/script.js:152-162 | no contract; the chart after `addDataToChart`; specified by `AddDataStep`, `AddDataKeepsWindow` and `LiveChart.AddDataToChart` |
| Dashboard.FeedAll | sensor-node/static/js/script.js:152-162 | no contract; the chart after `addDataToChart` on each point in turn; specified by `FeedWindow` |
| Dashboard.AddDataStep | sensor-node/static/js/script.js:152-162 | the label count stays at most 101. The new label comes last. Over 100 labels, the oldest label and the oldest point of every dataset go together. A dataset gains `dataArray[idx]` exactly when it is not `undefined` (`null` included) |
| Dashboard.AddDataKeepsWindow | sensor-node/static/js/script.js:153-160 | a chart holding the last 101 labels and values still does after one more fully defined point |
| Dashboard.FeedWindow | sensor-node/static/js/script.js:152-160 | from an empty chart, after any run of fully defined points, the chart shows exactly the last 101 labels, and each dataset the last 101 values meant for it |
| Dashboard.LiveChart.constructor | sensor-node/static/js/script.js:105-109 | a new chart has no labels and `n` empty datasets |
| Dashboard.LiveChart.AddDataToChart | sensor-node/static/js/script.js:152-162 | the in-place shift and push loops leave the chart equal to `AddData` of the old chart |
| Dashboard.SumPower | sensor-node/static/js/script.js:145 | no contract; the sum of the non-null powers in the given key order; specified by `SumPowerConcat` and `SumPowerPermutation` |
| Dashboard.LiveRows | sensor-node/static/js/script.js:136-150 | no contract; the arrays `updateLiveCharts` passes; specified by `LiveMatchesHistory` |
| Dashboard.HistoryRows | sensor-node/static/js/script.js:81-86 | no contract; the arrays `fetchInitialHistory` passes for a row; specified by `LiveMatchesHistory` and `HistoryWindow` |
| Dashboard.TotalLivePower | sensor-node/static/js/script.js:54-57 | the loop's total is the sum of `power` over the sensors that are not `null` |
| Dashboard.SumPowerConcat | sensor-node/static/js/script.js:55-56 | the total over two runs of sensors is the sum of their totals |
| Dashboard.SumPowerPermutation | sensor-node/static/js/script.js:55-57 | the total does not depend on the order the sensors are visited in |
| Dashboard.EnumerationsAgree | sensor-node/static/js/script.js:145 | any two enumerations of the same sensor keys, each key once, are permutations of each other |
| Dashboard.LiveMatchesHistory | sensor-node/static/js/script.js:136-150 | with sensors 1 to 3, the arrays a live tick gives the three charts equal those `fetchInitialHistory` (lines 81-86) builds from the row it is logged as, in any `Object.values` order. The live total over non-null sensors agrees with the history total that counts missing phases as 0 |
| Dashboard.LiveDashboard.constructor | sensor-node/static/js/script.js:93-134 | three distinct empty charts, with three, four and four datasets |
| Dashboard.LiveDashboard.FetchData | sensor-node/static/js/script.js:18-34 | a failed request or the empty `{}` before the first tick shows "Disconnected" and changes no chart. A snapshot sets the total power, adds one point to each chart and shows "Connected" |
| Dashboard.LiveDashboard.AddRows | sensor-node/static/js/script.js:81-86 | one point goes into each of the three charts: the voltage, current and power arrays of the row, under the same label |
| Dashboard.LiveDashboard.LoadInitialHistory | sensor-node/static/js/script.js:68-91 | every history row, oldest first, is added to all three charts |
| Dashboard.HistoryWindow | sensor-node/static/js/script.js:68-91 | after loading the history into fresh charts, each chart shows the timestamps of the last (at most) 101 rows in order, and each dataset that column of the same rows |
| Dashboard.EventStatus | sensor-node/static/js/script.js:201-204 | no contract; the status cell; specified by `StatusAndDurationPrecedence` and `StatusColumn` |
| Dashboard.EventDuration | sensor-node/static/js/script.js:206-212 | no contract; the duration cell; specified by `StatusAndDurationPrecedence` and `ClosedDurationMatchesDetails` |
| Dashboard.StatusAndDurationPrecedence | sensor-node/static/js/script.js:201-212 | status is "recording..." exactly when active, while duration is minutes exactly when ended. A re-recorded ended event shows "recording..." with minutes. "Running" means active and not ended. "Created" goes with "-" |
| Dashboard.StatusColumn | sensor-node/static/js/script.js:201-204 | on the listing from `GET /api/events`, a row says "recording..." exactly when its id is recording, and at most one row does |
| Dashboard.ClosedDurationMatchesDetails | sensor-node/static/js/script.js:207-209 | an ended event's minutes are the `get_event_details` duration divided by 60 |
| EventCharts.DetailsDuration | sensor-node/static/js/event_charts.js:48-53 | no contract; the duration line of the event page; specified by `DetailsAgree` |
| EventCharts.DetailsAgree | sensor-node/static/js/event_charts.js:46-53 | once the event has ended, the details page shows minutes it computes from `start_time` and `end_time`, and "Open" before. In exact arithmetic those minutes equal the server's `duration` over 60 (its rounding is dropped) and the event table's minutes. The point count equals `log_count` |
| EventCharts.DisplayLogs | sensor-node/static/js/event_charts.js:94-99 | with a positive limit and more logs than that, the drawn logs are exactly the last `limit`, in order. Otherwise they are all the logs. A non-numeric limit counts as 0 |
| EventCharts.Render | sensor-node/static/js/event_charts.js:100-130 | no contract; the labels and series `renderCharts` builds from the drawn logs; specified by `RenderShape`, `RenderPower` and `RenderedWidths` |
| EventCharts.RenderData | sensor-node/static/js/event_charts.js:91-130 | no contract; `Render` of the drawn logs; specified by `DisplayLogs` and `EventView.RenderCharts` |
| EventCharts.RenderShape | sensor-node/static/js/event_charts.js:100-130 | one label per drawn log, its timestamp, in order. Every series is as long as the labels. Voltage has 3 series, current 4 and power 2 |
| EventCharts.RenderPower | sensor-node/static/js/event_charts.js:125-129 | the power chart has only the Total and L1 series. Total sums the three phase powers, counting a missing one as 0, and L1 is the phase-1 column |
| EventCharts.Styled | sensor-node/static/js/event_charts.js:152-156 | a styled dataset keeps its name and data and is unfilled. Its width is never 0: it is the given width when that is nonzero, and 1 when none or 0 is given |
| EventCharts.StyledIdempotent | sensor-node/static/js/event_charts.js:152-156 | styling an already styled dataset again changes nothing |
| EventCharts.AxisMax | sensor-node/static/js/event_charts.js:159-163 | the y maximum is set exactly when the box parses to a positive number, and is then that number |
| EventCharts.RenderedWidths | sensor-node/static/js/event_charts.js:127-130 | the Total line is 2 pixels wide, and every other line 1 |
| EventCharts.EventChart.constructor | sensor-node/static/js/event_charts.js:133-148 | a new chart has no labels, no datasets and no y maximum |
| EventCharts.EventChart.UpdateChartData | sensor-node/static/js/event_charts.js:150-166 | the chart's labels are replaced, each dataset by its styled form, and the y maximum by `AxisMax` of the box |
| EventCharts.EventView.constructor | sensor-node/static/js/event_charts.js:103-124 | the three charts are distinct objects |
| EventCharts.EventView.RenderCharts | sensor-node/static/js/event_charts.js:91-131 | no logs leaves every chart untouched. Otherwise all three charts show the drawn logs' labels and their styled series, each with its own y maximum |

## Left out

**Hardware, time and randomness**
- Serial transport: the minimalmodbus `Instrument` setup, the debug flag, `read_registers`, `serial.write`, `serial.read(4)` and `time.sleep` are hardware I/O. A reply is the parameter `bus`, which gives each address a register list or a failure. Whether the port opens is the constructor parameter `portOpens`. Whether the write and read succeed is the parameter `transportOk`.
- ModbusHandler.Simulate: models `_simulate_data` without its `random.uniform` jitter. It takes the centre value of each range, except the power factor, where it takes the upper end 0.95 of [0.90, 0.95]. The clock is a parameter.
- The clock (`time.time`) is a parameter wherever it is read.

**Numbers**
- Float rounding is left out: `round(…, 1)` of durations, `toFixed`, and the scaling of decoded values into volts and amperes. Values stay in fixed-point units.
- SensorApp.CalculateNeutral: computes the square root concretely, as the nearest-integer square root in milliamperes, instead of an abstract `math.sqrt`. For an integer radicand there are no ties, so this is what `round(math.sqrt(x), 3)` on amperes gives up to floating-point error.
- The `except` returning 0.0 in `calculate_neutral` is left out: it cannot happen on numbers.
- Python's CRC value is an unbounded int that the algorithm keeps below 2^16. The model carries it as `bv16`.
- Time-of-day formatting of chart labels (`toLocaleTimeString`, `toLocaleString`) is left out. A label is the timestamp it is formatted from.

**Concurrency and the server**
- The poller thread, its 1 s sleep loop and the unsynchronised globals are left out. `background_poller` reads `current_event_id` twice per tick (lines 53 and 57). A concurrent start or stop can therefore tag the snapshot and the log row differently. The sequential model handles one tick at a time, and both reads see the same value.
- Flask routing and JSON are left out, along with these routes: `POST /api/events` (it calls `create_event`, which is modelled), `list_events` (shadowed by `handle_events`), `get_history`, `manage_event`, the CSV export, `/api/reset` and `view_event`. `get_history`'s parse fallback to 500 and its `reverse`, and `int(event_id)` on string ids, are not modelled. Event ids arrive as integers or as absent.
- SQLite is left out: connections, failures and the schema mechanics. Rows with equal sort keys come from `ORDER BY` in insertion order (a stable sort), a choice SQLite does not promise.
- Repeated addresses in the configuration: each one gets the same modelled bus reply.

**Browser pages**
- The DOM, `fetch`, Chart.js rendering, colours, dashes and `chart.update` are left out. A chart is its label list and its datasets' point lists.
- `parseInt` and `parseFloat` on the limit and y-maximum boxes are not modelled. The parsed value is a parameter (`None` for NaN or an empty box). The limit's `|| 0` fallback is modelled: `EventCharts.DisplayLogs` reads `None` as 0.
- `Object.values` order is the parameter `order`. It lists each key once (`KeyOrder`). The total is proved not to depend on it.
- The per-sensor cards of `updateDashboard`, event creation, renaming and deletion from the page (which call routes modelled above), and the `renameEvent`/`deleteEvent` DOM work are left out.
- The event page's start-up sequence (`event_charts.js` lines 21-34) is left out. `fetchEventDetails` calls `renderCharts`, which reads `inputLimit`. That `const` is declared at line 62, after the awaited call at line 22, so the read throws. Also, `initCharts` and `checkRecordingStatus` are not defined in that file. Either way the `catch` at line 32 ends the start-up before polling begins. Rendering is still reached through the update button, which is registered after the `catch`.
- The event page creates charts lazily. The model creates all three charts up front (`EventView`).
