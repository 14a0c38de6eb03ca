# Industrial IoT dashboard: a verified model of its component logic

The dashboard is a React front end for machine telemetry. It polls backends for OPC-UA, RS485,
RS232 and Modbus readings, shows OEE (overall equipment effectiveness) figures, manages
documents and job assignments, and has a landing-page carousel. This project models the
logic inside those components in Dafny and proves properties of it:

- **Telemetry** (`telemetry.dfy`): the polling reconciliation tick. The feed-drive, lathe
  feed-drive, RS485 and spindle panels each carry a copy of it. One tick takes the answer to a
  realtime poll, and, when that poll fails with no sample held, the answer to the
  `action=latest` fallback. It updates the latest sample, the `lastId` cursor, the bounded
  chart history, the connection status and the consecutive-failure counter, and does nothing
  once the panel is unmounted. `Telemetry.Step` is the tick as a function on the panel state.
  `Telemetry.Panel` is the panel object whose `Tick` updates its fields in place and is proved
  equal to `Step`. The four copies differ only in a `Config`: history capacity 50 or 20,
  whether the implied-velocity outlier guard runs, whether a first no-new-data record replaces
  or extends the history, and the fields of a chart point. `feed_drive.dfy`,
  `lathe_feed_drive.dfy`, `rs485.dfy` and `spindle.dfy` instantiate it.
- **RS232** (`rs232.dfy`): the initial load, the realtime poll into a 100-point buffer whose
  `time` fields are the buffer indices, the max-id cursor, the statistics, the
  connect/disconnect toggle and the Y-axis domain of the voltage chart.
- **OEE** (`oee.dfy`): the major-loss cards, the status badge, the summary and rating labels,
  the parsing of a record and the derived metrics with their zero-denominator guards.
- **Modbus** (`modbus.dfy`): the simulated RTD temperatures (clamped into [10, 95] and rounded
  to one decimal), the colour bands, and the per-sensor 20-reading histories.
- **Milling feed drive** (`milling_feed_drive.dfy`): the three-axis simulator with its clamps,
  the 20-entry history built from the mount-time readings, the axis animation's position
  clamp and its phase counter.
- **Documents** (`document.dfy`): the viewer's zoom, the list query, and the upload and update
  handlers with their validation and messages.
- **Sign-in** (`signin.dfy`): admin and employee login, logout, job statistics and the
  progress figure of a job card.
- **Home** (`home.dfy`): the seven-image carousel with its transition guard and autoplay.

`common.dfy` holds what the components share: `Option` for the `x || default` idiom,
`Math.round`/`floor`/`ceil`, `slice(-n)`, `reverse()` and the clamped percentage of a
travel range.

Numbers are Dafny `real`s, timestamps are integer milliseconds, and a field that
`parseFloat` reads as NaN is absent from the record (`None`). Every random draw, clock reading
and backend answer is a parameter.

Four behaviours of the code are easy to misread; the model follows them as written:

- On an accepted batch the cursor becomes the newest record's id, with no comparison against
  the old cursor. `Telemetry.AcceptedCursorCanDecrease` shows that it can move down.
- The outlier guard accepts a sample whose time delta is zero or negative, because the implied
  velocity is then 0.
- The failure counter is tested before it is incremented. So the status reads `reconnecting`
  after the first and second consecutive failures and `disconnected` from the third on.
- An empty new-data batch makes `result.data[0]` undefined. Reading a field of it throws, so
  the tick takes the failure path.
  - In the guarded copy with a record held, the throw comes from reading `.position` in the
    guard, before anything is set.
  - Otherwise it comes from reading `.id`, after `setData(undefined)` has already run. This
    covers every copy without a guard, and the guarded copy with no record held.
  
  In the copies that append a no-new-data record rather than replace the history with it, a
  later no-new-data answer then appends untrimmed. So those histories can exceed 20 points
  (`LatheFeedDrive.HistoryCanExceedCapacity`).

## Model

| member | source | states |
|---|---|---|
| Common.Round | dashboard/src/components/RealTimeData/MODBUS/Modbus.js:248 | `Math.round`: the result is within one half of its argument (halves round up) |
| Common.RoundWithin | dashboard/src/components/RealTimeData/MODBUS/Modbus.js:246-248 | rounding keeps a value inside integer bounds it already lies in |
| Common.FloorOf | dashboard/src/components/RealTimeData/RS232/RS232Monitor.js:154 | `Math.floor`: the greatest integer not above the argument |
| Common.CeilOf | dashboard/src/components/RealTimeData/RS232/RS232Monitor.js:155 | `Math.ceil`: the least integer not below the argument |
| Common.SliceLast | dashboard/src/components/RealTimeData/OPCUA/Feed_drive.js:590-593 | `slice(-n)`: the last `n` elements (all when shorter), as a suffix of exactly that length |
| Common.SliceLastAppend | dashboard/src/components/RealTimeData/OPCUA/Feed_drive.js:576-593 | trimming after every appended point equals trimming once after all of them |
| Common.Reversed | dashboard/src/components/RealTimeData/OPCUA/Feed_drive.js:576 | `reverse()` keeps the length and puts element `n-1-k` of the original at position `k` |
| Common.ClampedPercent | dashboard/src/components/RealTimeData/OPCUA/Feed_drive.js:166-167 | the position as a percentage of the travel range, clamped into [0, 100]: 0 at or below the minimum, 100 at or above the maximum, linear in between |
| Telemetry.NormalizeAll | dashboard/src/components/RealTimeData/OPCUA/Feed_drive.js:577-588 | one chart point per record, each field `parseFloat` or 0, in the same order |
| Telemetry.AppendOneTrimmed | dashboard/src/components/RealTimeData/OPCUA/Feed_drive.js:576-593 | one iteration of the append-and-trim loop, related to the whole appended batch |
| Telemetry.InitialInvariant | dashboard/src/components/RealTimeData/OPCUA/Feed_drive.js:677 | the mount state satisfies the panel invariant |
| Telemetry.ImpliedVelocity | dashboard/src/components/RealTimeData/OPCUA/Feed_drive.js:559-562 | the implied velocity is never negative, is 0 for a zero or negative time delta, and is missing (NaN) exactly when the delta is positive and a position is missing |
| Telemetry.CountFailure | dashboard/src/components/RealTimeData/OPCUA/Feed_drive.js:629-637 | a failure reads `disconnected` exactly when the counter has reached 2, never pushes the counter past 2, and leaves sample, cursor and history alone |
| Telemetry.Step | dashboard/src/components/RealTimeData/OPCUA/Feed_drive.js:545-672 | a tick never changes the unmounted flag, changes nothing after unmount, and leaves the counter at 0, where it was, or one higher |
| Telemetry.StepInvariant | dashboard/src/components/RealTimeData/OPCUA/Feed_drive.js:545-672 | every tick keeps the invariant: counter at most 2, bounded history where the first record replaces it, guard record held exactly when a sample is |
| Telemetry.StepAfterUnmount | dashboard/src/components/RealTimeData/OPCUA/Feed_drive.js:546-552 | after unmount a tick changes nothing, whatever the answer |
| Telemetry.RunAfterUnmount | dashboard/src/components/RealTimeData/OPCUA/Feed_drive.js:546-552 | after unmount any number of ticks change nothing |
| Telemetry.RunInvariant | dashboard/src/components/RealTimeData/OPCUA/Feed_drive.js:545-672 | the invariant holds after any sequence of ticks |
| Telemetry.OutlierDropped | dashboard/src/components/RealTimeData/OPCUA/Feed_drive.js:557-568 | an implausible batch is dropped whole: sample, cursor, history, status and counter all unchanged |
| Telemetry.NonPositiveDeltaAccepted | dashboard/src/components/RealTimeData/OPCUA/Feed_drive.js:559-562 | a zero or negative time delta gives velocity 0, so the guard accepts the sample |
| Telemetry.ImplausibleIff | dashboard/src/components/RealTimeData/OPCUA/Feed_drive.js:557-565 | the guard rejects exactly when Δt > 0, both positions are numeric and \|Δposition\| · 1000 > 500 · Δt |
| Telemetry.AcceptedBatch | dashboard/src/components/RealTimeData/OPCUA/Feed_drive.js:554-593 | an accepted batch sets the sample to `data[0]` and the cursor to its id, appends the batch oldest-first trimmed to capacity, reads `connected` with the counter at 0 |
| Telemetry.AcceptedCursorCanDecrease | dashboard/src/components/RealTimeData/OPCUA/Feed_drive.js:571-573 | the accepted cursor is not compared with the old one: it can decrease |
| Telemetry.AppendBatchBounded | dashboard/src/components/RealTimeData/OPCUA/Feed_drive.js:576-593 | the new history has at most `capacity` points, is a suffix of old history plus batch, and ends with the newest record |
| Telemetry.LargeBatchReplacesHistory | dashboard/src/components/RealTimeData/OPCUA/Feed_drive.js:576-593 | a batch of at least `capacity` records pushes the whole old history out |
| Telemetry.AppendBatchChronological | dashboard/src/components/RealTimeData/OPCUA/Feed_drive.js:576-593 | a chronological history stays chronological when a newest-first batch no older than it is appended |
| Telemetry.SuffixChronological | dashboard/src/components/RealTimeData/OPCUA/Feed_drive.js:590-593 | a suffix of a chronological history is chronological |
| Telemetry.ReversedChronological | dashboard/src/components/RealTimeData/OPCUA/Feed_drive.js:576 | reversing a newest-first batch gives points in time order |
| Telemetry.ConcatChronological | dashboard/src/components/RealTimeData/OPCUA/Feed_drive.js:590-591 | two chronological runs joined in time order are chronological |
| Telemetry.NoNewDataCursorMonotone | dashboard/src/components/RealTimeData/OPCUA/Feed_drive.js:595-624 | a no-new-data answer keeps a held sample and its history, raises the cursor only to a larger id, and reads `connected` |
| Telemetry.NoNewDataSeeds | dashboard/src/components/RealTimeData/OPCUA/Feed_drive.js:595-616 | with no sample held, the record replaces the history (feed drive) or is appended untrimmed (the others) |
| Telemetry.FailureCounts | dashboard/src/components/RealTimeData/OPCUA/Feed_drive.js:629-637 | a failure counts up to 2 with `reconnecting`, then reads `disconnected`; sample, cursor and history unchanged |
| Telemetry.ThreeFailures | dashboard/src/components/RealTimeData/OPCUA/Feed_drive.js:632-637 | three consecutive failures read reconnecting, reconnecting, disconnected |
| Telemetry.Failures | dashboard/src/components/RealTimeData/OPCUA/Feed_drive.js:629-637 | a run of `n` failed polls with no fallback answer |
| Telemetry.FailureRun | dashboard/src/components/RealTimeData/OPCUA/Feed_drive.js:629-637 | after `n` failures the counter is min(attempts + n, 2) and the status is `disconnected` from the third on |
| Telemetry.SuccessResets | dashboard/src/components/RealTimeData/OPCUA/Feed_drive.js:622-624 | every successful poll reads `connected` and resets the counter |
| Telemetry.FallbackSeeds | dashboard/src/components/RealTimeData/OPCUA/Feed_drive.js:640-666 | a fallback answer with no sample held seeds sample, cursor and a one-point history, and reads `connected` with the counter reset |
| Telemetry.FallbackIgnoredWhenHeld | dashboard/src/components/RealTimeData/OPCUA/Feed_drive.js:640 | with a sample held the fallback answer makes no difference |
| Telemetry.ChartData | dashboard/src/components/RealTimeData/RS485/RS485.js:205-206 | `getSampleData` (also the spindle panel's, lines 213-214 of MM_Spindle.js): the real history whenever it is non-empty |
| Telemetry.Panel.constructor | dashboard/src/components/RealTimeData/OPCUA/Feed_drive.js:677 | a panel mounts in the initial state |
| Telemetry.Panel.Unmount | dashboard/src/components/RealTimeData/OPCUA/Feed_drive.js:686 | the cleanup only sets the unmounted flag |
| Telemetry.Panel.Tick | dashboard/src/components/RealTimeData/OPCUA/Feed_drive.js:545-672 | one tick updates the fields exactly as `Step` does, keeping the invariant |
| Telemetry.Panel.Arrived | dashboard/src/components/RealTimeData/OPCUA/Feed_drive.js:553-593 | the new-data branch with its guard, as in `Step` |
| Telemetry.Panel.Reconcile | dashboard/src/components/RealTimeData/OPCUA/Feed_drive.js:595-624 | the no-new-data branch, as in `Step` |
| Telemetry.Panel.Succeeded | dashboard/src/components/RealTimeData/OPCUA/Feed_drive.js:622-624 | `connected`, loading over, counter 0 |
| Telemetry.Panel.Failed | dashboard/src/components/RealTimeData/OPCUA/Feed_drive.js:629-666 | the catch block: count the failure, then the fallback with no sample held |
| Telemetry.Panel.AppendPoints | dashboard/src/components/RealTimeData/OPCUA/Feed_drive.js:576-593 | the `forEach` append loop leaves the history as `AppendBatch` describes |
| FeedDrive.Mount | dashboard/src/components/RealTimeData/OPCUA/Feed_drive.js:676-686 | the panel mounts with capacity 50, the guard on and the initial state |
| FeedDrive.HistoryBounded | dashboard/src/components/RealTimeData/OPCUA/Feed_drive.js:592 | over any run of ticks the history holds at most 50 points and the counter at most 2 |
| FeedDrive.GuardExamples | dashboard/src/components/RealTimeData/OPCUA/Feed_drive.js:557-568 | a 1000 mm jump in 100 ms is rejected and changes nothing; 10 mm in 1 s is accepted |
| FeedDrive.ClampedPosition | dashboard/src/components/RealTimeData/OPCUA/Feed_drive.js:159-167 | the travel percentage over 0-700 mm, clamped into [0, 100] |
| LatheFeedDrive.Mount | dashboard/src/components/RealTimeData/OPCUA/LatheMachine/LM_Feed_drive.js:524-534 | the panel mounts with capacity 20 and no guard |
| LatheFeedDrive.EveryBatchAccepted | dashboard/src/components/RealTimeData/OPCUA/LatheMachine/LM_Feed_drive.js:413-439 | every non-empty batch is accepted: cursor `data[0].id`, history trimmed to 20 |
| LatheFeedDrive.HistoryCanExceedCapacity | dashboard/src/components/RealTimeData/OPCUA/LatheMachine/LM_Feed_drive.js:444-462 | a full history, an empty batch, then a no-new-data record give 21 points |
| LatheFeedDrive.XClampedPosition | dashboard/src/components/RealTimeData/OPCUA/LatheMachine/LM_Feed_drive.js:69-71 | the X travel percentage over 50-250, clamped into [0, 100] |
| LatheFeedDrive.ZClampedPosition | dashboard/src/components/RealTimeData/OPCUA/LatheMachine/LM_Feed_drive.js:70-72 | the Z travel percentage over 100-500, clamped into [0, 100] |
| Rs485.Mount | dashboard/src/components/RealTimeData/RS485/RS485.js:174-184 | the panel mounts with capacity 20, four fields and no guard |
| Rs485.CounterBounded | dashboard/src/components/RealTimeData/RS485/RS485.js:122-138 | over any run of ticks the counter stays in [0, 2] |
| Rs485.PointFields | dashboard/src/components/RealTimeData/RS485/RS485.js:82-89 | a chart point carries voltage, current, frequency and energy, each 0 when not numeric |
| Spindle.Mount | dashboard/src/components/RealTimeData/OPCUA/MillingMachine/MM_Spindle.js:180-190 | the panel mounts with capacity 20, six fields and no guard |
| Spindle.SilentAfterUnmount | dashboard/src/components/RealTimeData/OPCUA/MillingMachine/MM_Spindle.js:65-72 | once unmounted the panel ignores every later answer |
| Spindle.DisconnectedFromThirdFailure | dashboard/src/components/RealTimeData/OPCUA/MillingMachine/MM_Spindle.js:133-142 | from the third consecutive failure on, the panel reads `disconnected` with the counter at 2 |
| Rs232.SignalStrength | dashboard/src/components/RealTimeData/RS232/RS232Monitor.js:44 | the magnitude as a percentage of 5 V: defined exactly when the voltage is, non-negative, at most 100 within ±5 V |
| Rs232.Indexed | dashboard/src/components/RealTimeData/RS232/RS232Monitor.js:28-34 | one chart point per record, its `time` being its index |
| Rs232.Reindex | dashboard/src/components/RealTimeData/RS232/RS232Monitor.js:85-88 | every point's `time` becomes its index; nothing else changes |
| Rs232.MaxId | dashboard/src/components/RealTimeData/RS232/RS232Monitor.js:92 | the largest id of a non-empty batch: at least every id and equal to one |
| Rs232.Merged | dashboard/src/components/RealTimeData/RS232/RS232Monitor.js:70-89 | old buffer plus batch, the last 100, reindexed: exact length, times are indices, each point taken from the right place |
| Rs232.Numeric | dashboard/src/components/RealTimeData/RS232/RS232Monitor.js:149 | exactly the voltages that are numbers |
| Rs232.MinOf | dashboard/src/components/RealTimeData/RS232/RS232Monitor.js:150 | the least value, and one of the values |
| Rs232.MaxOf | dashboard/src/components/RealTimeData/RS232/RS232Monitor.js:151 | the greatest value, and one of the values |
| Rs232.YDomain | dashboard/src/components/RealTimeData/RS232/RS232Monitor.js:149-156 | every numeric voltage lies at least 1 inside the domain, whose span is at least 2 |
| Rs232.EmptyDomain | dashboard/src/components/RealTimeData/RS232/RS232Monitor.js:150-156 | with no numeric voltage the domain is [-6, 6] |
| Rs232.Monitor.constructor | dashboard/src/components/RealTimeData/RS232/RS232Monitor.js:6-18 | connected, empty buffer, cursor 0, initial load pending, zero stats |
| Rs232.Monitor.StartPolling | dashboard/src/components/RealTimeData/RS232/RS232Monitor.js:110-121 | the initial load is requested once per connection |
| Rs232.Monitor.FetchInitial | dashboard/src/components/RealTimeData/RS232/RS232Monitor.js:22-52 | buffer = the reply reversed and indexed, cursor = max id, stats from the backend's first record, total = batch length; a failed or empty reply changes nothing |
| Rs232.Monitor.FetchRealtime | dashboard/src/components/RealTimeData/RS232/RS232Monitor.js:55-107 | buffer = `Merged`, at most 100 points, cursor = the batch's max id; the stats record is the old one with voltage, signal strength and last-update time from the batch's last record and the total grown by the batch length; a failed or empty reply changes nothing |
| Rs232.Monitor.Toggle | dashboard/src/components/RealTimeData/RS232/RS232Monitor.js:132-146 | connecting empties the buffer, resets cursor and stats and rearms the initial load; disconnecting only flips the flag |
| Oee.Range | dashboard/src/components/Oee/Oee.js:142 | a loss card's range is the loss scaled by the two factors and rounded; low ≤ high |
| Oee.AvailabilityCards | dashboard/src/components/Oee/Oee.js:138-159 | one card below 85, always equipment failure with its range |
| Oee.PerformanceCards | dashboard/src/components/Oee/Oee.js:161-182 | one card below 85, always reduced speed with its range |
| Oee.QualityCards | dashboard/src/components/Oee/Oee.js:184-205 | one card below 95: process defects below 92, reduced yield from 92 |
| Oee.MajorLosses | dashboard/src/components/Oee/Oee.js:135-208 | the pushes build exactly the three metrics' cards in order |
| Oee.Cards | dashboard/src/components/Oee/Oee.js:135-208 | one card for each metric below its target (availability and performance at 85, quality at 95) and no others |
| Oee.CardsPerMetric | dashboard/src/components/Oee/Oee.js:135-208 | at most three cards; a metric has one exactly when it is below its target |
| Oee.CardsOrdered | dashboard/src/components/Oee/Oee.js:135-208 | cards come in the order availability, performance, quality |
| Oee.CardKinds | dashboard/src/components/Oee/Oee.js:138-205 | setup/adjustments and idling/minor stops never appear; process defects iff quality < 92; reduced yield iff 92 ≤ quality < 95 |
| Oee.OeeStatus | dashboard/src/components/Oee/Oee.js:211-213 | world class from 85, good from 70, fair from 60, else poor, each as an iff |
| Oee.StatusMonotone | dashboard/src/components/Oee/Oee.js:211-213 | a higher OEE never gets a lower status |
| Oee.Summary | dashboard/src/components/Oee/Oee.js:1014-1017 | world class iff ≥ 85, critical iff < 60 |
| Oee.SummaryAgreesWithStatus | dashboard/src/components/Oee/Oee.js:1009-1017 | the summary label and the status badge use the same cut points |
| Oee.Rate | dashboard/src/components/Oee/Oee.js:977 | excellent iff at or above its bar, needs improvement iff below the lower one |
| Oee.AvailabilityRating | dashboard/src/components/Oee/Oee.js:977 | excellent from 85, good in [70, 85), needs improvement below 70, each as an iff |
| Oee.PerformanceRating | dashboard/src/components/Oee/Oee.js:989 | excellent from 85, good in [70, 85), needs improvement below 70, each as an iff |
| Oee.QualityRating | dashboard/src/components/Oee/Oee.js:1001 | excellent from 95, good in [85, 95), needs improvement below 85, each as an iff |
| Oee.ExcellentMeansNoLoss | dashboard/src/components/Oee/Oee.js:977-1001 | a metric is rated excellent exactly when it has no loss card |
| Oee.Parse | dashboard/src/components/Oee/Oee.js:566-580 | each of the thirteen fields is its parsed value, or 0 when it does not parse; downtime, production time and machining time are the seconds divided by 60 (0 when missing) |
| Oee.GuardedRatio | dashboard/src/components/Oee/Oee.js:585-590 | 0 for a non-positive denominator, the quotient otherwise |
| Oee.Derive | dashboard/src/components/Oee/Oee.js:584-595 | first-pass yield + scrap rate = 100 with parts, both 0 without; FPY · total = good · 100, actual cycle time · total = machining time, ideal cycle time · target = cycle time, throughput · runtime = parts · 60 where the denominators are positive, and 0 where they are not; each loss = 100 − its metric; rejected + good = total |
| Oee.SharesOfWhole | dashboard/src/components/Oee/Oee.js:588-590 | a part's share and the rest's share add up to 1 |
| Oee.EquipmentEfficiency | dashboard/src/components/Oee/Oee.js:907 | machining over runtime in percent; undefined exactly when the runtime is 0 |
| Oee.CapacityUtilisation | dashboard/src/components/Oee/Oee.js:925 | parts over target in percent; 0 without a positive target |
| Oee.TargetEfficiency | dashboard/src/components/Oee/Oee.js:934 | good parts over target in percent; 0 without a positive target |
| Modbus.GenerateTemperature | dashboard/src/components/RealTimeData/MODBUS/Modbus.js:240-249 | the new temperature always lies in [10, 95] |
| Modbus.Moved | dashboard/src/components/RealTimeData/MODBUS/Modbus.js:242-246 | the moved value is clamped into [10, 95]: it equals current + variance inside the range, and is each bound exactly when current + variance reaches or passes that bound |
| Modbus.GeneratedIsRounded | dashboard/src/components/RealTimeData/MODBUS/Modbus.js:248 | the result has one decimal and is within 0.05 of the clamped value |
| Modbus.Status | dashboard/src/components/RealTimeData/MODBUS/Modbus.js:18-24 | cool < 20, optimal < 40, warm < 60, hot < 80, else critical, each as an iff |
| Modbus.TemperatureColor | dashboard/src/components/RealTimeData/MODBUS/Modbus.js:10-16 | the fill colour is the colour of the temperature's status band (same thresholds as lines 18-24) |
| Modbus.LineColor | dashboard/src/components/RealTimeData/MODBUS/Modbus.js:136-142 | the graph line colour is the line colour of the temperature's status band |
| Modbus.FillHeight | dashboard/src/components/RealTimeData/MODBUS/Modbus.js:88 | the fill height is at least 8 and at least the value, and equals the value from 8 up and 8 below it |
| Modbus.PushShape | dashboard/src/components/RealTimeData/MODBUS/Modbus.js:266-272 | the new reading is last, the history grows until 20 and then drops its oldest |
| Modbus.Panel.constructor | dashboard/src/components/RealTimeData/MODBUS/Modbus.js:226-230 | the three sensors start at 25, 30 and 35 with empty histories |
| Modbus.Panel.InitHistory | dashboard/src/components/RealTimeData/MODBUS/Modbus.js:283-295 | each sensor's history becomes exactly one reading of its current temperature |
| Modbus.Panel.AppendedOk | dashboard/src/components/RealTimeData/MODBUS/Modbus.js:266-272 | appending an in-range reading and trimming keeps at most 20 in-range readings |
| Modbus.Panel.UpdateTemperatures | dashboard/src/components/RealTimeData/MODBUS/Modbus.js:251-281 | each sensor gets its new temperature, and its history that reading appended and trimmed to 20 |
| Modbus.NextTemperatures | dashboard/src/components/RealTimeData/MODBUS/Modbus.js:254-259 | each sensor's new temperature is generated from its own draw and lies in [10, 95] |
| Modbus.AppendReadings | dashboard/src/components/RealTimeData/MODBUS/Modbus.js:262-275 | the `forEach` gives every sensor's history its new reading, trimmed to 20 |
| MillingFeedDrive.NextReading | dashboard/src/components/RealTimeData/OPCUA/MillingMachine/MM_Feed_drive.js:280-308 | a new reading is non-negative, warm enough and inside the travel, and each of speed, torque, voltage, current, power, temperature and position equals the moved value where no clamp applies |
| MillingFeedDrive.Simulator.constructor | dashboard/src/components/RealTimeData/OPCUA/MillingMachine/MM_Feed_drive.js:268-272 | the simulator starts from the initial readings with an empty history |
| MillingFeedDrive.Simulator.Tick | dashboard/src/components/RealTimeData/OPCUA/MillingMachine/MM_Feed_drive.js:278-330 | each axis moves by its own draws; the history keeps its last 19 entries plus one built from the mount-time readings |
| MillingFeedDrive.InitialPlausible | dashboard/src/components/RealTimeData/OPCUA/MillingMachine/MM_Feed_drive.js:268-272 | the initial readings are ones the simulator could produce |
| MillingFeedDrive.ClampedPosition | dashboard/src/components/RealTimeData/OPCUA/MillingMachine/MM_Feed_drive.js:76-77 | the axis position percentage is clamped into [0, 100] |
| MillingFeedDrive.ClampInactive | dashboard/src/components/RealTimeData/OPCUA/MillingMachine/MM_Feed_drive.js:366-370 | the display limits equal the travel caps, so the clamp never changes a simulated position |
| MillingFeedDrive.AxisAnimation.constructor | dashboard/src/components/RealTimeData/OPCUA/MillingMachine/MM_Feed_drive.js:65 | the phase starts at 0 |
| MillingFeedDrive.AxisAnimation.Tick | dashboard/src/components/RealTimeData/OPCUA/MillingMachine/MM_Feed_drive.js:67-74 | while the axis moves the phase advances modulo 100, staying in [0, 100) |
| DocumentManager.ZoomedIn | dashboard/src/components/Document/Document.js:306-308 | one step of 25 up, stopping at 300, keeping the zoom valid |
| DocumentManager.ZoomedOut | dashboard/src/components/Document/Document.js:310-312 | one step of 25 down, stopping at 25, keeping the zoom valid |
| DocumentManager.ZoomRoundTrip | dashboard/src/components/Document/Document.js:306-312 | below the top, out undoes in; above the bottom, in undoes out |
| DocumentManager.MessageOr | dashboard/src/components/Document/Document.js:74 | the backend's message unless missing or empty, else the fallback text |
| DocumentManager.BuildQuery | dashboard/src/components/Document/Document.js:54-62 | `staff_id` iff its filter is set, `user_name` iff the search is set and after it, `?` only with parameters |
| DocumentManager.Manager.constructor | dashboard/src/components/Document/Document.js:30 | the viewer starts at 100% with nothing loaded |
| DocumentManager.Manager.ZoomIn | dashboard/src/components/Document/Document.js:306-308 | zoom in, a no-op at 300 |
| DocumentManager.Manager.ZoomOut | dashboard/src/components/Document/Document.js:310-312 | zoom out, a no-op at 25 |
| DocumentManager.Manager.ZoomReset | dashboard/src/components/Document/Document.js:314-316 | reset, and opening the viewer at line 296, set the zoom to 100 |
| DocumentManager.Manager.FetchDocuments | dashboard/src/components/Document/Document.js:51-80 | the list on success, else an empty list and the matching error |
| DocumentManager.Complete | dashboard/src/components/Document/Document.js:85-88 | a complete upload form has all three text fields non-empty and a file chosen; the reset form is never complete |
| DocumentManager.Manager.HandleUpload | dashboard/src/components/Document/Document.js:83-118 | an incomplete form sets the error and sends nothing; otherwise the reply decides message, form and modal |
| DocumentManager.Manager.HandleUpdate | dashboard/src/components/Document/Document.js:121-154 | nothing happens without a document being edited; otherwise the reply decides |
| DocumentManager.ZoomAfterValid | dashboard/src/components/Document/Document.js:306-316 | any sequence of presses from a valid zoom ends on a valid zoom |
| DocumentManager.ZoomFromDefault | dashboard/src/components/Document/Document.js:306-316 | from 100 the zoom is always a multiple of 25 in [25, 300] |
| SignIn.TotalParts | dashboard/src/components/SignIn/Signin.js:140 | the parts total is non-negative when every target is |
| SignIn.TotalQuality | dashboard/src/components/SignIn/Signin.js:141 | the quality sum lies in [0, 100 · n] when every estimate is a percentage |
| SignIn.CompletedCount | dashboard/src/components/SignIn/Signin.js:143 | the completed jobs, never more than all jobs |
| SignIn.ActiveCount | dashboard/src/components/SignIn/Signin.js:142 | the jobs not completed, never more than all jobs |
| SignIn.ActivePlusCompleted | dashboard/src/components/SignIn/Signin.js:142-143 | active + completed = all jobs |
| SignIn.TotalPartsAppend | dashboard/src/components/SignIn/Signin.js:140 | the parts total of two lists one after the other is the sum of their totals |
| SignIn.MissingTargetAddsNothing | dashboard/src/components/SignIn/Signin.js:140 | appending a job without a target leaves the parts total unchanged |
| SignIn.MissingTargetsCountZero | dashboard/src/components/SignIn/Signin.js:140 | jobs without a target add nothing to the parts total |
| SignIn.JobStats | dashboard/src/components/SignIn/Signin.js:138-144 | total = job count, active + completed = total, rate in [0, 100], all 0 with no jobs, 100 when all are completed |
| SignIn.CompletionRate | dashboard/src/components/SignIn/Signin.js:143 | the rounded completed share is in [0, 100], 100 when all are done, 0 when none are |
| SignIn.Progress | dashboard/src/components/SignIn/Signin.js:593 | the progress figure is at most 100, undefined exactly when the target is a literal 0 |
| SignIn.Session.constructor | dashboard/src/components/SignIn/Signin.js:8-13 | admin mode, logged out, blank credentials, no jobs |
| SignIn.Session.FetchJobs | dashboard/src/components/SignIn/Signin.js:43-54 | the reply when it is an array, else no jobs |
| SignIn.Session.HandleLogin | dashboard/src/components/SignIn/Signin.js:57-95 | admin login succeeds iff both fixed strings match, else sets the error and stays logged out; employee login follows the reply |
| SignIn.Session.HandleLogout | dashboard/src/components/SignIn/Signin.js:97-105 | logged out, admin mode, no employee, blank credentials |
| Home.NextIndex | dashboard/src/components/Home/Home.js:135 | the next index wraps from 6 to 0 and stays in [0, 7) |
| Home.PrevIndex | dashboard/src/components/Home/Home.js:144 | the previous index wraps from 0 to 6 and stays in [0, 7) |
| Home.NextPrevInverse | dashboard/src/components/Home/Home.js:131-147 | previous undoes next and next undoes previous |
| Home.Advanced | dashboard/src/components/Home/Home.js:125 | repeated advances stay in [0, 7) |
| Home.AdvancedIsModular | dashboard/src/components/Home/Home.js:125 | `n` advances move the index `n` places modulo 7 |
| Home.FullCircle | dashboard/src/components/Home/Home.js:125 | seven advances return to the starting image |
| Home.Carousel.constructor | dashboard/src/components/Home/Home.js:35-37 | first image, autoplay on, no transition |
| Home.Carousel.Next | dashboard/src/components/Home/Home.js:131-138 | ignored during a transition, otherwise starts one that will move forward |
| Home.Carousel.Prev | dashboard/src/components/Home/Home.js:140-147 | ignored during a transition, otherwise starts one that will move back |
| Home.Carousel.GoTo | dashboard/src/components/Home/Home.js:149-156 | ignored during a transition or for the current image, otherwise starts one that will jump |
| Home.Carousel.Complete | dashboard/src/components/Home/Home.js:131-156 | the transition timer makes the pending move and ends the transition; the index stays in [0, 7) |
| Home.Carousel.AutoAdvance | dashboard/src/components/Home/Home.js:122-129 | the autoplay interval advances the index only while autoplay is on |
| Home.Carousel.ToggleAutoPlay | dashboard/src/components/Home/Home.js:343 | the button flips autoplay |

## Left out

- HTTP requests, JSON parsing, credentials, the FormData upload and the blob view and download are left out. They are I/O against a backend; the model takes each parsed answer as an input.
- Timers and async interleaving are left out: overlapping ticks, the RS232 initial load racing the realtime poll, and the carousel's 150 ms timer. Each tick, answer or timer firing is one atomic step.
- Telemetry.Panel.Tick: does not model the fallback answer arriving after unmount. The source does not re-check the flag after awaiting the fallback; the model treats the whole tick as one step.
- Record timestamps are integer milliseconds; a date that does not parse (NaN) is not modelled.
- DocumentManager.BuildQuery: the query string is built without percent-encoding, because `URLSearchParams`' encoding rules are not part of this model.
- SignIn.Progress: `None` stands for both the Infinity (shown as 100) and the NaN that a target of literal 0 gives, because reals have neither.
- SignIn.CompletionRate: computes the share in exact reals, so it does not model IEEE-754 rounding just below a half. With 29 of 200 jobs done the page rounds 14.499999999999998 to 14, while the model rounds 14.5 to 15. `Common.Round` and the other rounded figures (Oee.Range, Modbus.GeneratedIsRounded, SignIn.JobStats' average) share this gap.
- SignIn.JobStats: a job field that does not parse as an integer at all (NaN) is not modelled; numeric fields are `Option<int>`.
- Oee.EquipmentEfficiency: a zero runtime gives `None` instead of the NaN or Infinity the page would print.
- Modbus.Panel.UpdateTemperatures: a reading's ISO time string is the integer clock reading `now`.
- The global `ResizeObserver` and error-handler patch, `StableGauge` and the smooth-interpolation easing are left out: an environment patch and floating-point rendering animation.
- `Math.random` sample and demo data (`getSampleData`'s demonstration branch, particle backgrounds) is left out; every simulator draw is a parameter.
- Date formatting (`toLocaleTimeString`, `toISOString`, `toFixed`, `formatFileSize`, `formatDate`) is left out: locale formatting.
- JSX, CSS, class-name choice, Worker.js and the routing and layout files (App.js, OPCUA.js, Tab.js, Header.js, RealTimeData.js) are left out: presentation only.
- Sign-in `localStorage` persistence and the networked employee request are left out; the employee reply is an input.
