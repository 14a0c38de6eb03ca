/**
 * The polling reconciliation step shared by the dashboard's telemetry panels: one timer tick
 * takes the backend's answer to `?action=realtime&lastId=…` (and, when that fails with no
 * sample held, the answer to `?action=latest`) and updates the panel's latest sample, cursor,
 * chart history, connection status and failure counter.
 *
 * The panels differ only in the values of `Config`; their modules instantiate it.
 */
module Telemetry {
  import opened Common

  /**
   * One backend record. `values` maps a field name to its numeric value; a field that is
   * missing or does not parse as a number (so that `parseFloat` gives NaN) is absent.
   * `timestamp` is the record's time in milliseconds.
   */
  datatype Rec = Rec(id: int, timestamp: int, values: map<string, real>)

  /** A chart point: the record's time and its fields, in the panel's field order. */
  datatype Point = Point(time: int, values: seq<real>)

  /** The answer to one realtime poll, already parsed. */
  datatype Resp =
    | NewData(newestFirst: seq<Rec>)   // status "success", hasNewData, data an array (newest first)
    | NoNewData(current: Rec)          // status "success", no hasNewData, data the current record
    | SuccessWithoutData               // status "success" and neither of the two shapes above
    | Failure                          // status "error", a network error or unreadable JSON
    | Unrecognised                     // any other status: the tick does nothing

  datatype Status = Connecting | Connected | Reconnecting | Disconnected

  /**
   * What distinguishes one panel's copy of the tick from another's: the history capacity of
   * its `slice(-N)`, whether it runs the implied-velocity outlier guard (and so keeps the
   * last accepted record), whether a first no-new-data record replaces the history rather
   * than being appended to it, and the fields a chart point carries.
   */
  datatype Config = Config(capacity: nat, outlierGuard: bool, seedReplacesHistory: bool, fields: seq<string>)

  /**
   * The panel's React state and refs: `data`, `lastId`, `historicalData`,
   * `connectionStatus`, `initialLoading`, and the refs `fetchAttemptRef`, `unmountedRef`
   * and (outlier guard only) `lastDataRef`.
   */
  datatype PanelState = PanelState(
    data: Option<Rec>,
    lastId: int,
    history: seq<Point>,
    status: Status,
    attempts: nat,
    unmounted: bool,
    initialLoading: bool,
    lastAccepted: Option<Rec>)

  /** The state a panel mounts with. */
  const Initial: PanelState := PanelState(None, 0, [], Connecting, 0, false, true, None)

  /** Consecutive failures after which the status reads `disconnected`. */
  const RetryThreshold: nat := 2

  /** Fastest plausible axis velocity, in mm/s. */
  const MaxPlausibleVelocity: real := 500.0

  /** `parseFloat(r[f]) || 0`. */
  function FieldOrZero(r: Rec, f: string): real {
    if f in r.values then r.values[f] else 0.0
  }

  /** The chart point built from a record. */
  function Normalize(r: Rec, fields: seq<string>): Point {
    Point(r.timestamp, seq(|fields|, i requires 0 <= i < |fields| => FieldOrZero(r, fields[i])))
  }

  function NormalizeAll(rs: seq<Rec>, fields: seq<string>): (ps: seq<Point>)
    ensures |ps| == |rs|
    ensures forall i :: 0 <= i < |rs| ==> ps[i] == Normalize(rs[i], fields)
  {
    seq(|rs|, i requires 0 <= i < |rs| => Normalize(rs[i], fields))
  }

  /**
   * The implied velocity between the last accepted record and a candidate: 0 when the time
   * delta is not positive, `None` (NaN) when a position is not numeric.
   */
  function ImpliedVelocity(prev: Rec, cand: Rec): (r: Option<real>)
    ensures r.Some? ==> r.value >= 0.0
    ensures cand.timestamp <= prev.timestamp ==> r == Some(0.0)
    ensures r.None? <==> cand.timestamp > prev.timestamp && !("position" in prev.values && "position" in cand.values)
  {
    var dt := cand.timestamp - prev.timestamp;
    if dt <= 0 then Some(0.0)
    else if "position" in prev.values && "position" in cand.values then
      Some(Abs(cand.values["position"] - prev.values["position"]) / (dt as real / 1000.0))
    else None
  }

  /** The guard's rejection test: a NaN velocity never exceeds the bound. */
  predicate Implausible(prev: Rec, cand: Rec) {
    var v := ImpliedVelocity(prev, cand);
    v.Some? && v.value > MaxPlausibleVelocity
  }

  /** The chart history after appending a batch oldest-first and keeping the last `capacity`. */
  function AppendBatch(cfg: Config, history: seq<Point>, newestFirst: seq<Rec>): seq<Point>
    requires cfg.capacity > 0
  {
    SliceLast(history + NormalizeAll(Reversed(newestFirst), cfg.fields), cfg.capacity)
  }

  /** One step of the append loop: trimming after each point equals trimming once after all of them. */
  lemma AppendOneTrimmed(cfg: Config, h0: seq<Point>, points: seq<Rec>, j: nat)
    requires cfg.capacity > 0 && j < |points|
    ensures var h := if j == 0 then h0 else SliceLast(h0 + NormalizeAll(points[..j], cfg.fields), cfg.capacity);
      SliceLast(h + [Normalize(points[j], cfg.fields)], cfg.capacity)
      == SliceLast(h0 + NormalizeAll(points[..j + 1], cfg.fields), cfg.capacity)
  {
    var before := h0 + NormalizeAll(points[..j], cfg.fields);
    var p := Normalize(points[j], cfg.fields);
    assert NormalizeAll(points[..j + 1], cfg.fields) == NormalizeAll(points[..j], cfg.fields) + [p];
    assert before + [p] == h0 + NormalizeAll(points[..j + 1], cfg.fields);
    if j > 0 {
      SliceLastAppend(before, p, cfg.capacity);
    } else {
      assert before == h0;
    }
  }

  /** The bookkeeping of every successful poll. */
  function Succeed(s: PanelState): PanelState {
    s.(status := Connected, initialLoading := false, attempts := 0)
  }

  /** The bookkeeping of a failed poll: count it, or give up once the threshold is reached. */
  function CountFailure(s: PanelState): (r: PanelState)
    ensures r.status == Disconnected <==> s.attempts >= RetryThreshold
    ensures s.attempts <= RetryThreshold ==> r.attempts <= RetryThreshold
    ensures r.data == s.data && r.lastId == s.lastId && r.history == s.history && r.unmounted == s.unmounted
  {
    if s.attempts >= RetryThreshold then s.(status := Disconnected)
    else s.(attempts := s.attempts + 1, status := Reconnecting)
  }

  /** A successful fallback (`?action=latest`) seeds the panel from one record. */
  function Seed(cfg: Config, s: PanelState, r: Rec): PanelState {
    Succeed(s.(data := Some(r), lastId := r.id,
               lastAccepted := if cfg.outlierGuard then Some(r) else s.lastAccepted,
               history := [Normalize(r, cfg.fields)]))
  }

  /**
   * The catch block: count the failure and, when no sample was held when the tick started,
   * try the fallback.
   */
  function Fail(cfg: Config, s: PanelState, heldBefore: bool, fallback: Option<Rec>): PanelState {
    var t := CountFailure(s);
    if !heldBefore && fallback.Some? then Seed(cfg, t, fallback.value) else t
  }

  /** An accepted batch: the newest record becomes the sample and its id the cursor. */
  function Accept(cfg: Config, s: PanelState, newestFirst: seq<Rec>): PanelState
    requires cfg.capacity > 0 && newestFirst != []
  {
    var latest := newestFirst[0];
    Succeed(s.(data := Some(latest), lastId := latest.id,
               lastAccepted := if cfg.outlierGuard then Some(latest) else s.lastAccepted,
               history := AppendBatch(cfg, s.history, newestFirst)))
  }

  /** A no-new-data answer: seed from it when no sample is held; the cursor only moves up. */
  function NoNew(cfg: Config, s: PanelState, cur: Rec): PanelState {
    var seeded :=
      if s.data.Some? then s
      else if cfg.seedReplacesHistory then
        s.(data := Some(cur), history := [Normalize(cur, cfg.fields)],
           lastAccepted := if cfg.outlierGuard then Some(cur) else s.lastAccepted)
      else
        s.(data := Some(cur), history := s.history + [Normalize(cur, cfg.fields)],
           lastAccepted := if cfg.outlierGuard then Some(cur) else s.lastAccepted);
    Succeed(seeded.(lastId := if cur.id > s.lastId then cur.id else s.lastId))
  }

  /**
   * One tick, given the realtime answer and the answer the fallback would give. An empty
   * new-data batch makes `result.data[0]` undefined, so reading a field of it throws and the
   * tick takes the failure path; unless a guard record is held, `setData(undefined)` has
   * already run.
   */
  function Step(cfg: Config, s: PanelState, resp: Resp, fallback: Option<Rec>): (r: PanelState)
    requires cfg.capacity > 0
    ensures r.unmounted == s.unmounted
    ensures s.unmounted ==> r == s
    ensures r.attempts == 0 || r.attempts == s.attempts || r.attempts == s.attempts + 1
  {
    if s.unmounted then s
    else match resp
      case NewData(batch) =>
        if cfg.outlierGuard && s.lastAccepted.Some? then
          if batch == [] then Fail(cfg, s, s.data.Some?, fallback)
          else if Implausible(s.lastAccepted.value, batch[0]) then s
          else Accept(cfg, s, batch)
        else if batch == [] then Fail(cfg, s.(data := None), s.data.Some?, fallback)
        else Accept(cfg, s, batch)
      case NoNewData(cur) => NoNew(cfg, s, cur)
      case SuccessWithoutData => Succeed(s)
      case Failure => Fail(cfg, s, s.data.Some?, fallback)
      case Unrecognised => s
  }

  /** The state after a sequence of ticks, each with its realtime and fallback answers. */
  function Run(cfg: Config, s: PanelState, ticks: seq<(Resp, Option<Rec>)>): PanelState
    requires cfg.capacity > 0
    decreases |ticks|
  {
    if ticks == [] then s else Run(cfg, Step(cfg, s, ticks[0].0, ticks[0].1), ticks[1..])
  }

  /** The state the panel keeps between ticks, whatever its configuration. */
  predicate Invariant(cfg: Config, s: PanelState) {
    && s.attempts <= RetryThreshold
    && (!cfg.outlierGuard ==> s.lastAccepted == None)
    && (cfg.outlierGuard ==> (s.data.Some? <==> s.lastAccepted.Some?))
    && (cfg.seedReplacesHistory ==> |s.history| <= cfg.capacity)
  }

  // ---------------------------------------------------------------------------------------
  // Properties of one tick
  // ---------------------------------------------------------------------------------------

  /** The mount state satisfies the invariant. */
  lemma InitialInvariant(cfg: Config)
    ensures Invariant(cfg, Initial)
  {
  }

  /** Every tick keeps the invariant; in particular the failure counter stays in [0, 2]. */
  lemma StepInvariant(cfg: Config, s: PanelState, resp: Resp, fallback: Option<Rec>)
    requires cfg.capacity > 0 && Invariant(cfg, s)
    ensures Invariant(cfg, Step(cfg, s, resp, fallback))
    ensures Step(cfg, s, resp, fallback).attempts <= 2
  {
    if !s.unmounted {
      match resp
      case NewData(batch) =>
        if batch != [] {
          AppendBatchBounded(cfg, s.history, batch);
        }
      case _ =>
    }
  }

  /** After unmount no answer, late or not, changes anything. */
  lemma StepAfterUnmount(cfg: Config, s: PanelState, resp: Resp, fallback: Option<Rec>)
    requires cfg.capacity > 0 && s.unmounted
    ensures Step(cfg, s, resp, fallback) == s
  {
  }

  /** After unmount any number of ticks leave the state as it was. */
  lemma {:induction false} RunAfterUnmount(cfg: Config, s: PanelState, ticks: seq<(Resp, Option<Rec>)>)
    requires cfg.capacity > 0 && s.unmounted
    ensures Run(cfg, s, ticks) == s
    decreases |ticks|
  {
    if ticks != [] {
      RunAfterUnmount(cfg, Step(cfg, s, ticks[0].0, ticks[0].1), ticks[1..]);
    }
  }

  /** Ticks keep the invariant over any sequence of answers. */
  lemma {:induction false} RunInvariant(cfg: Config, s: PanelState, ticks: seq<(Resp, Option<Rec>)>)
    requires cfg.capacity > 0 && Invariant(cfg, s)
    ensures Invariant(cfg, Run(cfg, s, ticks))
    decreases |ticks|
  {
    if ticks != [] {
      StepInvariant(cfg, s, ticks[0].0, ticks[0].1);
      RunInvariant(cfg, Step(cfg, s, ticks[0].0, ticks[0].1), ticks[1..]);
    }
  }

  /** A guarded panel drops a whole implausible batch: nothing at all changes. */
  lemma OutlierDropped(cfg: Config, s: PanelState, batch: seq<Rec>, fallback: Option<Rec>)
    requires cfg.capacity > 0 && cfg.outlierGuard && !s.unmounted
    requires s.lastAccepted.Some? && batch != [] && Implausible(s.lastAccepted.value, batch[0])
    ensures Step(cfg, s, NewData(batch), fallback) == s
  {
  }

  /** A zero or negative time delta gives velocity 0, so the candidate is accepted. */
  lemma NonPositiveDeltaAccepted(prev: Rec, cand: Rec)
    requires cand.timestamp <= prev.timestamp
    ensures ImpliedVelocity(prev, cand) == Some(0.0)
    ensures !Implausible(prev, cand)
  {
  }

  /** The rejection test in multiplication form: |Δposition| · 1000 > 500 · Δt, with Δt > 0. */
  lemma ImplausibleIff(prev: Rec, cand: Rec)
    ensures Implausible(prev, cand) <==>
      (&& cand.timestamp > prev.timestamp
       && "position" in prev.values && "position" in cand.values
       && Abs(cand.values["position"] - prev.values["position"]) * 1000.0
          > MaxPlausibleVelocity * (cand.timestamp - prev.timestamp) as real)
  {
    var dt := cand.timestamp - prev.timestamp;
    if dt > 0 && "position" in prev.values && "position" in cand.values {
      var d := Abs(cand.values["position"] - prev.values["position"]);
      var secs := dt as real / 1000.0;
      assert secs > 0.0;
      var v := d / secs;
      assert v * secs == d;
      assert d * 1000.0 == v * (dt as real);
      if v > MaxPlausibleVelocity {
        assert v * (dt as real) > MaxPlausibleVelocity * (dt as real);
      } else {
        assert v * (dt as real) <= MaxPlausibleVelocity * (dt as real);
      }
    }
  }

  /** An accepted batch: sample, cursor, history, status and counter, exactly. */
  lemma AcceptedBatch(cfg: Config, s: PanelState, batch: seq<Rec>, fallback: Option<Rec>)
    requires cfg.capacity > 0 && !s.unmounted && batch != []
    requires cfg.outlierGuard && s.lastAccepted.Some? ==> !Implausible(s.lastAccepted.value, batch[0])
    ensures var t := Step(cfg, s, NewData(batch), fallback);
      && t.data == Some(batch[0])
      && t.lastId == batch[0].id
      && t.history == SliceLast(s.history + NormalizeAll(Reversed(batch), cfg.fields), cfg.capacity)
      && t.status == Connected && t.attempts == 0 && !t.initialLoading
  {
  }

  /** The cursor is overwritten by the newest id without comparison, so it can move down. */
  lemma AcceptedCursorCanDecrease()
    ensures var cfg := Config(20, false, false, []);
      var s := Initial.(lastId := 10);
      Step(cfg, s, NewData([Rec(5, 0, map[])]), None).lastId == 5
  {
  }

  /**
   * The appended history never exceeds the capacity, ends with the batch's newest record,
   * and is a suffix of the old history followed by the batch oldest-first.
   */
  lemma AppendBatchBounded(cfg: Config, history: seq<Point>, batch: seq<Rec>)
    requires cfg.capacity > 0
    ensures var h := AppendBatch(cfg, history, batch);
      var all := history + NormalizeAll(Reversed(batch), cfg.fields);
      && |h| <= cfg.capacity
      && h == all[|all| - |h|..]
      && (batch != [] ==> h[|h| - 1] == Normalize(batch[0], cfg.fields))
  {
    if batch != [] {
      var all := history + NormalizeAll(Reversed(batch), cfg.fields);
      assert Reversed(batch)[|batch| - 1] == batch[0];
      assert all[|all| - 1] == Normalize(batch[0], cfg.fields);
    }
  }

  /** A batch at least as long as the capacity pushes the whole old history out. */
  lemma {:induction false} LargeBatchReplacesHistory(cfg: Config, history: seq<Point>, batch: seq<Rec>)
    requires cfg.capacity > 0 && |batch| >= cfg.capacity
    ensures AppendBatch(cfg, history, batch) ==
      SliceLast(NormalizeAll(Reversed(batch), cfg.fields), cfg.capacity)
  {
    var incoming := NormalizeAll(Reversed(batch), cfg.fields);
    var all := history + incoming;
    var n := cfg.capacity;
    assert all[|all| - n..] == incoming[|incoming| - n..];
  }

  /** Timestamps that decrease along the batch, as delivered newest-first. */
  predicate NewestFirst(batch: seq<Rec>) {
    forall i, j :: 0 <= i < j < |batch| ==> batch[j].timestamp <= batch[i].timestamp
  }

  /** Chart points in chronological order. */
  predicate Chronological(ps: seq<Point>) {
    forall i, j :: 0 <= i < j < |ps| ==> ps[i].time <= ps[j].time
  }

  /**
   * A chronological history stays chronological when a newest-first batch no older than
   * its last point is appended: reversing the batch puts it in time order.
   */
  lemma AppendBatchChronological(cfg: Config, history: seq<Point>, batch: seq<Rec>)
    requires cfg.capacity > 0 && Chronological(history) && NewestFirst(batch)
    requires history != [] && batch != [] ==> history[|history| - 1].time <= batch[|batch| - 1].timestamp
    ensures Chronological(AppendBatch(cfg, history, batch))
  {
    var incoming := NormalizeAll(Reversed(batch), cfg.fields);
    ReversedChronological(cfg, batch);
    if history != [] && batch != [] {
      assert Reversed(batch)[0] == batch[|batch| - 1];
      assert incoming[0].time == batch[|batch| - 1].timestamp;
    }
    ConcatChronological(history, incoming);
    var all := history + incoming;
    SuffixChronological(all, |all| - |SliceLast(all, cfg.capacity)|);
  }

  lemma SuffixChronological(ps: seq<Point>, k: nat)
    requires Chronological(ps) && k <= |ps|
    ensures Chronological(ps[k..])
  {
    forall i, j | 0 <= i < j < |ps| - k
      ensures ps[k..][i].time <= ps[k..][j].time
    {
      assert ps[k..][i] == ps[k + i] && ps[k..][j] == ps[k + j];
    }
  }

  /** Reversing a newest-first batch gives chart points in time order. */
  lemma ReversedChronological(cfg: Config, batch: seq<Rec>)
    requires NewestFirst(batch)
    ensures Chronological(NormalizeAll(Reversed(batch), cfg.fields))
  {
    var incoming := NormalizeAll(Reversed(batch), cfg.fields);
    forall k | 0 <= k < |incoming|
      ensures incoming[k].time == batch[|batch| - 1 - k].timestamp
    {
      assert Reversed(batch)[k] == batch[|batch| - 1 - k];
    }
  }

  lemma ConcatChronological(a: seq<Point>, b: seq<Point>)
    requires Chronological(a) && Chronological(b)
    requires a != [] && b != [] ==> a[|a| - 1].time <= b[0].time
    ensures Chronological(a + b)
  {
    forall i, j | 0 <= i < j < |a + b|
      ensures (a + b)[i].time <= (a + b)[j].time
    {
      if i < |a| && j >= |a| {
        assert (a + b)[i].time <= a[|a| - 1].time;
        assert b[0].time <= (a + b)[j].time;
      }
    }
  }

  /** A no-new-data answer never moves the cursor down and keeps a held sample. */
  lemma NoNewDataCursorMonotone(cfg: Config, s: PanelState, cur: Rec, fallback: Option<Rec>)
    requires cfg.capacity > 0 && !s.unmounted
    ensures var t := Step(cfg, s, NoNewData(cur), fallback);
      && t.lastId >= s.lastId
      && t.lastId == (if cur.id > s.lastId then cur.id else s.lastId)
      && (s.data.Some? ==> t.data == s.data && t.history == s.history)
      && (s.data.None? ==> t.data == Some(cur))
      && t.status == Connected && t.attempts == 0
  {
  }

  /** With no sample held, the record replaces the history or is appended untrimmed. */
  lemma NoNewDataSeeds(cfg: Config, s: PanelState, cur: Rec, fallback: Option<Rec>)
    requires cfg.capacity > 0 && !s.unmounted && s.data.None?
    ensures Step(cfg, s, NoNewData(cur), fallback).history ==
      if cfg.seedReplacesHistory then [Normalize(cur, cfg.fields)]
      else s.history + [Normalize(cur, cfg.fields)]
  {
  }

  /**
   * A failure with a sample held, or without a working fallback: the first two consecutive
   * failures count up and read `reconnecting`; later ones read `disconnected`. Nothing else
   * changes.
   */
  lemma FailureCounts(cfg: Config, s: PanelState, fallback: Option<Rec>)
    requires cfg.capacity > 0 && !s.unmounted && (s.data.Some? || fallback.None?)
    ensures var t := Step(cfg, s, Failure, fallback);
      && (s.attempts < 2 ==> t.status == Reconnecting && t.attempts == s.attempts + 1)
      && (s.attempts >= 2 ==> t.status == Disconnected && t.attempts == s.attempts)
      && t.data == s.data && t.lastId == s.lastId && t.history == s.history
  {
  }

  /** Three consecutive failures from a connected panel: reconnecting, reconnecting, disconnected. */
  lemma ThreeFailures(cfg: Config, s: PanelState)
    requires cfg.capacity > 0 && !s.unmounted && s.data.Some? && s.attempts == 0
    ensures var s1 := Step(cfg, s, Failure, None);
      var s2 := Step(cfg, s1, Failure, None);
      var s3 := Step(cfg, s2, Failure, None);
      && s1.status == Reconnecting && s1.attempts == 1
      && s2.status == Reconnecting && s2.attempts == 2
      && s3.status == Disconnected && s3.attempts == 2
  {
    FailureCounts(cfg, s, None);
  }

  /** `n` failed polls in a row, none of them answered by a fallback. */
  function Failures(n: nat): (ticks: seq<(Resp, Option<Rec>)>)
    ensures |ticks| == n
    ensures forall i :: 0 <= i < n ==> ticks[i] == (Failure, None)
  {
    seq(n, _ => (Failure, None))
  }

  /**
   * After `n` consecutive failures with a sample held, the counter is `min(attempts + n, 2)`;
   * the status reads `reconnecting` while the counter could still grow and `disconnected`
   * from the third failure on. Sample, cursor and history are untouched.
   */
  lemma {:induction false} FailureRun(cfg: Config, s: PanelState, n: nat)
    requires cfg.capacity > 0 && !s.unmounted && s.data.Some? && s.attempts <= 2
    ensures var t := Run(cfg, s, Failures(n));
      && t.attempts == (if s.attempts + n <= 2 then s.attempts + n else 2)
      && (n > 0 ==> t.status == if s.attempts + n <= 2 then Reconnecting else Disconnected)
      && (n == 0 ==> t.status == s.status)
      && t.data == s.data && t.lastId == s.lastId && t.history == s.history
    decreases n
  {
    if n > 0 {
      var s1 := Step(cfg, s, Failure, None);
      FailureCounts(cfg, s, None);
      assert Failures(n)[1..] == Failures(n - 1);
      FailureRun(cfg, s1, n - 1);
    }
  }

  /** Any successful poll reads `connected` and resets the counter. */
  lemma SuccessResets(cfg: Config, s: PanelState, resp: Resp, fallback: Option<Rec>)
    requires cfg.capacity > 0 && !s.unmounted
    requires resp.NoNewData? || resp.SuccessWithoutData? ||
      (resp.NewData? && resp.newestFirst != [] &&
       !(cfg.outlierGuard && s.lastAccepted.Some? && Implausible(s.lastAccepted.value, resp.newestFirst[0])))
    ensures Step(cfg, s, resp, fallback).status == Connected
    ensures Step(cfg, s, resp, fallback).attempts == 0
  {
  }

  /**
   * The fallback is consulted only on failure with no sample held; when it answers, the
   * panel holds that record, its id is the cursor, the history is that one point, and the
   * panel reads `connected` with the counter reset.
   */
  lemma FallbackSeeds(cfg: Config, s: PanelState, resp: Resp, fb: Rec)
    requires cfg.capacity > 0 && !s.unmounted && s.data.None?
    requires resp.Failure? || (resp.NewData? && resp.newestFirst == [])
    ensures var t := Step(cfg, s, resp, Some(fb));
      && t.data == Some(fb) && t.lastId == fb.id
      && t.history == [Normalize(fb, cfg.fields)]
      && t.status == Connected && t.attempts == 0
  {
  }

  /** With a sample held the fallback answer is never used. */
  lemma FallbackIgnoredWhenHeld(cfg: Config, s: PanelState, resp: Resp, fb: Option<Rec>)
    requires cfg.capacity > 0 && s.data.Some?
    requires !(cfg.outlierGuard && s.lastAccepted.None?)
    ensures Step(cfg, s, resp, fb) == Step(cfg, s, resp, None)
  {
  }

  /** `getSampleData`: the real history whenever there is one, otherwise the demo series. */
  function ChartData(history: seq<Point>, demo: seq<Point>): (r: seq<Point>)
    ensures |history| > 0 ==> r == history
    ensures |history| == 0 ==> r == demo
  {
    if |history| > 0 then history else demo
  }

  // ---------------------------------------------------------------------------------------
  // The panel object
  // ---------------------------------------------------------------------------------------

  /** A mounted panel: its state lives in fields that each tick updates in place. */
  class Panel {
    const cfg: Config
    var data: Option<Rec>
    var lastId: int
    var history: seq<Point>
    var status: Status
    var attempts: nat
    var unmounted: bool
    var initialLoading: bool
    var lastAccepted: Option<Rec>

    function State(): PanelState
      reads this
    {
      PanelState(data, lastId, history, status, attempts, unmounted, initialLoading, lastAccepted)
    }

    ghost predicate Valid()
      reads this
    {
      cfg.capacity > 0 && Invariant(cfg, State())
    }

    constructor (cfg: Config)
      requires cfg.capacity > 0
      ensures this.cfg == cfg && State() == Initial && Valid()
    {
      this.cfg := cfg;
      data, lastId, history := None, 0, [];
      status, attempts := Connecting, 0;
      unmounted, initialLoading, lastAccepted := false, true, None;
    }

    /** The unmount cleanup: later answers are ignored. */
    method Unmount()
      requires Valid()
      modifies this
      ensures Valid() && State() == old(State()).(unmounted := true)
    {
      unmounted := true;
    }

    /** One tick of `fetchData`, given the realtime answer and the fallback's answer. */
    method Tick(resp: Resp, fallback: Option<Rec>)
      requires Valid()
      modifies this
      ensures Valid()
      ensures State() == Step(cfg, old(State()), resp, fallback)
    {
      StepInvariant(cfg, State(), resp, fallback);
      if unmounted {
        return;
      }
      match resp {
        case NewData(batch) => Arrived(batch, fallback);
        case NoNewData(cur) => Reconcile(cur);
        case SuccessWithoutData => Succeeded();
        case Failure => Failed(data.Some?, fallback);
        case Unrecognised =>
      }
    }

    /** The `hasNewData` branch, with the outlier guard when the panel has one. */
    method Arrived(batch: seq<Rec>, fallback: Option<Rec>)
      requires cfg.capacity > 0 && !unmounted
      modifies this
      ensures State() == Step(cfg, old(State()), NewData(batch), fallback)
    {
      var heldBefore := data.Some?;
      if cfg.outlierGuard && lastAccepted.Some? {
        if batch == [] {
          Failed(heldBefore, fallback);
          return;
        }
        if Implausible(lastAccepted.value, batch[0]) {
          return;
        }
      } else if batch == [] {
        data := None;
        Failed(heldBefore, fallback);
        return;
      }
      var latest := batch[0];
      data := Some(latest);
      lastId := latest.id;
      if cfg.outlierGuard {
        lastAccepted := Some(latest);
      }
      AppendPoints(batch);
      Succeeded();
    }

    /** The no-new-data branch: seed from the current record when no sample is held. */
    method Reconcile(cur: Rec)
      requires cfg.capacity > 0 && !unmounted
      modifies this
      ensures State() == NoNew(cfg, old(State()), cur)
    {
      var cursor := lastId;
      if data.None? {
        data := Some(cur);
        if cfg.outlierGuard {
          lastAccepted := Some(cur);
        }
        if cfg.seedReplacesHistory {
          history := [Normalize(cur, cfg.fields)];
        } else {
          history := history + [Normalize(cur, cfg.fields)];
        }
      }
      if cur.id > cursor {
        lastId := cur.id;
      }
      Succeeded();
    }

    /** `setConnectionStatus("connected")`, `setInitialLoading(false)`, counter reset. */
    method Succeeded()
      modifies this
      ensures State() == Succeed(old(State()))
    {
      status := Connected;
      initialLoading := false;
      attempts := 0;
    }

    /** The catch block with its fallback request. */
    method Failed(heldBefore: bool, fallback: Option<Rec>)
      modifies this
      ensures State() == Fail(cfg, old(State()), heldBefore, fallback)
    {
      if attempts >= RetryThreshold {
        status := Disconnected;
      } else {
        attempts := attempts + 1;
        status := Reconnecting;
      }
      if !heldBefore && fallback.Some? {
        var r := fallback.value;
        data := Some(r);
        lastId := r.id;
        if cfg.outlierGuard {
          lastAccepted := Some(r);
        }
        history := [Normalize(r, cfg.fields)];
        Succeeded();
      }
    }

    /**
     * `result.data.reverse().forEach(…)`: each point is appended and the history trimmed
     * to its last `capacity` points, one point at a time.
     */
    method AppendPoints(newestFirst: seq<Rec>)
      requires cfg.capacity > 0 && newestFirst != []
      modifies this`history
      ensures history == AppendBatch(cfg, old(history), newestFirst)
    {
      var points := Reversed(newestFirst);
      for j := 0 to |points|
        invariant j == 0 ==> history == old(history)
        invariant j > 0 ==> history == SliceLast(old(history) + NormalizeAll(points[..j], cfg.fields), cfg.capacity)
      {
        AppendOneTrimmed(cfg, old(history), points, j);
        history := SliceLast(history + [Normalize(points[j], cfg.fields)], cfg.capacity);
      }
      assert points[..|points|] == points;
    }
  }
}
