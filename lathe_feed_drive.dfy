/**
 * The lathe feed-drive panel: the shared tick with a 20-point history, no outlier guard, and
 * a first no-new-data record appended to the history untrimmed.
 */
module LatheFeedDrive {
  import opened Common
  import opened Telemetry

  const Fields: seq<string> := ["speed", "torque", "voltage", "current", "power", "temperature", "position"]

  const Cfg: Config := Config(20, false, false, Fields)

  /** Default travel limits of the two-axis animation, in mm. */
  const XMin: real := 50.0
  const XMax: real := 250.0
  const ZMin: real := 100.0
  const ZMax: real := 500.0

  method Mount() returns (p: Panel)
    ensures fresh(p) && p.cfg == Cfg && p.State() == Initial && p.Valid()
  {
    p := new Panel(Cfg);
  }

  /** Without a guard every non-empty new-data batch is accepted. */
  lemma EveryBatchAccepted(s: PanelState, batch: seq<Rec>, fallback: Option<Rec>)
    requires !s.unmounted && batch != []
    ensures var t := Step(Cfg, s, NewData(batch), fallback);
      && t.data == Some(batch[0]) && t.lastId == batch[0].id
      && t.history == SliceLast(s.history + NormalizeAll(Reversed(batch), Fields), 20)
      && |t.history| <= 20
  {
    AppendBatchBounded(Cfg, s.history, batch);
  }

  /**
   * The untrimmed no-new-data append can take the history past 20 points: a full history, an
   * empty new-data batch (which clears `data` before failing), then a no-new-data record.
   */
  lemma HistoryCanExceedCapacity(p: Point, held: Rec, cur: Rec)
    ensures var s0 := Initial.(data := Some(held), history := seq(20, _ => p));
      var s1 := Step(Cfg, s0, NewData([]), None);
      var s2 := Step(Cfg, s1, NoNewData(cur), None);
      |s2.history| == 21
  {
  }

  /** The X axis position as a percentage of its travel, clamped into [0, 100]. */
  function XClampedPosition(x: real): (r: real)
    ensures 0.0 <= r <= 100.0
    ensures XMin <= x <= XMax ==> r == (x - XMin) / (XMax - XMin) * 100.0
  {
    ClampedPercent(x, XMin, XMax)
  }

  /** The Z axis position as a percentage of its travel, clamped into [0, 100]. */
  function ZClampedPosition(z: real): (r: real)
    ensures 0.0 <= r <= 100.0
    ensures ZMin <= z <= ZMax ==> r == (z - ZMin) / (ZMax - ZMin) * 100.0
  {
    ClampedPercent(z, ZMin, ZMax)
  }
}
