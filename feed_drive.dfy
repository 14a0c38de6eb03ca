/**
 * The OPC-UA feed-drive panel: the shared tick with a 50-point history, the implied-velocity
 * outlier guard, and a first no-new-data record that replaces the history.
 */
module FeedDrive {
  import opened Common
  import opened Telemetry

  const Fields: seq<string> := ["speed", "torque", "voltage", "current", "power", "temperature", "position"]

  const Cfg: Config := Config(50, true, true, Fields)

  /** Travel range of the feed-drive animation, in mm. */
  const TravelMin: real := 0.0
  const TravelMax: real := 700.0

  /** The panel as it mounts. */
  method Mount() returns (p: Panel)
    ensures fresh(p) && p.cfg == Cfg && p.State() == Initial && p.Valid()
  {
    p := new Panel(Cfg);
  }

  /** This panel's history never holds more than 50 points, over any run of ticks. */
  lemma HistoryBounded(ticks: seq<(Resp, Option<Rec>)>)
    ensures |Run(Cfg, Initial, ticks).history| <= 50
    ensures Run(Cfg, Initial, ticks).attempts <= 2
  {
    InitialInvariant(Cfg);
    RunInvariant(Cfg, Initial, ticks);
  }

  /**
   * The guard on the two sample inputs: a 1000 mm jump in 100 ms (10000 mm/s) is rejected
   * and leaves the panel as it was; a 10 mm move in one second (10 mm/s) is accepted.
   */
  lemma GuardExamples(s: PanelState)
    requires !s.unmounted && s.lastAccepted == Some(Rec(1, 0, map["position" := 0.0]))
    ensures var jump := Rec(2, 100, map["position" := 1000.0]);
      Step(Cfg, s, NewData([jump]), None) == s
    ensures var move := Rec(2, 1000, map["position" := 10.0]);
      Step(Cfg, s, NewData([move]), None).data == Some(move)
  {
    var prev := Rec(1, 0, map["position" := 0.0]);
    ImplausibleIff(prev, Rec(2, 100, map["position" := 1000.0]));
    ImplausibleIff(prev, Rec(2, 1000, map["position" := 10.0]));
  }

  /** `clampedPosition` of the feed-drive animation: always a percentage of travel. */
  function ClampedPosition(position: real): (r: real)
    ensures 0.0 <= r <= 100.0
    ensures TravelMin <= position <= TravelMax ==> r == position / TravelMax * 100.0
  {
    ClampedPercent(position, TravelMin, TravelMax)
  }
}
