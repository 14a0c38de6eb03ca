/** The RS485 power monitor: the shared tick with four fields and a 20-point history. */
module Rs485 {
  import opened Common
  import opened Telemetry

  const Fields: seq<string> := ["voltage", "current", "frequency", "energy"]

  const Cfg: Config := Config(20, false, false, Fields)

  method Mount() returns (p: Panel)
    ensures fresh(p) && p.cfg == Cfg && p.State() == Initial && p.Valid()
  {
    p := new Panel(Cfg);
  }

  /** Over any run of ticks from mount, the failure counter stays in [0, 2]. */
  lemma CounterBounded(ticks: seq<(Resp, Option<Rec>)>)
    ensures 0 <= Run(Cfg, Initial, ticks).attempts <= 2
  {
    InitialInvariant(Cfg);
    RunInvariant(Cfg, Initial, ticks);
  }

  /** A chart point carries voltage, current, frequency and energy, each 0 when not numeric. */
  lemma PointFields(r: Rec)
    ensures Normalize(r, Fields).values ==
      [FieldOrZero(r, "voltage"), FieldOrZero(r, "current"), FieldOrZero(r, "frequency"), FieldOrZero(r, "energy")]
    ensures Normalize(r, Fields).time == r.timestamp
  {
  }
}
