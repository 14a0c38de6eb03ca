/** The milling-machine spindle panel: the shared tick with six fields and a 20-point history. */
module Spindle {
  import opened Common
  import opened Telemetry

  const Fields: seq<string> := ["speed", "torque", "voltage", "current", "power", "temperature"]

  const Cfg: Config := Config(20, false, false, Fields)

  method Mount() returns (p: Panel)
    ensures fresh(p) && p.cfg == Cfg && p.State() == Initial && p.Valid()
  {
    p := new Panel(Cfg);
  }

  /** Once unmounted, the panel ignores every later answer, over any run of ticks. */
  lemma SilentAfterUnmount(s: PanelState, ticks: seq<(Resp, Option<Rec>)>)
    requires s.unmounted
    ensures Run(Cfg, s, ticks) == s
  {
    RunAfterUnmount(Cfg, s, ticks);
  }

  /** From the third consecutive failure on, the panel reads `disconnected`. */
  lemma DisconnectedFromThirdFailure(s: PanelState, n: nat)
    requires !s.unmounted && s.data.Some? && s.attempts == 0 && n >= 3
    ensures Run(Cfg, s, Failures(n)).status == Disconnected
    ensures Run(Cfg, s, Failures(n)).attempts == 2
  {
    FailureRun(Cfg, s, n);
  }
}
