/**
 * The Modbus temperature panel: three RTD sensors whose readings a simulator moves by a
 * random variance every few seconds, each with a 20-reading history and colour bands.
 */
module Modbus {
  import opened Common

  /** The three RTD sensors, keys `rtd1`, `rtd2`, `rtd3` in that order. */
  datatype Sensor = Rtd1 | Rtd2 | Rtd3

  const Sensors: seq<Sensor> := [Rtd1, Rtd2, Rtd3]
  const HistoryLength: nat := 20
  const Lowest: real := 10.0
  const Highest: real := 95.0

  datatype Reading = Reading(time: int, temperature: real)

  /**
   * `generateRandomTemperature`: the current value moved by `(draw - 0.5) * 10`, clamped into
   * [10, 95] and rounded to one decimal. `draw` stands for the `Math.random()` result.
   */
  function GenerateTemperature(current: real, draw: real): (r: real)
    ensures Lowest <= r <= Highest
  {
    var t := Moved(current, draw);
    RoundWithin(t * 10.0, 100, 950);
    Round(t * 10.0) as real / 10.0
  }

  /** The clamped, unrounded new temperature. */
  function Moved(current: real, draw: real): (t: real)
    ensures Lowest <= t <= Highest
    ensures Lowest <= current + (draw - 0.5) * 10.0 <= Highest ==> t == current + (draw - 0.5) * 10.0
    ensures t == Lowest <==> current + (draw - 0.5) * 10.0 <= Lowest
    ensures t == Highest <==> Highest <= current + (draw - 0.5) * 10.0
  {
    var variance := (draw - 0.5) * 10.0;
    Max(Lowest, Min(Highest, current + variance))
  }

  /** The generated temperature has one decimal and is the clamped value rounded to it. */
  lemma GeneratedIsRounded(current: real, draw: real)
    ensures var r := GenerateTemperature(current, draw);
      (r * 10.0).Floor as real == r * 10.0
      && Moved(current, draw) - 0.05 < r <= Moved(current, draw) + 0.05
  {
    var t := Moved(current, draw);
    var k := Round(t * 10.0);
    assert (k as real / 10.0) * 10.0 == k as real;
  }

  datatype Band = Cool | Optimal | Warm | Hot | Critical

  /** `getTemperatureStatus`: bands below 20, 40, 60 and 80, critical from 80 up. */
  function Status(t: real): (r: Band)
    ensures r == Cool <==> t < 20.0
    ensures r == Optimal <==> 20.0 <= t < 40.0
    ensures r == Warm <==> 40.0 <= t < 60.0
    ensures r == Hot <==> 60.0 <= t < 80.0
    ensures r == Critical <==> 80.0 <= t
  {
    if t < 20.0 then Cool
    else if t < 40.0 then Optimal
    else if t < 60.0 then Warm
    else if t < 80.0 then Hot
    else Critical
  }

  datatype Hue = Blue | Green | Yellow | Orange | Red

  /** `getTemperatureColor`: the thermometer fill's colour family. */
  function TemperatureColor(t: real): (r: Hue)
    ensures r == HueOf(Status(t))
  {
    if t < 20.0 then Blue
    else if t < 40.0 then Green
    else if t < 60.0 then Yellow
    else if t < 80.0 then Orange
    else Red
  }

  /** `getLineColor`: the graph line's colour. */
  function LineColor(t: real): (r: string)
    ensures r == LineColorOf(Status(t))
  {
    if t < 20.0 then "#3b82f6"
    else if t < 40.0 then "#22c55e"
    else if t < 60.0 then "#eab308"
    else if t < 80.0 then "#f97316"
    else "#ef4444"
  }

  function HueOf(b: Band): Hue {
    match b
    case Cool => Blue
    case Optimal => Green
    case Warm => Yellow
    case Hot => Orange
    case Critical => Red
  }

  function LineColorOf(b: Band): string {
    match b
    case Cool => "#3b82f6"
    case Optimal => "#22c55e"
    case Warm => "#eab308"
    case Hot => "#f97316"
    case Critical => "#ef4444"
  }

  /** The thermometer fill height in percent of the 0..100 scale, never under 8. */
  function FillHeight(value: real): (r: real)
    ensures r >= 8.0 && r >= value
    ensures value >= 8.0 ==> r == value
    ensures value < 8.0 ==> r == 8.0
  {
    var percentage := (value - 0.0) / (100.0 - 0.0) * 100.0;
    Max(percentage, 8.0)
  }

  /** `[...h, x].slice(-20)`. */
  function Push(h: seq<Reading>, x: Reading): seq<Reading> {
    SliceLast(h + [x], HistoryLength)
  }

  /** The new reading is last; the older ones are kept until there are 20, then drop out oldest first. */
  lemma PushShape(h: seq<Reading>, x: Reading)
    ensures var r := Push(h, x); 0 < |r| <= HistoryLength && r[|r| - 1] == x
    ensures |h| < HistoryLength ==> Push(h, x) == h + [x]
    ensures |h| >= HistoryLength ==> Push(h, x) == h[|h| - HistoryLength + 1..] + [x]
  {
    var all := h + [x];
    if |h| >= HistoryLength {
      assert all[|all| - HistoryLength..] == h[|h| - HistoryLength + 1..] + [x];
    }
  }

  predicate InRange(t: real) {
    Lowest <= t <= Highest
  }

  class Panel {
    var temperatures: map<Sensor, real>
    var history: map<Sensor, seq<Reading>>

    /**
     * Both maps hold the three sensors; every temperature is in [10, 95], and each history
     * holds at most 20 readings, all in [10, 95].
     */
    ghost predicate Valid()
      reads this
    {
      && Rtd1 in temperatures && Rtd2 in temperatures && Rtd3 in temperatures
      && temperatures.Keys == history.Keys
      && (forall s :: s in temperatures ==> InRange(temperatures[s]))
      && (forall s :: s in history ==> HistoryOk(history[s]))
    }

    static predicate HistoryOk(h: seq<Reading>) {
      && |h| <= HistoryLength
      && (forall i :: 0 <= i < |h| ==> InRange(h[i].temperature))
    }

    constructor()
      ensures Valid()
      ensures temperatures == map[Rtd1 := 25.0, Rtd2 := 30.0, Rtd3 := 35.0]
      ensures history == map[Rtd1 := [], Rtd2 := [], Rtd3 := []]
    {
      temperatures := map[Rtd1 := 25.0, Rtd2 := 30.0, Rtd3 := 35.0];
      history := map[Rtd1 := [], Rtd2 := [], Rtd3 := []];
    }

    /** The mount effect: every sensor's history becomes its current temperature alone. */
    method InitHistory(now: int)
      requires Valid()
      modifies this
      ensures Valid()
      ensures temperatures == old(temperatures)
      ensures history.Keys == old(temperatures).Keys
      ensures forall s :: s in history ==> history[s] == [Reading(now, temperatures[s])]
    {
      var initial: map<Sensor, seq<Reading>> := map[];
      var keys := temperatures.Keys;
      while keys != {}
        invariant keys <= temperatures.Keys
        invariant initial.Keys == temperatures.Keys - keys
        invariant forall s :: s in initial ==> initial[s] == [Reading(now, temperatures[s])]
        decreases keys
      {
        var s :| s in keys;
        initial := initial[s := [Reading(now, temperatures[s])]];
        keys := keys - {s};
      }
      history := initial;
    }

    /** Appending an in-range reading and trimming keeps a history well formed. */
    static lemma AppendedOk(h: seq<Reading>, t: real, now: int)
      requires HistoryOk(h) && InRange(t)
      ensures HistoryOk(Push(h, Reading(now, t)))
    {
      var all := h + [Reading(now, t)];
      var r := SliceLast(all, HistoryLength);
      forall i | 0 <= i < |r| ensures InRange(r[i].temperature) {
        var k := |all| - |r| + i;
        assert r[i] == all[k];
        if k < |h| {
          assert all[k] == h[k];
        }
      }
    }

    /**
     * One simulator tick: each sensor gets a new temperature from its own draw, and each
     * history gets that temperature appended and is trimmed to its last 20 readings.
     */
    method UpdateTemperatures(draws: seq<real>, now: int)
      requires Valid() && |draws| == |Sensors|
      modifies this
      ensures Valid()
      ensures temperatures == NextTemperatures(old(temperatures), draws)
      ensures history.Keys == old(history).Keys
      ensures forall s :: s in history ==> history[s] == Push(old(history)[s], Reading(now, temperatures[s]))
    {
      var newTemps := NextTemperatures(temperatures, draws);
      var newHistory := AppendReadings(history, newTemps, now);
      forall s | s in newHistory
        ensures HistoryOk(newHistory[s])
      {
        AppendedOk(history[s], newTemps[s], now);
      }
      history := newHistory;
      temperatures := newTemps;
    }
  }

  /** The new temperature of every sensor, each from its own draw. */
  function NextTemperatures(temps: map<Sensor, real>, draws: seq<real>): (r: map<Sensor, real>)
    requires Rtd1 in temps && Rtd2 in temps && Rtd3 in temps && |draws| == |Sensors|
    ensures r.Keys == temps.Keys
    ensures forall k :: 0 <= k < |Sensors| ==> r[Sensors[k]] == GenerateTemperature(temps[Sensors[k]], draws[k])
    ensures forall s :: s in r ==> InRange(r[s])
  {
    var r := map[
      Rtd1 := GenerateTemperature(temps[Rtd1], draws[0]),
      Rtd2 := GenerateTemperature(temps[Rtd2], draws[1]),
      Rtd3 := GenerateTemperature(temps[Rtd3], draws[2])];
    assert forall s :: s in temps ==> s == Sensors[0] || s == Sensors[1] || s == Sensors[2];
    r
  }

  /**
   * The `forEach` over the sensors: every history gets its sensor's new reading appended and
   * is trimmed to 20.
   */
  method AppendReadings(history: map<Sensor, seq<Reading>>, temps: map<Sensor, real>, now: int)
    returns (updated: map<Sensor, seq<Reading>>)
    requires history.Keys == temps.Keys
    requires forall k :: 0 <= k < |Sensors| ==> Sensors[k] in history
    ensures updated.Keys == history.Keys
    ensures forall s :: s in updated ==> updated[s] == Push(history[s], Reading(now, temps[s]))
  {
    updated := history;
    for k := 0 to |Sensors|
      invariant AppendedUpTo(updated, history, temps, now, k)
    {
      var sensor := Sensors[k];
      AppendedStep(updated, history, temps, now, k);
      updated := updated[sensor := Appended(history, temps, now, sensor)];
    }
    AppendedAll(updated, history, temps, now);
  }

  /** The loop's progress: the first `k` sensors have their reading appended, the others not yet. */
  ghost predicate AppendedUpTo(updated: map<Sensor, seq<Reading>>, history: map<Sensor, seq<Reading>>,
                               temps: map<Sensor, real>, now: int, k: nat)
  {
    && updated.Keys == history.Keys && history.Keys == temps.Keys
    && (forall j :: 0 <= j < |Sensors| ==> Sensors[j] in history)
    && (forall j :: 0 <= j < k && j < |Sensors| ==> updated[Sensors[j]] == Appended(history, temps, now, Sensors[j]))
    && (forall j :: k <= j < |Sensors| ==> updated[Sensors[j]] == history[Sensors[j]])
  }

  lemma AppendedStep(updated: map<Sensor, seq<Reading>>, history: map<Sensor, seq<Reading>>,
                     temps: map<Sensor, real>, now: int, k: nat)
    requires k < |Sensors| && AppendedUpTo(updated, history, temps, now, k)
    ensures AppendedUpTo(updated[Sensors[k] := Appended(history, temps, now, Sensors[k])], history, temps, now, k + 1)
  {
  }

  lemma AppendedAll(updated: map<Sensor, seq<Reading>>, history: map<Sensor, seq<Reading>>,
                    temps: map<Sensor, real>, now: int)
    requires AppendedUpTo(updated, history, temps, now, |Sensors|)
    ensures updated.Keys == history.Keys
    ensures forall s :: s in updated ==> updated[s] == Push(history[s], Reading(now, temps[s]))
  {
    forall s | s in updated
      ensures updated[s] == Push(history[s], Reading(now, temps[s]))
    {
      var j := SensorIndex(s);
      assert updated[Sensors[j]] == Appended(history, temps, now, Sensors[j]);
    }
  }

  /** A sensor's history with its new reading appended and trimmed. */
  function Appended(history: map<Sensor, seq<Reading>>, temps: map<Sensor, real>, now: int, s: Sensor): seq<Reading>
    requires s in history && s in temps
  {
    Push(history[s], Reading(now, temps[s]))
  }

  /** Where a sensor sits in `Sensors`. */
  function SensorIndex(s: Sensor): (j: nat)
    ensures j < |Sensors| && Sensors[j] == s
  {
    match s
    case Rtd1 => 0
    case Rtd2 => 1
    case Rtd3 => 2
  }
}
