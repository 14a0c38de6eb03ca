/**
 * The milling-machine feed-drive page: a three-axis simulator that moves every reading by a
 * random step every two seconds, a 20-entry history, and the axis animation.
 */
module MillingFeedDrive {
  import opened Common

  datatype Axis = X | Y | Z

  datatype Reading = Reading(speed: real, torque: real, voltage: real, current: real,
                             power: real, temperature: real, position: real)

  datatype Axes = Axes(x: Reading, y: Reading, z: Reading)

  /** The simulator constants of one axis: step sizes, temperature floor, travel cap. */
  datatype Steps = Steps(speed: real, torque: real, voltage: real, current: real, power: real,
                         temperature: real, minTemperature: real, position: real, maxPosition: real)

  function StepsOf(a: Axis): Steps {
    match a
    case X => Steps(200.0, 2.0, 10.0, 1.0, 0.8, 3.0, 20.0, 5.0, 500.0)
    case Y => Steps(180.0, 2.2, 12.0, 1.1, 0.9, 2.8, 25.0, 4.0, 400.0)
    case Z => Steps(150.0, 2.5, 8.0, 0.9, 0.7, 2.5, 22.0, 3.0, 300.0)
  }

  /** The display limits the page passes to each axis animation. */
  function DisplayMax(a: Axis): real {
    if a == X then 500.0 else if a == Y then 400.0 else 300.0
  }

  const InitialAxes: Axes := Axes(
    Reading(2850.0, 15.2, 380.0, 8.5, 5.8, 65.0, 125.5),
    Reading(3200.0, 18.7, 375.0, 9.2, 6.2, 72.0, 85.2),
    Reading(1800.0, 22.1, 385.0, 7.8, 4.9, 58.0, 42.8))

  /** A random step: `(draw - 0.5) * size`, `draw` standing for `Math.random()`. */
  function Jitter(draw: real, size: real): real {
    (draw - 0.5) * size
  }

  /** Readings the simulator can produce: non-negative, warm enough, inside the travel. */
  predicate Plausible(a: Axis, r: Reading) {
    && 0.0 <= r.speed && 0.0 <= r.torque && 0.0 <= r.voltage && 0.0 <= r.current && 0.0 <= r.power
    && StepsOf(a).minTemperature <= r.temperature
    && 0.0 <= r.position <= StepsOf(a).maxPosition
  }

  /** One axis's next reading from seven draws, in field order. */
  function NextReading(a: Axis, prev: Reading, draws: seq<real>): (r: Reading)
    requires |draws| == 7
    ensures Plausible(a, r)
    ensures var s := StepsOf(a); var v := prev.speed + Jitter(draws[0], s.speed); 0.0 <= v ==> r.speed == v
    ensures var s := StepsOf(a); var v := prev.torque + Jitter(draws[1], s.torque); 0.0 <= v ==> r.torque == v
    ensures var s := StepsOf(a); var v := prev.voltage + Jitter(draws[2], s.voltage); 0.0 <= v ==> r.voltage == v
    ensures var s := StepsOf(a); var v := prev.current + Jitter(draws[3], s.current); 0.0 <= v ==> r.current == v
    ensures var s := StepsOf(a); var v := prev.power + Jitter(draws[4], s.power); 0.0 <= v ==> r.power == v
    ensures var s := StepsOf(a); var p := prev.position + Jitter(draws[6], s.position);
      0.0 <= p <= s.maxPosition ==> r.position == p
    ensures var s := StepsOf(a); var t := prev.temperature + Jitter(draws[5], s.temperature);
      s.minTemperature <= t ==> r.temperature == t
  {
    var s := StepsOf(a);
    Reading(
      Max(0.0, prev.speed + Jitter(draws[0], s.speed)),
      Max(0.0, prev.torque + Jitter(draws[1], s.torque)),
      Max(0.0, prev.voltage + Jitter(draws[2], s.voltage)),
      Max(0.0, prev.current + Jitter(draws[3], s.current)),
      Max(0.0, prev.power + Jitter(draws[4], s.power)),
      Max(s.minTemperature, prev.temperature + Jitter(draws[5], s.temperature)),
      Max(0.0, Min(s.maxPosition, prev.position + Jitter(draws[6], s.position))))
  }

  /** A history entry: speed, torque and power of the three axes. */
  datatype Entry = Entry(xSpeed: real, ySpeed: real, zSpeed: real,
                         xTorque: real, yTorque: real, zTorque: real,
                         xPower: real, yPower: real, zPower: real)

  function EntryOf(axes: Axes): Entry {
    Entry(axes.x.speed, axes.y.speed, axes.z.speed,
          axes.x.torque, axes.y.torque, axes.z.torque,
          axes.x.power, axes.y.power, axes.z.power)
  }

  const HistoryLength: nat := 20

  class Simulator {
    var axes: Axes
    var history: seq<Entry>

    /**
     * The readings are ones the simulator can produce, and the history holds at most 20
     * entries, each built from the readings at mount: the interval is created once, with the
     * mount-time `axesData` in its closure.
     */
    ghost predicate Valid()
      reads this
    {
      && Plausible(X, axes.x) && Plausible(Y, axes.y) && Plausible(Z, axes.z)
      && |history| <= HistoryLength
      && forall i :: 0 <= i < |history| ==> history[i] == EntryOf(InitialAxes)
    }

    constructor()
      ensures Valid() && axes == InitialAxes && history == []
    {
      axes := InitialAxes;
      history := [];
    }

    /**
     * One interval tick. `draws` are the 21 `Math.random()` results in the order the object
     * literal evaluates them: X's seven fields, then Y's, then Z's.
     */
    method Tick(draws: seq<real>)
      requires Valid() && |draws| == 21
      modifies this
      ensures Valid()
      ensures axes == Axes(NextReading(X, old(axes).x, draws[0..7]),
                           NextReading(Y, old(axes).y, draws[7..14]),
                           NextReading(Z, old(axes).z, draws[14..21]))
      ensures history == SliceLast(old(history), HistoryLength - 1) + [EntryOf(InitialAxes)]
    {
      axes := Axes(NextReading(X, axes.x, draws[0..7]),
                   NextReading(Y, axes.y, draws[7..14]),
                   NextReading(Z, axes.z, draws[14..21]));
      history := SliceLast(history, HistoryLength - 1) + [EntryOf(InitialAxes)];
    }
  }

  /** The simulator starts from readings it could produce. */
  lemma InitialPlausible()
    ensures Plausible(X, InitialAxes.x) && Plausible(Y, InitialAxes.y) && Plausible(Z, InitialAxes.z)
  {
  }

  /** `clampedPosition` of an axis animation, with the page's limits for that axis. */
  function ClampedPosition(a: Axis, position: real): (r: real)
    ensures 0.0 <= r <= 100.0
  {
    ClampedPercent(position, 0.0, DisplayMax(a))
  }

  /**
   * The display limits equal the simulator's travel caps, so for every simulated reading the
   * clamp leaves the normalised position as it is.
   */
  lemma ClampInactive(a: Axis, r: Reading)
    requires Plausible(a, r)
    ensures DisplayMax(a) == StepsOf(a).maxPosition
    ensures ClampedPosition(a, r.position) == r.position / DisplayMax(a) * 100.0
  {
  }

  class AxisAnimation {
    var phase: int

    ghost predicate Valid()
      reads this
    {
      0 <= phase < 100
    }

    constructor()
      ensures Valid() && phase == 0
    {
      phase := 0;
    }

    /** One 100 ms tick: the phase advances modulo 100, only while the axis moves. */
    method Tick(speed: real)
      requires Valid()
      modifies this
      ensures Valid()
      ensures phase == if speed > 0.0 then (old(phase) + 1) % 100 else old(phase)
    {
      if speed > 0.0 {
        phase := (phase + 1) % 100;
      }
    }
  }
}
