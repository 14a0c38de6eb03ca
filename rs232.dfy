/**
 * The RS232 monitor: an initial load of the latest records, a realtime poll that appends
 * records past a cursor into a 100-point buffer, a connect/disconnect toggle, and the
 * Y-axis domain of the voltage chart.
 */
module Rs232 {
  import opened Common

  /** A record as the backend sends it; `data` is the voltage, `None` where it is not a number. */
  datatype Item = Item(id: int, data: Option<real>, timestamp: int)

  /** A reply of either endpoint: the `success` flag and the records. */
  datatype Reply = Reply(success: bool, items: seq<Item>)

  /** A chart point; `time` is the point's position in the buffer. */
  datatype Point = Point(id: int, time: int, voltage: Option<real>, timestamp: int)

  datatype Stats = Stats(voltage: Option<real>, signalStrength: Option<real>, lastUpdate: Option<int>, totalRecords: int)

  const Capacity: nat := 100
  const ZeroStats: Stats := Stats(Some(0.0), Some(0.0), None, 0)

  /** Signal strength of a reading: its magnitude as a percentage of 5 V. */
  function SignalStrength(v: Option<real>): (r: Option<real>)
    ensures r.Some? <==> v.Some?
    ensures v.Some? ==> 0.0 <= r.value && (Abs(v.value) <= 5.0 ==> r.value <= 100.0)
  {
    match v
    case None => None
    case Some(x) => Some(Abs(x) / 5.0 * 100.0)
  }

  function ToPoint(item: Item, time: int): Point {
    Point(item.id, time, item.data, item.timestamp)
  }

  /** The records as chart points whose `time` is their index. */
  function Indexed(items: seq<Item>): (r: seq<Point>)
    ensures |r| == |items|
    ensures forall i :: 0 <= i < |r| ==> r[i] == ToPoint(items[i], i)
  {
    seq(|items|, i requires 0 <= i < |items| => ToPoint(items[i], i))
  }

  /** The points with their `time` rewritten to their index. */
  function Reindex(ps: seq<Point>): (r: seq<Point>)
    ensures |r| == |ps|
    ensures forall i :: 0 <= i < |r| ==> r[i] == ps[i].(time := i)
  {
    seq(|ps|, i requires 0 <= i < |ps| => ps[i].(time := i))
  }

  /** `Math.max` over the ids of a non-empty batch: an id of the batch, at least every other. */
  function MaxId(items: seq<Item>): (r: int)
    requires items != []
    ensures forall i :: 0 <= i < |items| ==> items[i].id <= r
    ensures exists i :: 0 <= i < |items| && items[i].id == r
  {
    if |items| == 1 then items[0].id
    else
      var rest := MaxId(items[1..]);
      assert forall i :: 1 <= i < |items| ==> items[i] == items[1..][i - 1];
      if items[0].id < rest then rest else items[0].id
  }

  /** The buffer after a realtime batch: old buffer and batch, last 100, reindexed. */
  function Merged(data: seq<Point>, batch: seq<Item>, now: int): (r: seq<Point>)
    ensures |r| <= Capacity
    ensures forall i :: 0 <= i < |r| ==> r[i].time == i
    ensures |r| == if |data| + |batch| <= Capacity then |data| + |batch| else Capacity
    ensures forall i :: 0 <= i < |r| ==>
      var k := |data| + |batch| - |r| + i;
      r[i] == if k < |data| then data[k].(time := i) else ToPoint(batch[k - |data|], i)
  {
    var points := seq(|batch|, i requires 0 <= i < |batch| => ToPoint(batch[i], now + i));
    var all := data + points;
    Reindex(SliceLast(all, Capacity))
  }

  /** The voltages of the buffer that are numbers, in order. */
  function Numeric(data: seq<Point>): (r: seq<real>)
    ensures forall i :: 0 <= i < |data| && data[i].voltage.Some? ==> data[i].voltage.value in r
    ensures forall v :: v in r ==> exists i :: 0 <= i < |data| && data[i].voltage == Some(v)
  {
    if data == [] then []
    else
      var rest := Numeric(data[1..]);
      assert forall i :: 1 <= i < |data| ==> data[i] == data[1..][i - 1];
      if data[0].voltage.Some? then [data[0].voltage.value] + rest else rest
  }

  function MinOf(vs: seq<real>): (r: real)
    requires vs != []
    ensures r in vs && forall v :: v in vs ==> r <= v
  {
    if |vs| == 1 then vs[0]
    else
      assert forall v :: v in vs ==> v == vs[0] || v in vs[1..];
      Min(vs[0], MinOf(vs[1..]))
  }

  function MaxOf(vs: seq<real>): (r: real)
    requires vs != []
    ensures r in vs && forall v :: v in vs ==> v <= r
  {
    if |vs| == 1 then vs[0]
    else
      assert forall v :: v in vs ==> v == vs[0] || v in vs[1..];
      Max(vs[0], MaxOf(vs[1..]))
  }

  /**
   * The Y-axis domain: the numeric voltages' range (or -5..5 when there are none) widened by
   * a tenth of its span, at least 1, then floored and ceiled.
   */
  function YDomain(data: seq<Point>): (r: (int, int))
    ensures forall i :: 0 <= i < |data| && data[i].voltage.Some? ==>
      r.0 as real <= data[i].voltage.value - 1.0 && data[i].voltage.value + 1.0 <= r.1 as real
    ensures r.1 - r.0 >= 2
  {
    var vs := Numeric(data);
    var lo := if |vs| > 0 then MinOf(vs) else -5.0;
    var hi := if |vs| > 0 then MaxOf(vs) else 5.0;
    var pad := Max(1.0, (hi - lo) * 0.1);
    (FloorOf(lo - pad), CeilOf(hi + pad))
  }

  /** With no numeric voltage the domain is [-6, 6]. */
  lemma EmptyDomain(data: seq<Point>)
    requires forall i :: 0 <= i < |data| ==> data[i].voltage.None?
    ensures YDomain(data) == (-6, 6)
  {
    var vs := Numeric(data);
    if vs != [] {
      var i :| 0 <= i < |data| && data[i].voltage == Some(vs[0]);
    }
    assert FloorOf(-6.0) == -6;
    assert CeilOf(6.0) == 6;
  }

  class Monitor {
    var data: seq<Point>
    var connected: bool
    var lastId: int
    var initialLoad: bool
    var stats: Stats

    /** Every point's `time` is its index in the buffer. */
    ghost predicate Valid()
      reads this
    {
      forall i :: 0 <= i < |data| ==> data[i].time == i
    }

    constructor()
      ensures Valid()
      ensures data == [] && connected && lastId == 0 && initialLoad && stats == ZeroStats
    {
      data := [];
      connected := true;
      lastId := 0;
      initialLoad := true;
      stats := ZeroStats;
    }

    /**
     * The connection effect: while connected, the initial load is requested once and the
     * flag cleared. The caller then feeds the reply of that request to `FetchInitial`.
     */
    method StartPolling() returns (loadInitial: bool)
      modifies this
      ensures loadInitial == (connected && old(initialLoad))
      ensures initialLoad == (old(initialLoad) && !connected)
      ensures data == old(data) && connected == old(connected) && lastId == old(lastId) && stats == old(stats)
    {
      loadInitial := false;
      if connected && initialLoad {
        loadInitial := true;
        initialLoad := false;
      }
    }

    /**
     * The initial load. The reply's records are reversed in place before the stats read
     * "the last one", so the stats come from the first record the backend sent.
     */
    method FetchInitial(reply: Reply)
      requires Valid()
      modifies this
      ensures Valid()
      ensures connected == old(connected) && initialLoad == old(initialLoad)
      ensures !(reply.success && reply.items != []) ==>
        data == old(data) && lastId == old(lastId) && stats == old(stats)
      ensures reply.success && reply.items != [] ==>
        && data == Indexed(Reversed(reply.items))
        && lastId == MaxId(reply.items)
        && stats == old(stats).(voltage := reply.items[0].data,
                                signalStrength := SignalStrength(reply.items[0].data),
                                lastUpdate := Some(reply.items[0].timestamp),
                                totalRecords := |reply.items|)
    {
      if reply.success && |reply.items| > 0 {
        var items := Reversed(reply.items);
        data := Indexed(items);
        lastId := MaxId(reply.items);
        var latest := items[|items| - 1];
        assert latest == reply.items[0];
        stats := stats.(voltage := latest.data, signalStrength := SignalStrength(latest.data),
                        lastUpdate := Some(latest.timestamp), totalRecords := |reply.items|);
      }
    }

    /**
     * One realtime poll. A successful non-empty batch is appended, the buffer trimmed to 100
     * and reindexed, the cursor set to the batch's largest id, and the stats taken from the
     * batch's last record. `now` is the clock reading the points are first stamped with.
     */
    method FetchRealtime(reply: Reply, now: int)
      requires Valid()
      modifies this
      ensures Valid()
      ensures connected == old(connected) && initialLoad == old(initialLoad)
      ensures !(reply.success && reply.items != []) ==>
        data == old(data) && lastId == old(lastId) && stats == old(stats)
      ensures reply.success && reply.items != [] ==>
        && data == Merged(old(data), reply.items, now)
        && |data| <= Capacity
        && lastId == MaxId(reply.items)
        && stats == old(stats).(voltage := reply.items[|reply.items| - 1].data,
                                signalStrength := SignalStrength(reply.items[|reply.items| - 1].data),
                                lastUpdate := Some(reply.items[|reply.items| - 1].timestamp),
                                totalRecords := old(stats).totalRecords + |reply.items|)
    {
      if reply.success && |reply.items| > 0 {
        data := Merged(data, reply.items, now);
        lastId := MaxId(reply.items);
        var latest := reply.items[|reply.items| - 1];
        stats := stats.(voltage := latest.data, signalStrength := SignalStrength(latest.data),
                        lastUpdate := Some(latest.timestamp),
                        totalRecords := stats.totalRecords + |reply.items|);
      }
    }

    /** Flips the connection; reconnecting also empties the buffer and rearms the initial load. */
    method Toggle()
      requires Valid()
      modifies this
      ensures Valid()
      ensures connected == !old(connected)
      ensures old(connected) ==>
        data == old(data) && lastId == old(lastId) && initialLoad == old(initialLoad) && stats == old(stats)
      ensures !old(connected) ==> data == [] && lastId == 0 && initialLoad && stats == ZeroStats
    {
      var was := connected;
      connected := !connected;
      if !was {
        data := [];
        lastId := 0;
        initialLoad := true;
        stats := ZeroStats;
      }
    }
  }
}
