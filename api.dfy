/**
 * The gateway's arithmetic over the registry: the fleet totals and the
 * global anomaly rate served by `/api/sistema` and streamed over the
 * WebSocket, and the readings lookup of `/api/sensores/{id}/lecturas`.
 */
module Api {
  import opened Anomaly
  import opened Sensors
  import opened Registry

  /** The `SistemaDTO` body: the per-sensor statuses, the fleet totals and the global rate. */
  datatype FleetSnapshot = FleetSnapshot(sensors: seq<StatusEntry>, totalReadings: nat, totalAnomalies: nat,
                                         globalRate: real)

  /** `sum(e['total_lecturas'] for e in estados.values())`. */
  function TotalReadings(entries: seq<StatusEntry>): (t: nat)
    ensures forall i :: 0 <= i < |entries| ==> entries[i].status.totalReadings <= t
    decreases |entries|
  {
    if entries == [] then 0
    else TotalReadings(entries[..|entries| - 1]) + entries[|entries| - 1].status.totalReadings
  }

  /** `sum(e['total_anomalias'] for e in estados.values())`. */
  function TotalAnomalies(entries: seq<StatusEntry>): (t: nat)
    ensures forall i :: 0 <= i < |entries| ==> entries[i].status.totalAnomalies <= t
    decreases |entries|
  {
    if entries == [] then 0
    else TotalAnomalies(entries[..|entries| - 1]) + entries[|entries| - 1].status.totalAnomalies
  }

  /** Every status the registry reports counts no more anomalies than readings. */
  predicate Consistent(entries: seq<StatusEntry>)
  {
    forall i :: 0 <= i < |entries| ==> entries[i].status.totalAnomalies <= entries[i].status.totalReadings
  }

  /** Summing consistent statuses keeps the fleet's anomalies within its readings. */
  lemma {:induction false} FleetAnomaliesWithinReadings(entries: seq<StatusEntry>)
    requires Consistent(entries)
    ensures TotalAnomalies(entries) <= TotalReadings(entries)
    decreases |entries|
  {
    if entries != [] {
      FleetAnomaliesWithinReadings(entries[..|entries| - 1]);
    }
  }

  /** The fleet has no readings exactly when no sensor has any. */
  lemma {:induction false} NoFleetReadings(entries: seq<StatusEntry>)
    ensures TotalReadings(entries) == 0 <==> forall i :: 0 <= i < |entries| ==> entries[i].status.totalReadings == 0
    decreases |entries|
  {
    if entries != [] {
      var prefix := entries[..|entries| - 1];
      NoFleetReadings(prefix);
      assert forall i :: 0 <= i < |prefix| ==> prefix[i] == entries[i];
    }
  }

  /** `tasa_global_anomalias` of `/api/sistema`: a percentage, and 0 when the fleet has no readings. */
  function GlobalRate(anomalies: nat, readings: nat): (r: real)
    ensures readings == 0 ==> r == 0.0
    ensures readings > 0 ==> r * (readings as real) == (anomalies as real) * 100.0
    ensures anomalies <= readings ==> 0.0 <= r <= 100.0
  {
    if readings > 0 then
      Ratio(anomalies as real, readings as real);
      var q := (anomalies as real) / (readings as real);
      assert q * 100.0 * (readings as real) == q * (readings as real) * 100.0;
      q * 100.0
    else 0.0
  }

  /** The rate expression of the WebSocket stream as written: the guarded quotient without the factor 100. */
  function StreamRate(anomalies: nat, readings: nat): (r: real)
    ensures readings == 0 ==> r == 0.0
    ensures readings > 0 ==> r * (readings as real) == anomalies as real
  {
    if readings > 0 then
      Ratio(anomalies as real, readings as real);
      (anomalies as real) / (readings as real)
    else 0.0
  }

  /** The streamed rate is the served percentage divided by 100: a fraction in the field that carries a percentage. */
  lemma StreamRateIsFraction(anomalies: nat, readings: nat)
    ensures StreamRate(anomalies, readings) * 100.0 == GlobalRate(anomalies, readings)
  {
    if readings > 0 {
      var q := (anomalies as real) / (readings as real);
      assert GlobalRate(anomalies, readings) == q * 100.0;
    }
  }

  /** One anomaly in two readings: `/api/sistema` reports 50 while the stream reports 0.5. */
  lemma StreamRateDisagrees()
    ensures GlobalRate(1, 2) == 50.0
    ensures StreamRate(1, 2) == 0.5
    ensures StreamRate(1, 2) != GlobalRate(1, 2)
  {
  }

  /** `estado_sistema` over the statuses `obtener_estado_general` returned. */
  function Snapshot(entries: seq<StatusEntry>): (s: FleetSnapshot)
    ensures s.sensors == entries
    ensures s.totalReadings == TotalReadings(entries) && s.totalAnomalies == TotalAnomalies(entries)
    ensures s.globalRate == GlobalRate(s.totalAnomalies, s.totalReadings)
    ensures s.totalReadings > 0 ==> s.globalRate * (s.totalReadings as real) == (s.totalAnomalies as real) * 100.0
    ensures s.totalReadings == 0 ==> s.globalRate == 0.0
    ensures Consistent(entries) ==> s.totalAnomalies <= s.totalReadings && 0.0 <= s.globalRate <= 100.0
  {
    var readings := TotalReadings(entries);
    var anomalies := TotalAnomalies(entries);
    var rate := GlobalRate(anomalies, readings);
    assert Consistent(entries) ==> anomalies <= readings by {
      if Consistent(entries) {
        FleetAnomaliesWithinReadings(entries);
      }
    }
    FleetSnapshot(entries, readings, anomalies, rate)
  }

  /**
   * `estado_sistema`: the registry's statuses in registration order, their
   * sums and the guarded global percentage.
   */
  method SystemState(g: SensorManager) returns (s: FleetSnapshot)
    requires g.Registered() && g.SensorsValid()
    ensures |s.sensors| == |g.ids|
    ensures forall i :: 0 <= i < |g.ids| ==> s.sensors[i] == StatusEntry(g.ids[i], g.sensors[g.ids[i]].Status())
    ensures s.totalReadings == TotalReadings(s.sensors) && s.totalAnomalies == TotalAnomalies(s.sensors)
    ensures s.globalRate == GlobalRate(s.totalAnomalies, s.totalReadings)
    ensures s.totalAnomalies <= s.totalReadings && 0.0 <= s.globalRate <= 100.0
  {
    var entries := g.StatusAll();
    assert Consistent(entries);
    s := Snapshot(entries);
  }

  /**
   * `obtener_lecturas`: the newest readings of a registered sensor, answered
   * by `obtener_ultimas_lecturas(limit)`; an unknown id gives an empty list.
   */
  function Readings(g: SensorManager, id: string, limit: int): (r: RecentAnswer)
    reads g, g.sensors.Values
    requires g.SensorsValid()
    ensures id !in g.sensors ==> r == Many([])
    ensures id in g.sensors ==> r == g.sensors[id].Recent(limit)
    ensures id in g.sensors ==> r == LastReadings(Window(g.sensors[id].history, g.sensors[id].capacity), limit)
    ensures id in g.sensors && limit == 1 ==>
              r == Single(Last(Window(g.sensors[id].history, g.sensors[id].capacity)))
    ensures id in g.sensors && limit != 1 ==> r.Many? && IsSuffix(r.readings, g.sensors[id].history)
    ensures id in g.sensors && limit >= 2 ==>
              |r.readings| == Min(limit, Min(|g.sensors[id].history|, g.sensors[id].capacity))
    ensures id in g.sensors && limit == 0 ==> r == Many(Window(g.sensors[id].history, g.sensors[id].capacity))
  {
    if id in g.sensors then g.sensors[id].Recent(limit) else Many([])
  }
}
