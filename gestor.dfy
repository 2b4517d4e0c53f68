/**
 * The sensor registry (GestorSensores): sensors by id, in registration
 * order, sharing one anomaly detector.
 */
module Registry {
  import opened Anomaly
  import opened Sensors

  /** An alerting reading reported by a drain pass, with the id of the sensor it came from. */
  datatype Alert = Alert(sensorId: string, reading: Reading)

  /** One entry of `obtener_estado_general`: a registered id and that sensor's status. */
  datatype StatusEntry = StatusEntry(sensorId: string, status: SensorStatus)

  predicate Distinct(s: seq<string>)
  {
    forall i, j :: 0 <= i < j < |s| ==> s[i] != s[j]
  }

  /** A queue after one guarded `get_nowait`: its oldest element gone, or still empty. */
  function Pop(q: seq<Reading>): (p: seq<Reading>)
    ensures q != [] ==> p == q[1..]
    ensures q == [] ==> p == []
  {
    if q == [] then [] else q[1..]
  }

  /** What a drain pass reports for one sensor: its oldest queued reading, when there is one and it alerts. */
  function Report(id: string, q: seq<Reading>): seq<Alert>
  {
    if q != [] && q[0].eval.alert then [Alert(id, q[0])] else []
  }

  /** The alerts a drain pass reports, visiting the sensors in registration order. */
  function Reports(ids: seq<string>, queues: map<string, seq<Reading>>): seq<Alert>
  {
    if ids == [] then []
    else
      var id := ids[|ids| - 1];
      Reports(ids[..|ids| - 1], queues) + (if id in queues then Report(id, queues[id]) else [])
  }

  /**
   * Every reported alert is the oldest queued reading of a visited sensor,
   * and that reading alerts; over distinct ids no sensor is reported twice.
   */
  lemma {:induction false} ReportsAreAlertingFronts(ids: seq<string>, queues: map<string, seq<Reading>>)
    ensures |Reports(ids, queues)| <= |ids|
    ensures forall a :: a in Reports(ids, queues) ==>
              a.sensorId in ids && a.sensorId in queues && queues[a.sensorId] != []
              && a.reading == queues[a.sensorId][0] && a.reading.eval.alert
    ensures Distinct(ids) ==> forall i, j :: 0 <= i < j < |Reports(ids, queues)| ==>
              Reports(ids, queues)[i].sensorId != Reports(ids, queues)[j].sensorId
  {
    if ids != [] {
      var prefix, last := ids[..|ids| - 1], ids[|ids| - 1];
      ReportsAreAlertingFronts(prefix, queues);
      if Distinct(ids) {
        assert last !in prefix;
      }
    }
  }

  /** A visited sensor whose oldest queued reading alerts is reported. */
  lemma {:induction false} AlertingFrontsAreReported(ids: seq<string>, queues: map<string, seq<Reading>>, id: string)
    requires id in ids && id in queues && queues[id] != [] && queues[id][0].eval.alert
    ensures Alert(id, queues[id][0]) in Reports(ids, queues)
  {
    var last := ids[|ids| - 1];
    if id != last {
      assert id in ids[..|ids| - 1] by {
        var k :| 0 <= k < |ids| && ids[k] == id;
        assert ids[..|ids| - 1][k] == id;
      }
      AlertingFrontsAreReported(ids[..|ids| - 1], queues, id);
    }
  }

  /** The queues once a drain pass has visited `visited`: each visited sensor's queue has lost its oldest reading. */
  function Drained(queues: map<string, seq<Reading>>, visited: seq<string>): (d: map<string, seq<Reading>>)
    ensures d.Keys == queues.Keys
    ensures forall id :: id in queues && id !in visited ==> d[id] == queues[id]
    ensures forall id :: id in queues && id in visited ==> d[id] == Pop(queues[id])
  {
    map id | id in queues :: if id in visited then Pop(queues[id]) else queues[id]
  }

  /** Every queue after one guarded pop each. */
  function PopEach(queues: map<string, seq<Reading>>): (p: map<string, seq<Reading>>)
    ensures p.Keys == queues.Keys
    ensures forall id :: id in queues ==> p[id] == Pop(queues[id])
  {
    map id | id in queues :: Pop(queues[id])
  }

  /** A pass that has visited every id of the map has popped every queue once. */
  lemma DrainedEvery(queues: map<string, seq<Reading>>, ids: seq<string>)
    requires forall id :: id in queues ==> id in ids
    ensures Drained(queues, ids) == PopEach(queues)
  {
  }

  /**
   * Visiting the next sensor of a registration order appends its report and
   * pops its queue, which no earlier visit has touched.
   */
  lemma DrainStep(ids: seq<string>, i: int, queues: map<string, seq<Reading>>)
    requires Distinct(ids) && 0 <= i < |ids| && ids[i] in queues
    ensures Reports(ids[..i + 1], queues) == Reports(ids[..i], queues) + Report(ids[i], queues[ids[i]])
    ensures Drained(queues, ids[..i])[ids[i]] == queues[ids[i]]
    ensures Drained(queues, ids[..i + 1]) == Drained(queues, ids[..i])[ids[i] := Pop(queues[ids[i]])]
  {
    assert ids[..i + 1][..i] == ids[..i];
    assert ids[..i + 1] == ids[..i] + [ids[i]];
    assert ids[i] !in ids[..i];
  }

  class SensorManager {
    /** `modelo_anomalias`, shared by every sensor the registry creates. */
    const detector: Detector
    /** The keys of `sensores`, in insertion order. */
    var ids: seq<string>
    /** `sensores`. */
    var sensors: map<string, Sensor>

    /** The dictionary's shape: each id once, in order; one distinct sensor per id, created for that id. */
    ghost predicate Registered()
      reads this`ids, this`sensors
    {
      && Distinct(ids)
      && (forall id :: id in sensors <==> id in ids)
      && (forall a, b :: a in sensors && b in sensors && a != b ==> sensors[a] != sensors[b])
      && (forall id :: id in sensors ==> sensors[id].id == id && sensors[id].detector == detector)
    }

    /** Every registered sensor keeps its own invariant. The invariant of a
        sensor is unfolded only where some call needs it. */
    ghost predicate SensorsValid()
      reads this`sensors, sensors.Values`buffer, sensors.Values`queue, sensors.Values`totalReadings,
            sensors.Values`totalAnomalies, sensors.Values`lastReading, sensors.Values`history,
            sensors.Values`consumed, sensors.Values`drift
    {
      forall id {:trigger sensors[id].Valid()} :: id in sensors ==> sensors[id].Valid()
    }

    /** The queue of every registered sensor. */
    ghost function Queues(): map<string, seq<Reading>>
      reads this`sensors, sensors.Values`queue
    {
      map id | id in sensors :: sensors[id].queue
    }

    /** `GestorSensores.__init__`: no sensors. */
    constructor (detector: Detector)
      ensures Registered() && SensorsValid()
      ensures this.detector == detector && ids == [] && sensors == map[]
    {
      this.detector := detector;
      ids := [];
      sensors := map[];
    }

    /** `agregar_sensor`: registers a new, stopped sensor under a fresh id; an id already present is rejected. */
    method AddSensor(id: string, interval: real, bufferSize: nat) returns (added: bool)
      requires Registered() && SensorsValid()
      modifies this`ids, this`sensors
      ensures Registered() && SensorsValid()
      ensures added <==> id !in old(sensors)
      ensures !added ==> ids == old(ids) && sensors == old(sensors)
      ensures added ==> ids == old(ids) + [id] && id in sensors && fresh(sensors[id])
                        && sensors == old(sensors)[id := sensors[id]]
      ensures added ==> sensors[id].capacity == bufferSize && sensors[id].interval == interval
                        && sensors[id].history == [] && !sensors[id].running
      ensures added ==> sensors[id].Book() == Initial && sensors[id].readingsPerMinute == 0
                        && sensors[id].drift == Drift(0.0, 0.0, 0.0)
    {
      if id in sensors {
        added := false;
      } else {
        var sensor := new Sensor(id, detector, interval, bufferSize);
        sensors := sensors[id := sensor];
        ids := ids + [id];
        added := true;
      }
    }

    /** `iniciar_sensor`: starts the named sensor and returns its answer; an unknown id gives false. */
    method StartSensor(id: string, now: real) returns (started: bool)
      requires Registered()
      modifies sensors.Values`running, sensors.Values`minuteCount, sensors.Values`minuteStart
      ensures id !in sensors ==> !started
      ensures id in sensors ==> started == !old(sensors[id].running) && sensors[id].running
      ensures id in sensors && started ==> sensors[id].Clock() == MinuteWindow(0, now, old(sensors[id].readingsPerMinute))
      ensures id in sensors && !started ==> sensors[id].Clock() == old(sensors[id].Clock())
      ensures forall other :: other in sensors && other != id ==> sensors[other].running == old(sensors[other].running)
      ensures forall other :: other in sensors && other != id ==> sensors[other].Clock() == old(sensors[other].Clock())
    {
      if id in sensors {
        started := sensors[id].Start(now);
      } else {
        started := false;
      }
    }

    /** `detener_sensor`: stops the named sensor and returns its answer; an unknown id gives false. */
    method StopSensor(id: string) returns (stopped: bool)
      requires Registered()
      modifies sensors.Values`running
      ensures id !in sensors ==> !stopped
      ensures id in sensors ==> stopped == old(sensors[id].running) && !sensors[id].running
      ensures forall other :: other in sensors && other != id ==> sensors[other].running == old(sensors[other].running)
    {
      if id in sensors {
        stopped := sensors[id].Stop();
      } else {
        stopped := false;
      }
    }

    /** `iniciar_todos`: afterwards every registered sensor runs; those already running are left as they were. */
    method StartAll(now: real)
      requires Registered()
      modifies sensors.Values`running, sensors.Values`minuteCount, sensors.Values`minuteStart
      ensures forall id :: id in sensors ==> sensors[id].running
      ensures forall id :: id in sensors && old(sensors[id].running) ==> sensors[id].Clock() == old(sensors[id].Clock())
      ensures forall id :: id in sensors && !old(sensors[id].running) ==>
                sensors[id].Clock() == MinuteWindow(0, now, old(sensors[id].readingsPerMinute))
    {
      for i := 0 to |ids|
        invariant forall j :: 0 <= j < i ==> sensors[ids[j]].running
        invariant forall id :: id in sensors && old(sensors[id].running) ==>
                    sensors[id].running && sensors[id].Clock() == old(sensors[id].Clock())
        invariant forall id :: id in sensors && !old(sensors[id].running) ==>
                    sensors[id].readingsPerMinute == old(sensors[id].readingsPerMinute)
        invariant forall id :: id in sensors && !old(sensors[id].running) && sensors[id].running ==>
                    sensors[id].Clock() == MinuteWindow(0, now, old(sensors[id].readingsPerMinute))
      {
        var _ := StartSensor(ids[i], now);
      }
    }

    /** `detener_todos`: afterwards no registered sensor runs. */
    method StopAll()
      requires Registered()
      modifies sensors.Values`running
      ensures forall id :: id in sensors ==> !sensors[id].running
    {
      for i := 0 to |ids|
        invariant forall j :: 0 <= j < i ==> !sensors[ids[j]].running
      {
        var _ := StopSensor(ids[i]);
      }
    }

    /** `obtener_estado_general`: one entry per registered id, in registration order, holding that sensor's status. */
    method StatusAll() returns (entries: seq<StatusEntry>)
      requires Registered() && SensorsValid()
      ensures |entries| == |ids|
      ensures forall i :: 0 <= i < |ids| ==> entries[i] == StatusEntry(ids[i], sensors[ids[i]].Status())
    {
      entries := [];
      for i := 0 to |ids|
        invariant |entries| == i
        invariant forall j :: 0 <= j < i ==> entries[j] == StatusEntry(ids[j], sensors[ids[j]].Status())
      {
        entries := entries + [StatusEntry(ids[i], sensors[ids[i]].Status())];
      }
    }

    /** Changing one registered sensor's fields in a way that keeps its invariant keeps every sensor's invariant. */
    twostate lemma OneSensorChanged(changed: Sensor)
      requires old(SensorsValid()) && sensors == old(sensors)
      requires changed.Valid()
      requires forall id :: id in sensors && sensors[id] != changed ==> unchanged(sensors[id])
      ensures SensorsValid()
    {
      forall id | id in sensors
        ensures sensors[id].Valid()
      {
        if sensors[id] != changed {
          assert old(sensors[id].Valid());
        }
      }
    }

    /** Changing the queue of one registered sensor changes that entry of the queue map and no other. */
    twostate lemma OneQueueChanged(changed: Sensor)
      requires old(Registered()) && sensors == old(sensors)
      requires changed.id in sensors && sensors[changed.id] == changed
      requires forall other :: other in sensors && sensors[other] != changed ==> sensors[other].queue == old(sensors[other].queue)
      ensures Queues() == old(Queues())[changed.id := changed.queue]
    {
      forall other | other in sensors && other != changed.id
        ensures Queues()[other] == old(Queues())[other]
      {
        assert sensors[other] != changed;
      }
    }

    /** The body of the drain pass for one sensor: take its oldest reading, if any, and report it if it alerts. */
    method DrainSensor(id: string, sensor: Sensor) returns (report: seq<Alert>)
      requires Registered() && SensorsValid() && id in sensors && sensors[id] == sensor
      modifies sensor`queue, sensor`consumed
      ensures Registered() && SensorsValid()
      ensures report == Report(id, old(Queues())[id])
      ensures Queues() == old(Queues())[id := Pop(old(Queues())[id])]
    {
      var taken := sensor.TakeNext();
      OneSensorChanged(sensor);
      if taken.Some? && taken.value.eval.alert {
        report := [Alert(id, taken.value)];
      } else {
        report := [];
      }
      OneQueueChanged(sensor);
    }

    /**
     * One pass of the alert monitor over the sensors: takes at most the oldest
     * reading off each sensor's queue and reports those that alert.
     */
    method DrainOnce() returns (alerts: seq<Alert>)
      requires Registered() && SensorsValid()
      modifies sensors.Values`queue, sensors.Values`consumed
      ensures Registered() && SensorsValid()
      ensures alerts == Reports(ids, old(Queues()))
      ensures Queues() == PopEach(old(Queues()))
    {
      ghost var queues := Queues();
      alerts := [];
      for i := 0 to |ids|
        invariant Registered() && SensorsValid()
        invariant alerts == Reports(ids[..i], queues)
        invariant Queues() == Drained(queues, ids[..i])
      {
        DrainStep(ids, i, queues);
        var report := DrainSensor(ids[i], sensors[ids[i]]);
        alerts := alerts + report;
      }
      assert ids[..|ids|] == ids;
      DrainedEvery(queues, ids);
    }
  }
}
