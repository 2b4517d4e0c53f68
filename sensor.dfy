/**
 * One simulated IoT sensor (SensorIoT): the drift/clamp part of reading
 * generation, the per-tick bookkeeping of its production loop, the bounded
 * history, the output queue, start/stop and the read-only queries.
 */
module Sensors {
  import opened Anomaly

  /** Symmetric clamps of the three drift accumulators. */
  const TempDriftBound: real := 3.0
  const VoltDriftBound: real := 8.0
  const EfficiencyDriftBound: real := 4.0
  /** `fallo_probabilidad`: chance that a reading takes a fault branch. */
  const FaultProbability: real := 0.02
  /** Chance of each of the first two fault kinds once a fault is drawn. */
  const FaultKindProbability: real := 0.3
  /** Length of the readings-per-minute window, in seconds. */
  const MinuteSeconds: real := 60.0

  /** A processed reading: the generated measurements merged with their evaluation. */
  datatype Reading = Reading(timestamp: int, sensorId: string,
                             temperature: real, voltage: real, efficiency: real,
                             eval: Evaluation)

  /** What the generator produced before evaluation. */
  datatype Measurement = Measurement(timestamp: int, temperature: real, voltage: real, efficiency: real)

  /** Which branch of the generator a reading takes. */
  datatype Branch = Nominal | VoltageFault | Overheat | EfficiencyPath

  /**
   * The random draws of one generation, as arbitrary inputs: three uniform
   * rolls that pick the branch, the Gaussian samples of the measurements, and
   * the drift increments.
   */
  datatype Draws = Draws(faultRoll: real, voltageRoll: real, heatRoll: real,
                         temperature: real, voltage: real, efficiency: real,
                         tempStep: real, voltStep: real, efficiencyStep: real)

  /** Answer of `obtener_ultimas_lecturas`: a single reading (or none) for n = 1, a list otherwise. */
  datatype RecentAnswer = Single(reading: Option<Reading>) | Many(readings: seq<Reading>)

  /** The dictionary returned by `obtener_estado`. */
  datatype SensorStatus = SensorStatus(sensorId: string, active: bool,
                                       totalReadings: nat, totalAnomalies: nat,
                                       anomalyRatePct: real, readingsPerMinute: nat,
                                       bufferSize: nat, lastReading: Option<Reading>,
                                       hasActiveAlert: bool)

  /** Branch selection: a fault with probability 0.02; then a voltage fault, else overheating, else the efficiency path. */
  function BranchOf(d: Draws): (b: Branch)
    ensures b == Nominal <==> d.faultRoll >= FaultProbability
    ensures b == VoltageFault <==> d.faultRoll < FaultProbability && d.voltageRoll < FaultKindProbability
    ensures b == Overheat <==> d.faultRoll < FaultProbability && d.voltageRoll >= FaultKindProbability
                               && d.heatRoll < FaultKindProbability
  {
    if d.faultRoll < FaultProbability then
      if d.voltageRoll < FaultKindProbability then VoltageFault
      else if d.heatRoll < FaultKindProbability then Overheat
      else EfficiencyPath
    else Nominal
  }

  /**
   * The measurement a generation yields. On the voltage-fault branch the
   * temperature is never assigned, so building the reading fails.
   */
  function Measure(d: Draws, timestamp: int): (m: Option<Measurement>)
    ensures m.None? <==> BranchOf(d) == VoltageFault
    ensures m.Some? ==> m.value.temperature == d.temperature && m.value.voltage == d.voltage
                        && m.value.efficiency == d.efficiency && m.value.timestamp == timestamp
  {
    if BranchOf(d) == VoltageFault then None
    else Some(Measurement(timestamp, d.temperature, d.voltage, d.efficiency))
  }

  /** `np.clip(x, lo, hi)`. */
  function Clip(x: real, lo: real, hi: real): (r: real)
    requires lo <= hi
    ensures lo <= r <= hi
    ensures lo <= x <= hi ==> r == x
    ensures x < lo ==> r == lo
    ensures x > hi ==> r == hi
  {
    if x < lo then lo else if x > hi then hi else x
  }

  /** The three drift accumulators `temp_drift`, `volt_drift`, `efic_drift`. */
  datatype Drift = Drift(temp: real, volt: real, efficiency: real)
  {
    predicate Bounded()
    {
      && -TempDriftBound <= temp <= TempDriftBound
      && -VoltDriftBound <= volt <= VoltDriftBound
      && -EfficiencyDriftBound <= efficiency <= EfficiencyDriftBound
    }

    /** Adds this generation's increments and clamps each accumulator to its bound. */
    function Step(d: Draws): (r: Drift)
      ensures r.Bounded()
      ensures -TempDriftBound <= temp + d.tempStep <= TempDriftBound ==> r.temp == temp + d.tempStep
      ensures -VoltDriftBound <= volt + d.voltStep <= VoltDriftBound ==> r.volt == volt + d.voltStep
      ensures -EfficiencyDriftBound <= efficiency + d.efficiencyStep <= EfficiencyDriftBound
              ==> r.efficiency == efficiency + d.efficiencyStep
    {
      Drift(Clip(temp + d.tempStep, -TempDriftBound, TempDriftBound),
            Clip(volt + d.voltStep, -VoltDriftBound, VoltDriftBound),
            Clip(efficiency + d.efficiencyStep, -EfficiencyDriftBound, EfficiencyDriftBound))
    }
  }

  function Min(a: int, b: int): int
  {
    if a <= b then a else b
  }

  /** The last `capacity` entries of `h`: what a `deque(maxlen=capacity)` holds after appending all of `h`. */
  function Window<T(==)>(h: seq<T>, capacity: nat): (w: seq<T>)
    ensures |w| == Min(|h|, capacity)
    ensures IsSuffix(w, h)
  {
    if |h| <= capacity then h else h[|h| - capacity..]
  }

  /** `append` on a `deque(maxlen=capacity)`: at capacity the oldest entry is dropped first. */
  function BoundedAppend<T>(b: seq<T>, x: T, capacity: nat): (r: seq<T>)
    requires |b| <= capacity
    ensures |r| <= capacity
  {
    if capacity == 0 then []
    else if |b| < capacity then b + [x]
    else b[1..] + [x]
  }

  /** Appending to the window of a history gives the window of the extended history. */
  lemma WindowAppend<T>(h: seq<T>, x: T, capacity: nat)
    ensures BoundedAppend(Window(h, capacity), x, capacity) == Window(h + [x], capacity)
  {
    var w := Window(h, capacity);
    if capacity > 0 && |h| >= capacity {
      calc {
        BoundedAppend(w, x, capacity);
        w[1..] + [x];
        h[|h| - capacity + 1..] + [x];
        (h + [x])[|h| + 1 - capacity..];
      }
    }
  }

  /** FIFO eviction: after capacity + 1 appends the oldest retained entry is the second one inserted. */
  lemma OldestEvictedFirst<T>(h: seq<T>, capacity: nat)
    requires capacity > 0 && |h| == capacity + 1
    ensures Window(h, capacity)[0] == h[1]
    ensures Window(h, capacity) == h[1..]
  {
  }

  /** Number of alerting readings in a sequence. */
  function CountAlerts(h: seq<Reading>): nat
  {
    if h == [] then 0 else (if h[0].eval.alert then 1 else 0) + CountAlerts(h[1..])
  }

  lemma {:induction false} CountAlertsBounded(h: seq<Reading>)
    ensures CountAlerts(h) <= |h|
  {
    if h != [] {
      CountAlertsBounded(h[1..]);
    }
  }

  /** Appending a reading adds one to the count exactly when it alerts. */
  lemma {:induction false} CountAlertsAppend(h: seq<Reading>, x: Reading)
    ensures CountAlerts(h + [x]) == CountAlerts(h) + (if x.eval.alert then 1 else 0)
  {
    if h != [] {
      assert (h + [x])[1..] == h[1..] + [x];
      CountAlertsAppend(h[1..], x);
    }
  }

  function Last<T>(h: seq<T>): (o: Option<T>)
    ensures o.None? <==> h == []
    ensures h != [] ==> o == Some(h[|h| - 1])
  {
    if h == [] then None else Some(h[|h| - 1])
  }

  /** The efficiency of the newest buffered reading, or none when the buffer is empty. */
  function PreviousEfficiency(buffer: seq<Reading>): (p: Option<real>)
    ensures p.None? <==> buffer == []
    ensures buffer != [] ==> p == Some(buffer[|buffer| - 1].efficiency)
  {
    if buffer == [] then None else Some(buffer[|buffer| - 1].efficiency)
  }

  /** `_procesar_lectura`: evaluates a measurement against the newest buffered efficiency. */
  function Annotate(id: string, m: Measurement, d: Detector, inference: Inference, buffer: seq<Reading>): (r: Reading)
    ensures r.sensorId == id && r.timestamp == m.timestamp
    ensures r.temperature == m.temperature && r.voltage == m.voltage && r.efficiency == m.efficiency
    ensures r.eval == Evaluate(d, inference, m.temperature, m.voltage, m.efficiency, PreviousEfficiency(buffer))
    ensures buffer == [] ==> r.eval.efficiencyDelta.None? && !r.eval.flags.efficiencyDrop
  {
    Reading(m.timestamp, id, m.temperature, m.voltage, m.efficiency,
            Evaluate(d, inference, m.temperature, m.voltage, m.efficiency, PreviousEfficiency(buffer)))
  }

  /**
   * The reading one tick produces from the current buffer: generation, then
   * evaluation against the newest buffered efficiency; none when generation fails.
   */
  function Produce(id: string, det: Detector, d: Draws, timestamp: int, inference: Inference, buffer: seq<Reading>)
    : (r: Option<Reading>)
    ensures r.None? <==> BranchOf(d) == VoltageFault
    ensures r.Some? ==>
      && r.value.sensorId == id && r.value.timestamp == timestamp
      && r.value.temperature == d.temperature && r.value.voltage == d.voltage && r.value.efficiency == d.efficiency
      && r.value.eval == Evaluate(det, inference, d.temperature, d.voltage, d.efficiency, PreviousEfficiency(buffer))
  {
    match Measure(d, timestamp)
    case None => None
    case Some(m) => Some(Annotate(id, m, det, inference, buffer))
  }

  /** Index at which Python's `xs[start:]` begins, for a list of length `len`. */
  function SliceStart(len: nat, start: int): (i: nat)
    ensures i <= len
    ensures 0 <= start <= len ==> i == start
    ensures start > len ==> i == len
    ensures start < 0 && start + len >= 0 ==> i == start + len
    ensures start + len < 0 ==> i == 0
  {
    if start < 0 then (if start + len < 0 then 0 else start + len)
    else if start > len then len
    else start
  }

  predicate IsSuffix<T(==)>(s: seq<T>, b: seq<T>)
  {
    |s| <= |b| && s == b[|b| - |s|..]
  }

  /**
   * `obtener_ultimas_lecturas(n)` on the buffer `b`. For n = 1 the newest
   * reading; otherwise `b[-n:]` when `len(b) >= n`, else all of `b`. With
   * Python's slicing, n = 0 gives the whole buffer and a negative n drops
   * the first -n entries.
   */
  function LastReadings(b: seq<Reading>, n: int): (r: RecentAnswer)
    ensures n == 1 ==> r == Single(Last(b))
    ensures n != 1 ==> r.Many? && IsSuffix(r.readings, b)
    ensures n >= 2 ==> |r.readings| == Min(n, |b|)
    ensures n == 0 ==> r.readings == b
    ensures n < 0 ==> |r.readings| == |b| - Min(-n, |b|)
  {
    if n == 1 then Single(if |b| > 0 then Some(b[|b| - 1]) else None)
    else if |b| >= n then Many(b[SliceStart(|b|, -n)..])
    else Many(b)
  }

  /** For a positive divisor the quotient times the divisor gives back the dividend, and a <= d keeps it in [0, 1]. */
  lemma Ratio(a: real, d: real)
    requires d > 0.0
    ensures a / d * d == a
    ensures 0.0 <= a <= d ==> 0.0 <= a / d <= 1.0
  {
  }

  /** `(anomalies / max(1, readings)) * 100`. */
  function RatePct(anomalies: nat, readings: nat): (r: real)
    ensures anomalies <= readings ==> 0.0 <= r <= 100.0
    ensures readings == 0 ==> r == (anomalies as real) * 100.0
    ensures readings > 0 ==> r * (readings as real) == (anomalies as real) * 100.0
  {
    var denominator := if readings > 1 then readings else 1;
    var q := (anomalies as real) / (denominator as real);
    Ratio(anomalies as real, denominator as real);
    assert q * 100.0 * (denominator as real) == q * (denominator as real) * 100.0;
    q * 100.0
  }


  /**
   * The readings-per-minute window of the production loop: readings counted
   * since the window opened (`contador_lecturas_minuto`), when it opened
   * (`inicio_minuto`), and the count last published (`lecturas_por_minuto`).
   */
  datatype MinuteWindow = MinuteWindow(count: nat, start: real, perMinute: nat)
  {
    /** Counts one stored reading at clock time `now`; once a minute has elapsed, publishes the count and reopens. */
    function Count(now: real): (w: MinuteWindow)
      ensures now - start >= MinuteSeconds ==> w == MinuteWindow(0, now, count + 1)
      ensures now - start < MinuteSeconds ==> w == MinuteWindow(count + 1, start, perMinute)
    {
      if now - start >= MinuteSeconds then MinuteWindow(0, now, count + 1) else this.(count := count + 1)
    }
  }

  /** Counts readings stored at the given clock times, in order. */
  function CountAll(w: MinuteWindow, times: seq<real>): MinuteWindow
    decreases |times|
  {
    if times == [] then w else CountAll(w.Count(times[0]), times[1..])
  }

  /** While the minute has not elapsed, every reading is counted and nothing is published. */
  lemma {:induction false} CountWithinMinute(w: MinuteWindow, times: seq<real>)
    requires forall i :: 0 <= i < |times| ==> times[i] - w.start < MinuteSeconds
    ensures CountAll(w, times) == MinuteWindow(w.count + |times|, w.start, w.perMinute)
    decreases |times|
  {
    if times != [] {
      CountWithinMinute(w.Count(times[0]), times[1..]);
    }
  }

  /**
   * The published figure is the number of readings stored in the window it
   * closes: starting from a fresh window, k readings inside the minute and a
   * (k+1)-th once it has elapsed publish k + 1 and reopen at that time.
   */
  lemma {:induction false} PublishesWindowCount(start: real, perMinute: nat, inside: seq<real>, now: real)
    requires forall i :: 0 <= i < |inside| ==> inside[i] - start < MinuteSeconds
    requires now - start >= MinuteSeconds
    ensures CountAll(MinuteWindow(0, start, perMinute), inside + [now]) == MinuteWindow(0, now, |inside| + 1)
  {
    CountAllAppend(MinuteWindow(0, start, perMinute), inside, now);
    CountWithinMinute(MinuteWindow(0, start, perMinute), inside);
  }

  lemma {:induction false} CountAllAppend(w: MinuteWindow, times: seq<real>, now: real)
    ensures CountAll(w, times + [now]) == CountAll(w, times).Count(now)
    decreases |times|
  {
    if times == [] {
      assert [now][1..] == [];
    } else {
      assert (times + [now])[1..] == times[1..] + [now];
      CountAllAppend(w.Count(times[0]), times[1..], now);
    }
  }

  /** The bookkeeping state of a sensor: `data_buffer`, `data_queue`, the two counters and `ultima_lectura`. */
  datatype Ledger = Ledger(buffer: seq<Reading>, queue: seq<Reading>, totalReadings: nat, totalAnomalies: nat,
                           lastReading: Option<Reading>)
  {
    /** Storing one processed reading: buffer append with eviction, queue put, counters, `ultima_lectura`. */
    function Store(r: Reading, capacity: nat): Ledger
      requires |buffer| <= capacity
    {
      Ledger(BoundedAppend(buffer, r, capacity), queue + [r], totalReadings + 1,
             totalAnomalies + (if r.eval.alert then 1 else 0), Some(r))
    }

    /** The state once a consumer has taken the `n` oldest queued readings. */
    function Consume(n: nat): Ledger
      requires n <= |queue|
    {
      this.(queue := queue[n..])
    }
  }

  /** The state of a freshly created sensor. */
  const Initial: Ledger := Ledger([], [], 0, 0, None)

  /** The state of a sensor that has stored the readings `h`, oldest first, with nothing consumed yet. */
  function Replay(h: seq<Reading>, capacity: nat): (l: Ledger)
    ensures |l.buffer| <= capacity
    ensures |l.queue| == |h|
    decreases |h|
  {
    if h == [] then Initial
    else Replay(h[..|h| - 1], capacity).Store(h[|h| - 1], capacity)
  }

  /** Storing one more reading extends the replayed history by that reading. */
  lemma ReplayStore(h: seq<Reading>, r: Reading, capacity: nat)
    ensures Replay(h + [r], capacity) == Replay(h, capacity).Store(r, capacity)
  {
    assert (h + [r])[..|h|] == h;
  }

  /**
   * What the stored state means: the buffer holds the newest `capacity`
   * readings, the queue all of them in order, the counters count them and
   * their alerts, and the last reading is the newest one.
   */
  lemma {:induction false} ReplayMeaning(h: seq<Reading>, capacity: nat)
    ensures Replay(h, capacity).buffer == Window(h, capacity)
    ensures Replay(h, capacity).queue == h
    ensures Replay(h, capacity).totalReadings == |h|
    ensures Replay(h, capacity).totalAnomalies == CountAlerts(h)
    ensures Replay(h, capacity).lastReading == Last(h)
    decreases |h|
  {
    if h != [] {
      var prefix, x := h[..|h| - 1], h[|h| - 1];
      assert prefix + [x] == h;
      ReplayMeaning(prefix, capacity);
      WindowAppend(prefix, x, capacity);
      CountAlertsAppend(prefix, x);
    }
  }

  /** Consumption and storage commute: the queue is the unconsumed tail of everything stored. */
  lemma ConsumeThenStore(l: Ledger, n: nat, r: Reading, capacity: nat)
    requires n <= |l.queue| && |l.buffer| <= capacity
    ensures l.Consume(n).Store(r, capacity) == l.Store(r, capacity).Consume(n)
  {
    assert l.queue[n..] + [r] == (l.queue + [r])[n..];
  }

  class Sensor {
    const id: string
    const detector: Detector
    const interval: real
    /** `buffer_size`: the maximum length of the history deque. */
    const capacity: nat

    /** `data_buffer`. */
    var buffer: seq<Reading>
    /** `data_queue`: readings published and not yet taken by a consumer. */
    var queue: seq<Reading>
    var running: bool
    var totalReadings: nat
    var totalAnomalies: nat
    var readingsPerMinute: nat
    /** `ultima_lectura`. */
    var lastReading: Option<Reading>
    var drift: Drift
    /** `contador_lecturas_minuto` and `inicio_minuto`, locals of the production loop. */
    var minuteCount: nat
    var minuteStart: real

    /** Every reading the sensor has stored, oldest first. */
    ghost var history: seq<Reading>
    /** How many of them a consumer has taken from the queue. */
    ghost var consumed: nat

    function Book(): Ledger
      reads this`buffer, this`queue, this`totalReadings, this`totalAnomalies, this`lastReading
    {
      Ledger(buffer, queue, totalReadings, totalAnomalies, lastReading)
    }

    /** The readings-per-minute window as a value. */
    function Clock(): MinuteWindow
      reads this`minuteCount, this`minuteStart, this`readingsPerMinute
    {
      MinuteWindow(minuteCount, minuteStart, readingsPerMinute)
    }

    /** The state is what storing the history and consuming `consumed` readings yields; the drifts are in bounds. */
    ghost predicate Valid()
      reads this`buffer, this`queue, this`totalReadings, this`totalAnomalies, this`lastReading,
            this`history, this`consumed, this`drift
    {
      && consumed <= |history|
      && Book() == Replay(history, capacity).Consume(consumed)
      && drift.Bounded()
    }

    /** The invariant spelled out field by field. */
    lemma Meaning()
      requires Valid()
      ensures buffer == Window(history, capacity) && |buffer| <= capacity
      ensures queue == history[consumed..]
      ensures totalReadings == |history|
      ensures totalAnomalies == CountAlerts(history) <= totalReadings
      ensures lastReading == Last(history)
    {
      ReplayMeaning(history, capacity);
      CountAlertsBounded(history);
    }

    /** `SensorIoT.__init__`: empty history, zero counters, zero drifts, stopped. */
    constructor (id: string, detector: Detector, interval: real, capacity: nat)
      ensures Valid()
      ensures this.id == id && this.detector == detector && this.interval == interval && this.capacity == capacity
      ensures Book() == Initial && history == [] && !running && readingsPerMinute == 0
      ensures drift == Drift(0.0, 0.0, 0.0)
    {
      this.id := id;
      this.detector := detector;
      this.interval := interval;
      this.capacity := capacity;
      buffer := [];
      queue := [];
      running := false;
      totalReadings := 0;
      totalAnomalies := 0;
      readingsPerMinute := 0;
      lastReading := None;
      drift := Drift(0.0, 0.0, 0.0);
      minuteCount := 0;
      minuteStart := 0.0;
      history := [];
      consumed := 0;
    }

    /** Stores a processed reading: into the bounded buffer, onto the queue, and into the counters. */
    method Record(r: Reading)
      requires |buffer| <= capacity
      modifies this`buffer, this`queue, this`totalReadings, this`totalAnomalies, this`lastReading, this`history
      ensures Book() == old(Book()).Store(r, capacity)
      ensures history == old(history) + [r]
    {
      buffer, queue := BoundedAppend(buffer, r, capacity), queue + [r];
      totalReadings, totalAnomalies, lastReading := totalReadings + 1, totalAnomalies + if r.eval.alert then 1 else 0, Some(r);
      history := history + [r];
    }

    /** Counts a stored reading in the current minute; once 60 s have passed, publishes the count and opens a new window. */
    method CountForMinute(now: real)
      modifies this`minuteCount, this`minuteStart, this`readingsPerMinute
      ensures Clock() == old(Clock()).Count(now)
    {
      minuteCount := minuteCount + 1;
      if now - minuteStart >= MinuteSeconds {
        readingsPerMinute := minuteCount;
        minuteCount := 0;
        minuteStart := now;
      }
    }

    /** Stores a produced reading and counts it in the readings-per-minute window. */
    method Publish(r: Reading, now: real)
      requires Valid()
      modifies this`buffer, this`queue, this`totalReadings, this`totalAnomalies, this`lastReading, this`history,
               this`minuteCount, this`minuteStart, this`readingsPerMinute
      ensures Valid()
      ensures |old(buffer)| <= capacity && Book() == old(Book()).Store(r, capacity)
      ensures history == old(history) + [r]
      ensures Clock() == old(Clock()).Count(now)
    {
      ghost var replayed := Replay(history, capacity);
      ReplayStore(history, r, capacity);
      ConsumeThenStore(replayed, consumed, r, capacity);
      Record(r);
      ghost var stored := Book();
      CountForMinute(now);
      assert Book() == stored;
    }

    /**
     * One iteration of the production loop: generate (stepping and clamping
     * the drifts), evaluate against the newest buffered efficiency, store the
     * reading and count it. `now` is the clock read for the readings-per-minute
     * window. A generation that fails skips everything after the drift step.
     */
    method Tick(d: Draws, timestamp: int, inference: Inference, now: real) returns (produced: Option<Reading>)
      requires Valid()
      modifies this`drift, this`buffer, this`queue, this`history, this`totalReadings, this`totalAnomalies,
               this`lastReading, this`readingsPerMinute, this`minuteCount, this`minuteStart
      ensures Valid()
      ensures drift == old(drift).Step(d)
      ensures produced == Produce(id, detector, d, timestamp, inference, old(buffer))
      ensures produced.None? ==> Book() == old(Book()) && history == old(history) && Clock() == old(Clock())
      ensures produced.Some? ==> |old(buffer)| <= capacity && Book() == old(Book()).Store(produced.value, capacity)
                                 && history == old(history) + [produced.value] && Clock() == old(Clock()).Count(now)
    {
      ghost var before := Book();
      drift := drift.Step(d);
      assert Book() == before;
      produced := Produce(id, detector, d, timestamp, inference, buffer);
      if produced.Some? {
        Publish(produced.value, now);
      }
    }

    /** `iniciar`: starts a stopped sensor, whose loop opens a fresh minute window; a running one is left alone. */
    method Start(now: real) returns (started: bool)
      modifies this`running, this`minuteCount, this`minuteStart
      ensures started == !old(running)
      ensures running
      ensures started ==> Clock() == MinuteWindow(0, now, readingsPerMinute)
      ensures !started ==> Clock() == old(Clock())
    {
      if !running {
        running := true;
        minuteCount := 0;
        minuteStart := now;
        started := true;
      } else {
        started := false;
      }
    }

    /** `detener`: stops a running sensor; a stopped one is left alone. */
    method Stop() returns (stopped: bool)
      modifies this`running
      ensures stopped == old(running)
      ensures !running
    {
      if running {
        running := false;
        stopped := true;
      } else {
        stopped := false;
      }
    }

    /** `data_queue.get_nowait()` guarded by `empty()`: takes the oldest unconsumed reading, if any. */
    method TakeNext() returns (r: Option<Reading>)
      requires Valid()
      modifies this`queue, this`consumed
      ensures Valid()
      ensures old(queue) == [] ==> r.None? && queue == [] && consumed == old(consumed)
      ensures old(queue) != [] ==> r == Some(old(queue)[0]) && queue == old(queue)[1..] && consumed == old(consumed) + 1
      ensures r.Some? ==> r.value == history[old(consumed)]
    {
      Meaning();
      if queue == [] {
        r := None;
      } else {
        ghost var replayed := Replay(history, capacity);
        assert replayed.queue[consumed..][1..] == replayed.queue[consumed + 1..];
        r := Some(queue[0]);
        queue, consumed := queue[1..], consumed + 1;
      }
    }

    /** `obtener_estado`: a snapshot of the counters, the buffer size and the newest reading. */
    function Status(): (s: SensorStatus)
      reads this
      requires Valid()
      ensures s.sensorId == id && s.active == running && s.readingsPerMinute == readingsPerMinute
      ensures s.totalReadings == |history| && s.totalAnomalies == CountAlerts(history)
      ensures s.totalAnomalies <= s.totalReadings
      ensures 0.0 <= s.anomalyRatePct <= 100.0
      ensures s.totalReadings == 0 ==> s.anomalyRatePct == 0.0
      ensures s.anomalyRatePct == RatePct(s.totalAnomalies, s.totalReadings)
      ensures s.bufferSize == Min(|history|, capacity)
      ensures s.lastReading == Last(history)
      ensures s.hasActiveAlert <==> history != [] && history[|history| - 1].eval.alert
    {
      Meaning();
      SensorStatus(id, running, totalReadings, totalAnomalies,
                   RatePct(totalAnomalies, totalReadings), readingsPerMinute,
                   |buffer|, lastReading,
                   if lastReading.Some? then lastReading.value.eval.alert else false)
    }

    /** `obtener_ultimas_lecturas(n)`: answered from the buffer, the newest `capacity` readings of the history. */
    function Recent(n: int): (r: RecentAnswer)
      reads this
      requires Valid()
      ensures r == LastReadings(Window(history, capacity), n)
      ensures n == 1 ==> r == Single(Last(Window(history, capacity)))
      ensures n != 1 ==> r.Many? && IsSuffix(r.readings, history)
      ensures n >= 2 ==> |r.readings| == Min(n, Min(|history|, capacity))
      ensures n == 0 ==> r == Many(Window(history, capacity))
      ensures n < 0 ==> r == Many(Window(history, capacity)[Min(-n, Min(|history|, capacity))..])
    {
      Meaning();
      LastReadings(buffer, n)
    }

    /**
     * With a zero-length buffer there is never a previous efficiency, so the
     * efficiency-drop rule cannot fire, whatever the sensor has stored.
     */
    lemma ZeroCapacityNeverDrops(d: Draws, timestamp: int, inference: Inference)
      requires Valid() && capacity == 0
      ensures var p := Produce(id, detector, d, timestamp, inference, buffer);
              p.Some? ==> p.value.eval.efficiencyDelta.None? && !p.value.eval.flags.efficiencyDrop
    {
      Meaning();
    }
  }
}
