# IoT sensor fleet with hybrid anomaly detection — a Dafny model

This project models the core of a small industrial-monitoring service.
Simulated IoT sensors (`SensorIoT`) each run a production loop. Every tick, a
sensor generates a temperature/voltage/efficiency reading and lets the shared
anomaly detector (`ModeloAnomalias`) annotate it. The detector combines an
opaque isolation-forest model with three threshold rules. The sensor then
stores the annotated reading in a bounded history, publishes it on its output
queue and updates its counters. A registry (`GestorSensores`) holds the
sensors by id, starts and stops them, collects their statuses and drains their
queues for alerts. The HTTP/WebSocket gateway (`api.py`) serves fleet totals
and a global anomaly rate.

The model is four modules:

- `Anomaly` (`anomaly.dfy`) is pure and models `verificar_estado_completo`.
  The foreign scale-and-predict call is an input, `Inference`: either it raised,
  or it returned a label.
- `Sensors` (`sensor.dfy`) is imperative and models a sensor as a class. Its
  fields are the buffer (a `deque(maxlen)` as a bounded `seq`), the queue, the
  counters, the drifts and the readings-per-minute window. Two ghost fields
  carry the specification: the full history of stored readings and how many of
  them a consumer has taken. The class invariant `Valid` states that the
  bookkeeping equals `Replay(history)` with the consumed prefix removed.
  `ReplayMeaning` proves what that means field by field:
  - the buffer holds the newest `capacity` readings;
  - the queue holds the unconsumed ones, in order;
  - the counters count the readings and their alerts;
  - `ultima_lectura` is the newest reading.

  One iteration of `_loop_sensor` is `Sensor.Tick`. The random draws and the
  clock are parameters (`Draws`, `now`).
- `Registry` (`gestor.dfy`) is mixed. It is a class over an insertion-ordered
  id list and an id-to-sensor map. Start/stop, the status collection and one
  drain pass of the alert monitor are loops with invariants.
- `Api` (`api.dfy`) is pure. It models the fleet sums, the guarded global rate,
  the WebSocket variant of that rate and the readings lookup.

Where the code and its docstrings disagree, the model follows the code:

- `obtener_ultimas_lecturas(n)` uses Python slicing. For `n = 0` it returns
  the whole buffer. For a negative `n` it drops the first `-n` entries. It does
  not return "the last N readings" (core/sensor.py:223) in those cases (`Sensors.LastReadings`).
- On the voltage-fault branch of `_generar_lectura_sensor`, `temperatura` is
  never assigned. Building the reading therefore raises, the loop swallows the
  error, and the tick stores nothing, after the drifts were already stepped.
  The docstring promises a realistic reading (core/sensor.py:85) on every
  branch; the model produces none (`Sensors.Measure`, `Sensors.Sensor.Tick`).

## Model

| member | source | states |
|---|---|---|
| Anomaly.ModelSignal | core/modelo.py:27-35 | the model signal fires only when the models are loaded and the prediction is the outlier label -1; an unloaded model or a call that raised gives no signal |
| Anomaly.Sources | core/modelo.py:41-46 | `fuente_alerta` is never empty, lists the fired rules in the fixed order Modelo_ML, Bajo_Voltaje, Alta_Temperatura, Caida_Eficiencia, each at most once, and is exactly `[Normal]` iff no rule fired |
| Anomaly.Evaluate | core/modelo.py:26-58 | each flag holds iff its strict threshold holds (volt < 210, temp > 80, a drop below -2.0 against a previous efficiency); the delta is present iff a previous efficiency is; `alerta_total` iff some flag iff the sources are not `[Normal]` |
| Anomaly.StrictlyRankedIsDuplicateFree | core/modelo.py:41-46 | a source list in rule order has no repeated tag |
| Anomaly.UnloadedModelIgnored | core/modelo.py:28-35 | without loaded models the inference outcome cannot change the evaluation |
| Anomaly.RaisedInferenceIsNoSignal | core/modelo.py:29-35 | a prediction call that raises evaluates like an inlier label |
| Anomaly.ThresholdBoundaries | core/modelo.py:37-38 | 209.99 V and 80.01 C fire; 210 V and 80 C do not |
| Anomaly.EfficiencyDropBoundaries | core/modelo.py:39 | no drop on a first reading; a drop of exactly 2 does not fire, a drop of 2.01 does |
| Anomaly.RulesOnlyScenario | core/modelo.py:26-58 | no model, 205 V, 75 C, no previous reading: alert with sources exactly `[Bajo_Voltaje]` and no delta |
| Sensors.BranchOf | core/sensor.py:89-99 | the nominal branch iff the fault roll is at least 0.02; a voltage fault iff a fault and a voltage roll below 0.3; overheating iff a fault, voltage roll at least 0.3 and heat roll below 0.3 |
| Sensors.Measure | core/sensor.py:89-123 | generation fails exactly on the voltage-fault branch; otherwise the measurement carries the drawn values and the timestamp |
| Sensors.Clip | core/sensor.py:113-115 | `np.clip`: the result lies within the bounds and equals the input when the input does |
| Sensors.Drift.Step | core/sensor.py:108-115 | after every step each drift is within its clamp (±3, ±8, ±4), and an in-range sum is kept unchanged |
| Sensors.Window | core/sensor.py:28 | the deque's content after appending a history is the history's suffix of length min(len, maxlen) |
| Sensors.BoundedAppend | core/sensor.py:161 | appending to a deque never exceeds its maximum length |
| Sensors.WindowAppend | core/sensor.py:161 | appending to the window of a history gives the window of the extended history |
| Sensors.OldestEvictedFirst | core/sensor.py:28 | at capacity the oldest entry is the one evicted |
| Sensors.CountAlertsBounded | core/sensor.py:167-172 | a history never has more alerting readings than readings |
| Sensors.CountAlertsAppend | core/sensor.py:171-172 | storing a reading adds one to the anomaly count exactly when it alerts |
| Sensors.PreviousEfficiency | core/sensor.py:127-130 | the previous efficiency is the newest buffered reading's, absent iff the buffer is empty |
| Sensors.Annotate | core/sensor.py:125-143 | the processed reading keeps the measurement and carries the detector's evaluation against the newest buffered efficiency; on an empty buffer there is no delta and no drop |
| Sensors.Produce | core/sensor.py:155-158 | a tick yields no reading iff the voltage-fault branch was drawn, otherwise the drawn measurement with this sensor's id, evaluated against the buffer |
| Sensors.SliceStart | core/sensor.py:226 | Python's start index of `xs[start:]`, for every sign and size of `start` |
| Sensors.LastReadings | core/sensor.py:222-226 | n = 1 gives the newest buffered reading or none; any other n gives a suffix of the buffer, of length min(n, len) for n ≥ 2, the whole buffer for n = 0, and all but the first -n entries for n < 0 |
| Sensors.RatePct | core/sensor.py:208 | `tasa_anomalias_pct` times the readings is 100 times the anomalies; it is within 0..100 when anomalies ≤ readings |
| Sensors.MinuteWindow.Count | core/sensor.py:169-178 | once 60 s have elapsed since the window opened, the count including this reading is published and the window reopens at `now`; otherwise only the count grows |
| Sensors.CountWithinMinute | core/sensor.py:175-178 | inside the minute every reading is counted and nothing is published |
| Sensors.PublishesWindowCount | core/sensor.py:149-178 | from a fresh window, k readings inside the minute and one after it publish k + 1 and reopen the window |
| Sensors.CountAllAppend | core/sensor.py:169-178 | counting one more reading extends the count of the earlier ones |
| Sensors.Replay | core/sensor.py:161-172 | the state after storing a history never buffers more than the capacity and queues every reading |
| Sensors.ReplayStore | core/sensor.py:161-172 | storing one more reading is one more store step on the replayed state |
| Sensors.ReplayMeaning | core/sensor.py:161-172 | after storing a history, the buffer is its window, the queue is all of it, the counters are its length and alert count, and `ultima_lectura` is its newest reading |
| Sensors.ConsumeThenStore | core/sensor.py:164 | taking from the queue and putting onto it commute, so the queue is the unconsumed tail of the history |
| Sensors.Sensor.Meaning | core/sensor.py:26-41 | the sensor invariant spelled out: buffer = window of the history, queue = unconsumed history, counters count the history, anomalies ≤ readings, `ultima_lectura` = newest reading |
| Sensors.Sensor.constructor | core/sensor.py:12-44 | a new sensor is stopped, with empty buffer and queue, zero counters and drifts, and its invariant holds |
| Sensors.Sensor.Record | core/sensor.py:161-172 | the bookkeeping is one store step of the old one and the history grows by the reading |
| Sensors.Sensor.CountForMinute | core/sensor.py:169-178 | the minute window advances by `MinuteWindow.Count(now)` |
| Sensors.Sensor.Publish | core/sensor.py:161-178 | the invariant is kept, the reading is stored and appended to the history, and the minute window counts it |
| Sensors.Sensor.Tick | core/sensor.py:152-185 | the drift steps with clamping in every tick; the produced reading is `Produce` on the old buffer; a failed generation changes nothing else; otherwise the reading is stored, appended to the history and counted; the invariant is kept |
| Sensors.Sensor.Start | core/sensor.py:187-195 | answers true iff the sensor was stopped; afterwards it runs, and a started loop opens a fresh minute window at `now` |
| Sensors.Sensor.Stop | core/sensor.py:197-204 | answers true iff the sensor was running; afterwards it is stopped |
| Sensors.Sensor.TakeNext | core/gestor.py:74-76 | an empty queue gives nothing and changes nothing; otherwise the oldest queued reading, which is the oldest unconsumed reading of the history, is removed and returned; the invariant is kept |
| Sensors.Sensor.Status | core/sensor.py:206-220 | the status counts the history's readings and alerts (anomalies ≤ readings), has a rate within 0..100 that is 0 without readings, reports min(len(history), capacity) buffered readings, the newest reading, and an active alert iff the newest reading alerts |
| Sensors.Sensor.Recent | core/sensor.py:222-226 | the answer is `obtener_ultimas_lecturas` applied to the newest `capacity` readings of the history: n = 1 gives the newest retained reading; any other n gives a suffix of the history, of length min(n, len(history), capacity) for n ≥ 2, all retained readings for n = 0, and the retained readings without the first -n for n < 0 |
| Sensors.Sensor.ZeroCapacityNeverDrops | core/sensor.py:127-130 | with a zero buffer size there is never a previous efficiency, so no produced reading has a delta or an efficiency-drop alert, whatever the history |
| Registry.Pop | core/gestor.py:74-76 | a guarded `get_nowait` removes the oldest element of a non-empty queue and leaves an empty one empty |
| Registry.ReportsAreAlertingFronts | core/gestor.py:73-90 | every alert a drain pass reports is the oldest queued reading of a visited sensor, and that reading alerts; there are no more alerts than visited ids, and over distinct ids (as the registry keeps them) no sensor is reported twice |
| Registry.AlertingFrontsAreReported | core/gestor.py:73-90 | every visited sensor whose oldest queued reading alerts is reported |
| Registry.Drained | core/gestor.py:73-90 | after visiting some sensors, exactly the visited sensors' queues have lost their oldest reading |
| Registry.PopEach | core/gestor.py:73-90 | every queue has lost its oldest reading, if it had one |
| Registry.DrainedEvery | core/gestor.py:73-90 | a pass that visits every registered id pops every queue once |
| Registry.DrainStep | core/gestor.py:73-90 | visiting the next id appends its report and pops its queue, which no earlier visit touched |
| Registry.SensorManager.constructor | core/gestor.py:8-19 | a new registry has no sensors and keeps the detector |
| Registry.SensorManager.AddSensor | core/gestor.py:21-30 | answers true iff the id was absent; then a fresh, stopped sensor with the given interval and buffer size is registered last, with empty history, buffer and queue, zero counters, zero readings per minute and zero drifts; otherwise nothing changes; the registry invariants are kept |
| Registry.SensorManager.StartSensor | core/gestor.py:32-36 | an unknown id answers false; a known one answers the sensor's `iniciar`, and leaves every other sensor's run flag and minute window as they were |
| Registry.SensorManager.StopSensor | core/gestor.py:38-42 | an unknown id answers false; a known one answers the sensor's `detener` and leaves the other sensors' run flags unchanged |
| Registry.SensorManager.StartAll | core/gestor.py:44-48 | afterwards every registered sensor runs; those already running keep their minute window, the others open a fresh one at `now` |
| Registry.SensorManager.StopAll | core/gestor.py:50-54 | afterwards no registered sensor runs |
| Registry.SensorManager.StatusAll | core/gestor.py:56-61 | one entry per registered id, in registration order, holding that sensor's status |
| Registry.SensorManager.DrainSensor | core/gestor.py:74-87 | one sensor's step of the pass: its report is its oldest queued reading if that alerts, and only its queue loses its oldest element |
| Registry.SensorManager.DrainOnce | core/gestor.py:73-90 | one pass reports `Reports(ids, queues)`, visiting the sensors in registration order, and pops every queue once; all invariants are kept |
| Api.TotalReadings | api.py:40 | the fleet's reading total bounds every sensor's count |
| Api.TotalAnomalies | api.py:41 | the fleet's anomaly total bounds every sensor's count |
| Api.FleetAnomaliesWithinReadings | api.py:39-41 | when every sensor has no more anomalies than readings, neither does the fleet |
| Api.NoFleetReadings | api.py:47 | the fleet has no readings exactly when no sensor has any |
| Api.GlobalRate | api.py:47 | the rate is 0 without readings, otherwise 100 × anomalies / readings, within 0..100 when anomalies ≤ readings |
| Api.StreamRate | api.py:68 | the WebSocket rate is 0 without readings, otherwise anomalies / readings (no factor 100) |
| Api.StreamRateIsFraction | api.py:68 | the WebSocket rate times 100 is the `/api/sistema` rate, for every input |
| Api.StreamRateDisagrees | api.py:68 | one anomaly in two readings: `/api/sistema` reports 50, the stream 0.5 |
| Api.Snapshot | api.py:39-48 | the snapshot keeps the statuses, its totals are their sums, its rate is 0 without readings and otherwise satisfies rate × readings = 100 × anomalies; with consistent statuses its anomalies ≤ readings and its rate is within 0..100 |
| Api.SystemState | api.py:37-48 | the statuses of all registered sensors in registration order, their sums, and the guarded percentage within 0..100 |
| Api.Readings | api.py:50-55 | an unknown id gives an empty list; a known id gives its sensor's `obtener_ultimas_lecturas(limit)` over the newest `capacity` readings of its history: the newest retained reading for 1, a suffix of its history of length min(limit, retained) for limit ≥ 2, all retained readings for limit = 0, and the retained readings without the first -limit for a negative limit |

## Left out

- Threads, `time.sleep`, `thread.join` and the `while self.running` loop. One iteration is `Sensor.Tick`; the loop's scheduling and its races with the consumer are not modelled.
- The clock. `datetime.now()` becomes an `int` timestamp parameter. The two `time.time()` reads of one tick (core/sensor.py:175 and 178) become a single `now` parameter.
- Gaussian and uniform sampling. The draws are arbitrary `Draws` inputs, so the baselines and standard deviations of `_configurar_sensor` play no part. The model also does not tie the drawn values to base + drift.
- `round(x, 2)` of the generated values and of `tasa_anomalias_pct`. Values are exact reals.
- Floating-point subtraction in the efficiency-drop rule. Over reals a drop of exactly 2 never fires (`Anomaly.EfficiencyDropBoundaries`); in binary floating point `2.03 - 4.03` is `-2.0000000000000004`, so such a drop can fire.
- Default arguments: `interval=1.0` and `buffer_size=100` (core/gestor.py:21, core/sensor.py:12), `cantidad=10` (core/sensor.py:222) and `limit=10` (api.py:51). Every modelled operation takes these values as explicit parameters.
- The scaler and isolation-forest call, and model loading through joblib. They become `Detector.loaded` and `Inference`.
- Every `print`.
- `obtener_datos_historicos`. It builds a pandas DataFrame for analysis only.
- `mostrar_alertas_tiempo_real` outside one drain pass: the duration loop, the 10-second status printing and the `queue.Empty` race between `empty()` and `get_nowait()`. The pass is the only consumer here.
- Whether `api.py` imports and serves at all: `List` is used at api.py:50 without being imported, and `LecturaSensorDTO` requires a `fuentes_alerta` field the readings do not carry. The model covers the route bodies' expressions only.
- The FastAPI routes, the WebSocket `ConnectionManager`, JSON sending, the pydantic DTOs and the startup/shutdown hooks of `api.py`. The modelled part is their arithmetic and lookup.
- The unused `data_queue_global`, `monitor_thread` and `monitoring` fields of the registry.
- A negative `buffer_size`. The capacity is a `nat`.
- Sensors.Sensor.Record: it does not require the sensor invariant. The invariant is re-established by its caller `Publish`.
- Registry.SensorManager.StartAll, Registry.SensorManager.StopAll, Registry.SensorManager.StartSensor, Registry.SensorManager.StopSensor: they do not restate that every sensor's invariant is kept. Their `modifies` clauses touch only the run flag and the minute window, which the invariant does not read, so callers keep it by framing.

## Findings

| source | as written | input that shows it | evidently intended | confidence | as-written member | corrected member |
|---|---|---|---|---|---|---|
| api.py:68 | the WebSocket stream fills `tasa_global_anomalias` with anomalies / readings, a fraction | 1 anomaly in 2 readings: the stream's expression computes 0.5 while the `/api/sistema` expression computes 50.0 for the same field | the same percentage as api.py:47, anomalies / readings × 100, guarded for an empty fleet | medium, not executed | Api.StreamRateDisagrees | Api.GlobalRate |
