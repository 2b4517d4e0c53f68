/**
 * The hybrid anomaly decision for one reading: an opaque scoring model plus
 * three threshold rules (ModeloAnomalias.verificar_estado_completo).
 */
module Anomaly {

  datatype Option<+T> = None | Some(value: T)

  /** The detector object; only whether its models loaded matters to the rules. */
  datatype Detector = Detector(loaded: bool)

  /** What the foreign scale-and-predict call did for one reading. */
  datatype Inference = Raised | Label(value: int)

  /** The label the isolation forest gives an outlier. */
  const OutlierLabel: int := -1
  /** Low-voltage rule fires strictly below this. */
  const LowVoltageLimit: real := 210.0
  /** High-temperature rule fires strictly above this. */
  const HighTemperatureLimit: real := 80.0
  /** Efficiency-drop rule fires when the change is strictly below this. */
  const EfficiencyDropLimit: real := -2.0

  /** The tags of `fuente_alerta`: "Modelo_ML", "Bajo_Voltaje", "Alta_Temperatura", "Caida_Eficiencia", "Normal". */
  datatype Tag = ModeloML | BajoVoltaje | AltaTemperatura | CaidaEficiencia | Normal

  /** Position of a tag in the fixed order in which the rules append them. */
  function Rank(t: Tag): nat
  {
    match t
    case ModeloML => 0
    case BajoVoltaje => 1
    case AltaTemperatura => 2
    case CaidaEficiencia => 3
    case Normal => 4
  }

  /** `alertas_individuales`: one flag per signal. */
  datatype RuleFlags = RuleFlags(modelMl: bool, lowVoltage: bool, highTemperature: bool, efficiencyDrop: bool)
  {
    predicate Any()
    {
      modelMl || lowVoltage || highTemperature || efficiencyDrop
    }

    /** The flag that a tag reports; `Normal` reports none. */
    predicate Raises(t: Tag)
    {
      match t
      case ModeloML => modelMl
      case BajoVoltaje => lowVoltage
      case AltaTemperatura => highTemperature
      case CaidaEficiencia => efficiencyDrop
      case Normal => false
    }
  }

  /** The annotation merged into a reading: `alerta_total`, `fuente_alerta`, `delta_efic`, `alertas_individuales`. */
  datatype Evaluation = Evaluation(alert: bool, sources: seq<Tag>, efficiencyDelta: Option<real>, flags: RuleFlags)

  /** Tags in strictly increasing rule order, hence each at most once. */
  predicate StrictlyRanked(s: seq<Tag>)
  {
    forall i, j :: 0 <= i < j < |s| ==> Rank(s[i]) < Rank(s[j])
  }

  /** The model signal: a loaded model that labels the reading an outlier; a failed call counts as no signal. */
  function ModelSignal(d: Detector, inference: Inference): (fired: bool)
    ensures fired ==> d.loaded && inference == Label(OutlierLabel)
    ensures !d.loaded || inference.Raised? ==> !fired
  {
    d.loaded && inference.Label? && inference.value == OutlierLabel
  }

  function Optional(fires: bool, t: Tag): seq<Tag>
  {
    if fires then [t] else []
  }

  /** The `fuente_alerta` list built from the flags: each fired rule in order, or just `Normal`. */
  function Sources(f: RuleFlags): (s: seq<Tag>)
    ensures |s| >= 1
    ensures StrictlyRanked(s)
    ensures forall t :: t != Normal ==> (t in s <==> f.Raises(t))
    ensures Normal in s <==> s == [Normal]
    ensures s == [Normal] <==> !f.Any()
  {
    var fired := Optional(f.modelMl, ModeloML) + Optional(f.lowVoltage, BajoVoltaje)
               + Optional(f.highTemperature, AltaTemperatura) + Optional(f.efficiencyDrop, CaidaEficiencia);
    if fired == [] then [Normal] else fired
  }

  /**
   * Evaluates one reading. `previous` is the efficiency of the preceding
   * reading of the same sensor, if any. Never fails: a missing or failing
   * model only silences the model signal.
   */
  function Evaluate(d: Detector, inference: Inference, temperature: real, voltage: real, efficiency: real,
                    previous: Option<real>): (r: Evaluation)
    ensures r.flags.modelMl <==> d.loaded && inference == Label(OutlierLabel)
    ensures r.flags.lowVoltage <==> voltage < LowVoltageLimit
    ensures r.flags.highTemperature <==> temperature > HighTemperatureLimit
    ensures r.flags.efficiencyDrop <==> previous.Some? && efficiency - previous.value < EfficiencyDropLimit
    ensures previous.None? ==> r.efficiencyDelta.None?
    ensures previous.Some? ==> r.efficiencyDelta == Some(efficiency - previous.value)
    ensures r.alert <==> r.flags.Any()
    ensures r.alert <==> r.sources != [Normal]
    ensures |r.sources| >= 1 && StrictlyRanked(r.sources)
    ensures forall t :: t != Normal ==> (t in r.sources <==> r.flags.Raises(t))
  {
    var flags := RuleFlags(
      ModelSignal(d, inference),
      voltage < LowVoltageLimit,
      temperature > HighTemperatureLimit,
      previous.Some? && efficiency - previous.value < EfficiencyDropLimit);
    Evaluation(
      flags.Any(),
      Sources(flags),
      if previous.Some? then Some(efficiency - previous.value) else None,
      flags)
  }

  /** A strictly ranked list names each tag at most once. */
  lemma StrictlyRankedIsDuplicateFree(s: seq<Tag>)
    requires StrictlyRanked(s)
    ensures forall i, j :: 0 <= i < j < |s| ==> s[i] != s[j]
  {
  }

  /** Without a loaded model the inference outcome is irrelevant: the rules decide alone. */
  lemma UnloadedModelIgnored(i1: Inference, i2: Inference, temperature: real, voltage: real, efficiency: real,
                             previous: Option<real>)
    ensures Evaluate(Detector(false), i1, temperature, voltage, efficiency, previous)
         == Evaluate(Detector(false), i2, temperature, voltage, efficiency, previous)
  {
  }

  /** An inference that raises is treated as an inlier label: evaluation goes on with the rules. */
  lemma RaisedInferenceIsNoSignal(d: Detector, temperature: real, voltage: real, efficiency: real, previous: Option<real>)
    ensures Evaluate(d, Raised, temperature, voltage, efficiency, previous)
         == Evaluate(d, Label(1), temperature, voltage, efficiency, previous)
  {
  }

  /** The thresholds are strict: 209.99 V and 80.01 C fire, 210 V and 80 C do not. */
  lemma ThresholdBoundaries(d: Detector, inference: Inference, efficiency: real, previous: Option<real>)
    ensures Evaluate(d, inference, 70.0, 209.99, efficiency, previous).flags.lowVoltage
    ensures !Evaluate(d, inference, 70.0, 210.0, efficiency, previous).flags.lowVoltage
    ensures Evaluate(d, inference, 80.01, 220.0, efficiency, previous).flags.highTemperature
    ensures !Evaluate(d, inference, 80.0, 220.0, efficiency, previous).flags.highTemperature
  {
  }

  /** The drop rule never fires on a sensor's first reading, and a drop of exactly 2 does not fire. */
  lemma EfficiencyDropBoundaries(d: Detector, inference: Inference, temperature: real, voltage: real, efficiency: real)
    ensures !Evaluate(d, inference, temperature, voltage, efficiency, None).flags.efficiencyDrop
    ensures !Evaluate(d, inference, temperature, voltage, efficiency, Some(efficiency + 2.0)).flags.efficiencyDrop
    ensures Evaluate(d, inference, temperature, voltage, efficiency, Some(efficiency + 2.01)).flags.efficiencyDrop
  {
  }

  /** No model, 205 V, 75 C, no previous reading: alert from low voltage alone, no delta. */
  lemma RulesOnlyScenario(inference: Inference, efficiency: real)
    ensures var r := Evaluate(Detector(false), inference, 75.0, 205.0, efficiency, None);
            r.alert && r.sources == [BajoVoltaje] && r.efficiencyDelta == None
  {
  }
}
