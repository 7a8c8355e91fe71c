/** The three deterministic tools of the ScanCare agents: classifying lab values
    against a table of normal ranges, deriving risk metrics from them, and
    looking up treatment guidelines for a condition. The tools take the JSON
    their caller produced; here that is the document `json.loads` returned,
    or None when it did not parse. */
module Medical {
  import opened Wrappers
  import opened Text
  import opened Json

  /** What a tool call ends in: the `{"error": "Invalid JSON input"}` reply,
      an exception escaping the tool, or the result it serialises. */
  datatype Report<T> = InvalidJson | Raised | Done(value: T)

  /** What one input contributes to a result: nothing, an exception, or an entry. */
  datatype Step<T> = Skip | Fail | Emit(entry: T) {
    function Present(): Option<T> {
      if Emit? then Some(entry) else None
    }
  }

  // ---------------------------------------------------------------------------
  // check_normal_ranges: the range table
  // ---------------------------------------------------------------------------

  /** An upper limit; HDL has none (`float('inf')`). */
  datatype Limit = Finite(v: real) | Infinity

  /** One named range of a test, e.g. `'male': (13.5, 17.5)`. `shown` is the
      `"{min}-{max}"` text Python prints for the two literals. */
  datatype Band = Band(name: string, lo: real, hi: Limit, shown: string)

  /** A test's entry: its ranges in table order and its unit, or the blood
      pressure entry `(sys_lo, sys_hi, dia_lo, dia_hi)`. */
  datatype RangeEntry =
    | Bands(bands: seq<Band>, unit: string)
    | Pressure(sysLo: int, sysHi: int, diaLo: int, diaHi: int, unit: string)

  const MicroL := "μL"

  const NormalRanges: map<string, RangeEntry> := map[
    "hemoglobin" := Bands([Band("male", 13.5, Finite(17.5), "13.5-17.5"),
                           Band("female", 12.0, Finite(15.5), "12.0-15.5")], "g/dL"),
    "glucose" := Bands([Band("fasting", 70.0, Finite(100.0), "70-100"),
                        Band("random", 70.0, Finite(140.0), "70-140")], "mg/dL"),
    "cholesterol" := Bands([Band("normal", 0.0, Finite(200.0), "0-200"),
                            Band("borderline", 200.0, Finite(240.0), "200-240")], "mg/dL"),
    "hdl" := Bands([Band("male", 40.0, Infinity, "40-inf"),
                    Band("female", 50.0, Infinity, "50-inf")], "mg/dL"),
    "ldl" := Bands([Band("optimal", 0.0, Finite(100.0), "0-100"),
                    Band("near_optimal", 100.0, Finite(130.0), "100-130")], "mg/dL"),
    "triglycerides" := Bands([Band("normal", 0.0, Finite(150.0), "0-150"),
                              Band("borderline", 150.0, Finite(200.0), "150-200")], "mg/dL"),
    "wbc" := Bands([Band("normal", 4.0, Finite(11.0), "4.0-11.0")], "thousands/" + MicroL),
    "rbc" := Bands([Band("male", 4.5, Finite(5.5), "4.5-5.5"),
                    Band("female", 4.0, Finite(5.0), "4.0-5.0")], "millions/" + MicroL),
    "platelets" := Bands([Band("normal", 150.0, Finite(400.0), "150-400")], "thousands/" + MicroL),
    "hba1c" := Bands([Band("normal", 0.0, Finite(5.7), "0-5.7"),
                      Band("prediabetes", 5.7, Finite(6.5), "5.7-6.5")], "%"),
    "blood_pressure" := Pressure(90, 120, 60, 80, "mmHg")
  ]

  /** The first band called `name`, if any. */
  function NamedBand(bands: seq<Band>, name: string): (r: Option<Band>)
    ensures r.Some? ==> r.value in bands && r.value.name == name
    ensures r.None? ==> forall b :: b in bands ==> b.name != name
  {
    if |bands| == 0 then None
    else if bands[0].name == name then Some(bands[0])
    else NamedBand(bands[1..], name)
  }

  /** The range a value is judged against: the `normal` band when the test has
      one, otherwise the first listed. A test listing only its unit has none. */
  function SelectedBand(bands: seq<Band>): (r: Option<Band>)
    ensures r.None? <==> |bands| == 0
    ensures r.Some? ==> r.value in bands
    ensures (exists b :: b in bands && b.name == "normal") ==> r.Some? && r.value.name == "normal"
    ensures (forall b :: b in bands ==> b.name != "normal") && |bands| > 0 ==> r == Some(bands[0])
  {
    var n := NamedBand(bands, "normal");
    if n.Some? then n else if |bands| == 0 then None else Some(bands[0])
  }

  datatype Status = Normal | High | Low

  predicate Below(v: real, hi: Limit) {
    hi.Infinity? || v <= hi.v
  }

  /** `'normal' if lo <= v <= hi else 'high' if v > hi else 'low'`. */
  function Classify(v: real, lo: real, hi: Limit): (s: Status)
    ensures s == Normal <==> lo <= v && Below(v, hi)
  {
    if lo <= v && Below(v, hi) then Normal
    else if !Below(v, hi) then High
    else Low
  }

  /** On a band whose limits are in order the three statuses are the three
      places a value can be: inside (limits included), above, below. */
  lemma ClassifyOrderedBand(v: real, lo: real, hi: Limit)
    requires Below(lo, hi)
    ensures Classify(v, lo, hi) == High <==> hi.Finite? && v > hi.v
    ensures Classify(v, lo, hi) == Low <==> v < lo
  {
  }

  /** `sys, dia = map(int, value.split('/'))`: exactly two pieces, each an
      integer literal; anything else raises. */
  function ParsePressure(s: string): Option<(int, int)> {
    var parts := Split(s, '/');
    if |parts| != 2 then None
    else
      var sys, dia := ParseInt(parts[0]), ParseInt(parts[1]);
      if sys.None? || dia.None? then None else Some((sys.value, dia.value))
  }

  /** A reading written as `str(sys) + "/" + str(dia)` parses back to itself. */
  lemma ParsePressureOfReading(sys: nat, dia: nat)
    ensures ParsePressure(NatToString(sys) + "/" + NatToString(dia)) == Some((sys, dia))
  {
    var a, b := NatToString(sys), NatToString(dia);
    assert '/' !in a by { assert AllDigits(a); }
    assert '/' !in b by { assert AllDigits(b); }
    SplitFirst(a, '/', b);
    SplitNoSeparator(b, '/');
    ParseIntOfNat(sys);
    ParseIntOfNat(dia);
  }

  /** One entry of the result: a value judged against its band, or a blood
      pressure reading judged on both numbers. */
  datatype RangeResult =
    | Measured(value: Value, status: Status, range: string, unit: string)
    | PressureReading(value: Value, normal: bool, systolic: Status, diastolic: Status, unit: string)

  /** What the input key `key` holding `value` contributes. Keys the table does
      not list are skipped; a value Python cannot compare or split raises. */
  function RangeStep(key: string, value: Value): Step<RangeResult> {
    if key !in NormalRanges then Skip
    else
      match NormalRanges[key]
      case Pressure(sysLo, sysHi, diaLo, diaHi, unit) =>
        var reading := if value.Str? then ParsePressure(value.s) else None;
        if reading.None? then Fail
        else
          var (sys, dia) := reading.value;
          var s := Classify(sys as real, sysLo as real, Finite(sysHi as real));
          var d := Classify(dia as real, diaLo as real, Finite(diaHi as real));
          Emit(PressureReading(value, s == Normal && d == Normal, s, d, unit))
      case Bands(bands, unit) =>
        var band := SelectedBand(bands);
        var v := AsNumber(value);
        if band.None? then Skip
        else if v.None? then Fail
        else Emit(Measured(value, Classify(v.value, band.value.lo, band.value.hi), band.value.shown, unit))
  }

  /** The result of a loop over a dict's items that fills `results[key]` from
      each item: an item whose step raises ends the loop with the exception;
      otherwise the result holds the entry of every item that emitted one. */
  function Collected<T>(items: map<string, Value>, judge: (string, Value) -> Step<T>): Report<map<string, T>> {
    if exists k :: k in items && judge(k, items[k]).Fail? then Raised
    else Done(map k | k in items && judge(k, items[k]).Emit? :: judge(k, items[k]).entry)
  }

  /** The loop: visits the items in whatever order the dict holds them. */
  method Collect<T>(items: map<string, Value>, judge: (string, Value) -> Step<T>) returns (r: Report<map<string, T>>)
    ensures r == Collected(items, judge)
  {
    var results: map<string, T> := map[];
    var todo := items.Keys;
    while todo != {}
      invariant todo <= items.Keys
      invariant forall k :: k in items && k !in todo ==> !judge(k, items[k]).Fail?
      invariant results == map k | k in items && k !in todo && judge(k, items[k]).Emit? :: judge(k, items[k]).entry
      decreases |todo|
    {
      var key :| key in todo;
      var step := judge(key, items[key]);
      if step.Fail? {
        return Raised;
      }
      if step.Emit? {
        results := results[key := step.entry];
      }
      todo := todo - {key};
    }
    assert !exists k :: k in items && judge(k, items[k]).Fail?;
    assert results == map k | k in items && judge(k, items[k]).Emit? :: judge(k, items[k]).entry;
    return Done(results);
  }

  /** An item whose step is skipped changes nothing in the result. */
  lemma CollectedIgnoresSkipped<T>(items: map<string, Value>, judge: (string, Value) -> Step<T>, key: string, value: Value)
    requires judge(key, value).Skip?
    ensures Collected(items[key := value], judge) == Collected(items - {key}, judge)
  {
    var with, without := items[key := value], items - {key};
    assert forall k :: k in with && judge(k, with[k]).Fail? <==> k in without && judge(k, without[k]).Fail?;
    if !exists k :: k in without && judge(k, without[k]).Fail? {
      var a := map k | k in with && judge(k, with[k]).Emit? :: judge(k, with[k]).entry;
      var b := map k | k in without && judge(k, without[k]).Emit? :: judge(k, without[k]).entry;
      assert a.Keys == b.Keys;
      assert a == b;
    }
  }

  /** check_normal_ranges on a decoded document: a dict yields one entry per
      key the table lists; anything else that parsed raises on `.items()`. */
  function RangeReport(doc: Option<Value>): Report<map<string, RangeResult>> {
    if doc.None? then InvalidJson
    else if !doc.value.Obj? then Raised
    else Collected(doc.value.fields, RangeStep)
  }

  method CheckNormalRanges(doc: Option<Value>) returns (r: Report<map<string, RangeResult>>)
    ensures r == RangeReport(doc)
  {
    if doc.None? {
      return InvalidJson;
    }
    if !doc.value.Obj? {
      return Raised;
    }
    r := Collect(doc.value.fields, RangeStep);
  }

  /** A key the table does not list changes nothing in the result. */
  lemma UnknownKeyIgnored(m: map<string, Value>, key: string, value: Value)
    requires key !in NormalRanges
    ensures RangeReport(Some(Obj(m[key := value]))) == RangeReport(Some(Obj(m - {key})))
  {
    CollectedIgnoresSkipped(m, RangeStep, key, value);
  }

  /** Every entry of the result belongs to a key of the input that the table lists. */
  lemma ResultKeysListed(m: map<string, Value>)
    requires RangeReport(Some(Obj(m))).Done?
    ensures forall k :: k in RangeReport(Some(Obj(m))).value ==> k in m && k in NormalRanges
  {
  }

  /** A test without a `normal` band is judged by its first: hemoglobin by the
      male range. */
  lemma HemoglobinBand()
    ensures SelectedBand(NormalRanges["hemoglobin"].bands) == Some(Band("male", 13.5, Finite(17.5), "13.5-17.5"))
  {
    assert NamedBand(NormalRanges["hemoglobin"].bands, "normal").None?;
  }

  /** Glucose is judged by the fasting range. */
  lemma GlucoseBand()
    ensures SelectedBand(NormalRanges["glucose"].bands) == Some(Band("fasting", 70.0, Finite(100.0), "70-100"))
  {
    assert NamedBand(NormalRanges["glucose"].bands, "normal").None?;
  }

  /** HDL is judged by the male range, which has no upper limit. */
  lemma HdlBand()
    ensures SelectedBand(NormalRanges["hdl"].bands) == Some(Band("male", 40.0, Infinity, "40-inf"))
  {
    assert NamedBand(NormalRanges["hdl"].bands, "normal").None?;
  }

  /** A test with a `normal` band is judged by it, even when it is not listed
      first: HbA1c by 0-5.7. */
  lemma NormalBandWins()
    ensures SelectedBand(NormalRanges["hba1c"].bands) == Some(Band("normal", 0.0, Finite(5.7), "0-5.7"))
  {
  }

  /** A blood pressure reading is normal exactly when systolic is within
      90..120 and diastolic within 60..80, limits included. */
  lemma PressureReadingNormal(s: string, sys: int, dia: int)
    requires ParsePressure(s) == Some((sys, dia))
    ensures var step := RangeStep("blood_pressure", Str(s));
            step.Emit? && step.entry.PressureReading?
            && (step.entry.normal <==> 90 <= sys <= 120 && 60 <= dia <= 80)
  {
  }

  // ---------------------------------------------------------------------------
  // calculate_health_metrics: threshold ladders
  // ---------------------------------------------------------------------------

  datatype Risk = LowRisk | ModerateRisk | HighRisk

  function RiskRank(r: Risk): nat {
    match r
    case LowRisk => 0
    case ModerateRisk => 1
    case HighRisk => 2
  }

  /** The total-cholesterol-to-HDL ratio's risk: below 3.5 low, below 5.0
      moderate, otherwise high. */
  function RatioRisk(ratio: real): (r: Risk)
    ensures r == LowRisk <==> ratio < 3.5
    ensures r == HighRisk <==> ratio >= 5.0
  {
    if ratio < 3.5 then LowRisk else if ratio < 5.0 then ModerateRisk else HighRisk
  }

  /** A higher ratio never means a lower risk. */
  lemma RatioRiskMonotone(a: real, b: real)
    requires a <= b
    ensures RiskRank(RatioRisk(a)) <= RiskRank(RatioRisk(b))
  {
  }

  /** The `category` of the diabetes metric: 'normal', 'prediabetes', 'diabetes'. */
  datatype Glycemia = NoDiabetes | Prediabetes | Diabetes

  /** HbA1c: below 5.7 normal, from 5.7 up to but not including 6.5
      prediabetes, 6.5 and above diabetes. */
  function GlycemiaCategory(hba1c: real): (g: Glycemia)
    ensures g == NoDiabetes <==> hba1c < 5.7
    ensures g == Prediabetes <==> 5.7 <= hba1c < 6.5
    ensures g == Diabetes <==> hba1c >= 6.5
  {
    if hba1c < 5.7 then NoDiabetes else if hba1c < 6.5 then Prediabetes else Diabetes
  }

  datatype Severity = Severe | Moderate | Mild

  /** Anemia severity, for a hemoglobin already below 12.0: below 8.0 severe,
      below 10.0 moderate, otherwise mild. */
  function AnemiaSeverity(hb: real): (s: Severity)
    ensures s == Severe <==> hb < 8.0
    ensures s == Moderate <==> 8.0 <= hb < 10.0
    ensures s == Mild <==> hb >= 10.0
  {
    if hb < 8.0 then Severe else if hb < 10.0 then Moderate else Mild
  }

  /** 'Normal', 'Elevated', 'Stage 1 Hypertension', 'Stage 2 Hypertension'. */
  datatype BpClass = NormalBp | Elevated | Stage1 | Stage2 {
    function Rank(): nat {
      match this
      case NormalBp => 0
      case Elevated => 1
      case Stage1 => 2
      case Stage2 => 3
    }
  }

  /** The blood pressure ladder as the source writes it: its third rung tests
      `sys < 140 or dia < 90`. */
  function BpCategoryAsWritten(sys: int, dia: int): (c: BpClass)
    ensures c == NormalBp <==> sys < 120 && dia < 80
    ensures c == Elevated <==> 120 <= sys < 130 && dia < 80
    ensures c == Stage1 <==> (sys < 140 || dia < 90) && (sys >= 130 || dia >= 80)
    ensures c == Stage2 <==> sys >= 140 && dia >= 90
  {
    if sys < 120 && dia < 80 then NormalBp
    else if sys < 130 && dia < 80 then Elevated
    else if sys < 140 || dia < 90 then Stage1
    else Stage2
  }

  /** With `or` on the third rung a reading is Stage 2 only when both numbers
      reach it: 180/85 and 110/95 come out as Stage 1. */
  lemma AsWrittenLabelsStage2AsStage1()
    ensures BpCategoryAsWritten(180, 85) == Stage1
    ensures BpCategoryAsWritten(110, 95) == Stage1
  {
  }

  /** The ladder the rungs before it follow: Stage 2 as soon as either number
      reaches it (systolic 140, diastolic 90). */
  function BpCategory(sys: int, dia: int): (c: BpClass)
    ensures c == NormalBp <==> sys < 120 && dia < 80
    ensures c == Elevated <==> 120 <= sys < 130 && dia < 80
    ensures c == Stage1 <==> sys < 140 && dia < 90 && (sys >= 130 || dia >= 80)
    ensures c == Stage2 <==> sys >= 140 || dia >= 90
  {
    if sys < 120 && dia < 80 then NormalBp
    else if sys < 130 && dia < 80 then Elevated
    else if sys < 140 && dia < 90 then Stage1
    else Stage2
  }

  /** A higher reading on either number never lowers the category. */
  lemma BpCategoryMonotone(sys1: int, dia1: int, sys2: int, dia2: int)
    requires sys1 <= sys2 && dia1 <= dia2
    ensures BpCategory(sys1, dia1).Rank() <= BpCategory(sys2, dia2).Rank()
  {
  }

  /** The two ladders disagree exactly on readings where one number is in the
      Stage 2 range and the other is not. */
  lemma BpLaddersDisagree(sys: int, dia: int)
    ensures BpCategoryAsWritten(sys, dia) != BpCategory(sys, dia) <==> (sys >= 140) != (dia >= 90)
  {
  }

  datatype RatioMetric = RatioMetric(value: real, risk: Risk)
  datatype DiabetesMetric = DiabetesMetric(value: Value, category: Glycemia)
  datatype AnemiaMetric = Detected(severity: Severity, hemoglobin: Value) | NotDetected(hemoglobin: Value)
  datatype PressureMetric = PressureMetric(systolic: int, diastolic: int, category: BpClass, actionNeeded: bool)

  /** The metrics object; a metric whose input key is absent is absent. */
  datatype Metrics = Metrics(
    ratio: Option<RatioMetric>,
    diabetes: Option<DiabetesMetric>,
    anemia: Option<AnemiaMetric>,
    pressure: Option<PressureMetric>)

  /** The ratio metric: skipped unless both keys are `in` the data; computed
      only from a dict whose two values are numbers with a non-zero HDL;
      anything else raises (TypeError, or ZeroDivisionError). */
  function RatioStep(data: Value): (s: Step<RatioMetric>)
    requires IsContainer(data)
    ensures s.Skip? <==> !(In(data, "cholesterol") && In(data, "hdl"))
    ensures s.Emit? <==> data.Obj? && "cholesterol" in data.fields && "hdl" in data.fields
                         && AsNumber(data.fields["cholesterol"]).Some? && AsNumber(data.fields["hdl"]).Some?
                         && AsNumber(data.fields["hdl"]).value != 0.0
    ensures s.Emit? ==> s.entry.value * AsNumber(data.fields["hdl"]).value == AsNumber(data.fields["cholesterol"]).value
                        && s.entry.risk == RatioRisk(s.entry.value)
  {
    if !(In(data, "cholesterol") && In(data, "hdl")) then Skip
    else
      var c, h := Get(data, "cholesterol"), Get(data, "hdl");
      var cn := if c.Some? then AsNumber(c.value) else None;
      var hn := if h.Some? then AsNumber(h.value) else None;
      if cn.None? || hn.None? || hn.value == 0.0 then Fail
      else Emit(RatioMetric(cn.value / hn.value, RatioRisk(cn.value / hn.value)))
  }

  /** The diabetes metric: skipped unless `hba1c` is `in` the data; computed
      from a dict's numeric value, which it echoes; otherwise raises. */
  function DiabetesStep(data: Value): (s: Step<DiabetesMetric>)
    requires IsContainer(data)
    ensures s.Skip? <==> !In(data, "hba1c")
    ensures s.Emit? <==> data.Obj? && "hba1c" in data.fields && AsNumber(data.fields["hba1c"]).Some?
    ensures s.Emit? ==> s.entry.value == data.fields["hba1c"]
                        && s.entry.category == GlycemiaCategory(AsNumber(data.fields["hba1c"]).value)
  {
    if !In(data, "hba1c") then Skip
    else
      var v := Get(data, "hba1c");
      var n := if v.Some? then AsNumber(v.value) else None;
      if n.None? then Fail else Emit(DiabetesMetric(v.value, GlycemiaCategory(n.value)))
  }

  /** The anemia assessment: skipped unless `hemoglobin` is `in` the data;
      from a dict's numeric value it reports anemia exactly below 12.0, with
      its severity; otherwise raises. */
  function AnemiaStep(data: Value): (s: Step<AnemiaMetric>)
    requires IsContainer(data)
    ensures s.Skip? <==> !In(data, "hemoglobin")
    ensures s.Emit? <==> data.Obj? && "hemoglobin" in data.fields && AsNumber(data.fields["hemoglobin"]).Some?
    ensures s.Emit? ==> var hb := AsNumber(data.fields["hemoglobin"]).value;
                        && s.entry.hemoglobin == data.fields["hemoglobin"]
                        && (s.entry.Detected? <==> hb < 12.0)
                        && (s.entry.Detected? ==> s.entry.severity == AnemiaSeverity(hb))
  {
    if !In(data, "hemoglobin") then Skip
    else
      var v := Get(data, "hemoglobin");
      var n := if v.Some? then AsNumber(v.value) else None;
      if n.None? then Fail
      else if n.value < 12.0 then Emit(Detected(AnemiaSeverity(n.value), v.value))
      else Emit(NotDetected(v.value))
  }

  /** The blood pressure category: skipped unless `blood_pressure` is `in`
      the data; computed from a dict's `"sys/dia"` string by the ladder as the
      source writes it, with action needed unless below 120/80; a value that
      is not such a string raises. */
  function PressureStep(data: Value): (s: Step<PressureMetric>)
    requires IsContainer(data)
    ensures s.Skip? <==> !In(data, "blood_pressure")
    ensures s.Emit? <==> data.Obj? && "blood_pressure" in data.fields && data.fields["blood_pressure"].Str?
                         && ParsePressure(data.fields["blood_pressure"].s).Some?
    ensures s.Emit? ==> var (sys, dia) := ParsePressure(data.fields["blood_pressure"].s).value;
                        && s.entry.systolic == sys && s.entry.diastolic == dia
                        && s.entry.category == BpCategoryAsWritten(sys, dia)
                        && (s.entry.actionNeeded <==> !(sys < 120 && dia < 80))
  {
    if !In(data, "blood_pressure") then Skip
    else
      var v := Get(data, "blood_pressure");
      var reading := if v.Some? && v.value.Str? then ParsePressure(v.value.s) else None;
      if reading.None? then Fail
      else
        var (sys, dia) := reading.value;
        var category := BpCategoryAsWritten(sys, dia);
        Emit(PressureMetric(sys, dia, category, category != NormalBp))
  }

  /** calculate_health_metrics on a decoded document. `in` on a value that is
      not a dict, list or str raises at once; otherwise each metric whose key
      is present is computed, and any one that raises ends the call. */
  function HealthMetrics(doc: Option<Value>): Report<Metrics> {
    if doc.None? then InvalidJson
    else if !IsContainer(doc.value) then Raised
    else
      var data := doc.value;
      var r, d, a, p := RatioStep(data), DiabetesStep(data), AnemiaStep(data), PressureStep(data);
      if r.Fail? || d.Fail? || a.Fail? || p.Fail? then Raised
      else Done(Metrics(r.Present(), d.Present(), a.Present(), p.Present()))
  }

  /** Fills the metrics object one rule after another; the first rule that
      raises ends the call. */
  method CalculateHealthMetrics(doc: Option<Value>) returns (r: Report<Metrics>)
    ensures r == HealthMetrics(doc)
  {
    if doc.None? {
      return InvalidJson;
    }
    var data := doc.value;
    if !IsContainer(data) {
      return Raised;
    }
    var metrics := Metrics(None, None, None, None);
    var ratio := RatioRule(data);
    if ratio.Fail? {
      return Raised;
    }
    metrics := metrics.(ratio := ratio.Present());
    var diabetes := DiabetesRule(data);
    if diabetes.Fail? {
      return Raised;
    }
    metrics := metrics.(diabetes := diabetes.Present());
    var anemia := AnemiaRule(data);
    if anemia.Fail? {
      return Raised;
    }
    metrics := metrics.(anemia := anemia.Present());
    var pressure := PressureRule(data);
    if pressure.Fail? {
      return Raised;
    }
    metrics := metrics.(pressure := pressure.Present());
    return Done(metrics);
  }

  /** Cardiovascular risk from the cholesterol ratio. */
  method RatioRule(data: Value) returns (s: Step<RatioMetric>)
    requires IsContainer(data)
    ensures s == RatioStep(data)
  {
    if !(In(data, "cholesterol") && In(data, "hdl")) {
      return Skip;
    }
    var c, h := Get(data, "cholesterol"), Get(data, "hdl");
    if c.None? || h.None? {
      return Fail;
    }
    var cn, hn := AsNumber(c.value), AsNumber(h.value);
    if cn.None? || hn.None? || hn.value == 0.0 {
      return Fail;
    }
    var ratio := cn.value / hn.value;
    return Emit(RatioMetric(ratio, RatioRisk(ratio)));
  }

  /** Diabetes risk from HbA1c. */
  method DiabetesRule(data: Value) returns (s: Step<DiabetesMetric>)
    requires IsContainer(data)
    ensures s == DiabetesStep(data)
  {
    if !In(data, "hba1c") {
      return Skip;
    }
    var v := Get(data, "hba1c");
    if v.None? || AsNumber(v.value).None? {
      return Fail;
    }
    var hba1c := AsNumber(v.value).value;
    var category: Glycemia;
    if hba1c < 5.7 {
      category := NoDiabetes;
    } else if hba1c < 6.5 {
      category := Prediabetes;
    } else {
      category := Diabetes;
    }
    return Emit(DiabetesMetric(v.value, category));
  }

  /** Anemia assessment. */
  method AnemiaRule(data: Value) returns (s: Step<AnemiaMetric>)
    requires IsContainer(data)
    ensures s == AnemiaStep(data)
  {
    if !In(data, "hemoglobin") {
      return Skip;
    }
    var v := Get(data, "hemoglobin");
    if v.None? || AsNumber(v.value).None? {
      return Fail;
    }
    var hb := AsNumber(v.value).value;
    if hb < 12.0 {
      return Emit(Detected(AnemiaSeverity(hb), v.value));
    }
    return Emit(NotDetected(v.value));
  }

  /** Blood pressure category. */
  method PressureRule(data: Value) returns (s: Step<PressureMetric>)
    requires IsContainer(data)
    ensures s == PressureStep(data)
  {
    if !In(data, "blood_pressure") {
      return Skip;
    }
    var v := Get(data, "blood_pressure");
    if v.None? || !v.value.Str? {
      return Fail;
    }
    var reading := ParsePressure(v.value.s);
    if reading.None? {
      return Fail;
    }
    var (sys, dia) := reading.value;
    var category := BpCategoryAsWritten(sys, dia);
    return Emit(PressureMetric(sys, dia, category, category != NormalBp));
  }

  /** Action is needed exactly when the reading is not below 120/80. */
  lemma ActionNeededUnlessNormal(doc: Option<Value>)
    requires HealthMetrics(doc).Done? && HealthMetrics(doc).value.pressure.Some?
    ensures var p := HealthMetrics(doc).value.pressure.value;
            p.actionNeeded <==> !(p.systolic < 120 && p.diastolic < 80)
  {
  }

  /** The category reported agrees with the corrected ladder except on
      readings where exactly one number is in the Stage 2 range. */
  lemma PressureCategoryAgainstCorrected(doc: Option<Value>)
    requires HealthMetrics(doc).Done? && HealthMetrics(doc).value.pressure.Some?
    ensures var p := HealthMetrics(doc).value.pressure.value;
            p.category == BpCategory(p.systolic, p.diastolic) <==> (p.systolic >= 140) == (p.diastolic >= 90)
  {
    var p := HealthMetrics(doc).value.pressure.value;
    BpLaddersDisagree(p.systolic, p.diastolic);
  }

  /** Anemia is reported exactly when the hemoglobin value is below 12.0. */
  lemma AnemiaBelowTwelve(doc: Option<Value>)
    requires HealthMetrics(doc).Done? && HealthMetrics(doc).value.anemia.Some?
    ensures var a := HealthMetrics(doc).value.anemia.value;
            AsNumber(a.hemoglobin).Some? && (a.Detected? <==> AsNumber(a.hemoglobin).value < 12.0)
  {
  }

  /** A zero HDL makes the ratio divide by zero, and the whole call raises. */
  lemma ZeroHdlRaises(m: map<string, Value>, cholesterol: real)
    requires "cholesterol" in m && "hdl" in m && m["cholesterol"] == Num(cholesterol) && m["hdl"] == Num(0.0)
    ensures HealthMetrics(Some(Obj(m))) == Raised
  {
  }

  /** At exactly 5.7 the two tools disagree: the range table counts the
      HbA1c as normal, the metric as prediabetes. */
  lemma Hba1cBoundary()
    ensures RangeStep("hba1c", Num(5.7)) == Emit(Measured(Num(5.7), Normal, "0-5.7", "%"))
    ensures HealthMetrics(Some(Obj(map["hba1c" := Num(5.7)]))).value.diabetes
            == Some(DiabetesMetric(Num(5.7), Prediabetes))
  {
  }

  // ---------------------------------------------------------------------------
  // search_medical_guidelines
  // ---------------------------------------------------------------------------

  /** The knowledge base's entries, each with its key and guideline text. */
  datatype Guide = CholesterolGuide | BloodPressureGuide | DiabetesGuide | PrediabetesGuide | AnemiaGuide {
    function Key(): string {
      match this
      case CholesterolGuide => "high_cholesterol"
      case BloodPressureGuide => "high_blood_pressure"
      case DiabetesGuide => "diabetes"
      case PrediabetesGuide => "prediabetes"
      case AnemiaGuide => "anemia"
    }

    function Text(): string {
      match this
      case CholesterolGuide =>
        "\n"
        + "High Cholesterol Management Guidelines:\n"
        + "- Dietary Changes: Reduce saturated fats, increase fiber, eat more fruits/vegetables\n"
        + "- Exercise: At least 150 minutes of moderate aerobic activity per week\n"
        + "- Weight Management: Lose 5-10% of body weight if overweight\n"
        + "- Medication: Statins may be prescribed if lifestyle changes insufficient\n"
        + "- Follow-up: Retest lipid panel every 3-6 months\n"
        + "        "
      case BloodPressureGuide =>
        "\n"
        + "Hypertension Management Guidelines:\n"
        + "- Dietary: DASH diet - reduce sodium to <2,300mg/day, ideally <1,500mg/day\n"
        + "- Exercise: Regular physical activity 30 minutes most days\n"
        + "- Weight: Lose weight if BMI >25\n"
        + "- Limit Alcohol: Max 2 drinks/day for men, 1 for women\n"
        + "- Stress Management: Practice relaxation techniques\n"
        + "- Medication: May require antihypertensive drugs\n"
        + "- Monitoring: Home blood pressure monitoring recommended\n"
        + "        "
      case DiabetesGuide =>
        "\n"
        + "Diabetes Management Guidelines:\n"
        + "- Blood Sugar Monitoring: Check regularly as prescribed\n"
        + "- Diet: Carbohydrate counting, consistent meal times, fiber-rich foods\n"
        + "- Exercise: 150 minutes/week of moderate activity\n"
        + "- Medication: Metformin often first-line, insulin if needed\n"
        + "- HbA1c Goal: Generally <7% (individualized)\n"
        + "- Regular Screening: Eyes, kidneys, feet, cardiovascular risk\n"
        + "- Education: Diabetes self-management education programs\n"
        + "        "
      case PrediabetesGuide =>
        "\n"
        + "Prediabetes Prevention Guidelines:\n"
        + "- Weight Loss: 7-10% of body weight can reduce diabetes risk by 58%\n"
        + "- Exercise: 150 minutes/week moderate activity (brisk walking)\n"
        + "- Diet: Mediterranean or DASH diet, reduce processed foods\n"
        + "- Sleep: 7-9 hours per night\n"
        + "- Stress: Manage chronic stress\n"
        + "- Monitoring: Retest HbA1c annually\n"
        + "- Consider: Metformin if high risk\n"
        + "        "
      case AnemiaGuide =>
        "\n"
        + "Anemia Management Guidelines:\n"
        + "- Iron Deficiency: Iron supplementation, iron-rich foods (red meat, spinach, beans)\n"
        + "- Vitamin B12: Supplements if deficient, dietary sources (meat, fish, dairy)\n"
        + "- Folate: Leafy greens, fortified cereals\n"
        + "- Avoid: Tea/coffee with meals (reduces iron absorption)\n"
        + "- Investigation: May need endoscopy if cause unclear\n"
        + "- Follow-up: Recheck hemoglobin in 4-6 weeks\n"
        + "        "
    }
  }

  /** The knowledge base in table order. */
  const Guidelines: seq<Guide> := [CholesterolGuide, BloodPressureGuide, DiabetesGuide, PrediabetesGuide, AnemiaGuide]

  /** The entries' keys, in table order. */
  function KeysOf(table: seq<Guide>): (keys: seq<string>)
    ensures |keys| == |table|
  {
    seq(|table|, i requires 0 <= i < |table| => table[i].Key())
  }

  const GuideKeys: seq<string> := KeysOf(Guidelines)

  /** `condition.lower().replace(' ', '_')`. */
  function Normalize(condition: string): (n: string)
    ensures |n| == |condition|
    ensures forall i :: 0 <= i < |n| ==> n[i] != ' ' && !('A' <= n[i] <= 'Z')
    ensures forall i :: 0 <= i < |n| && condition[i] == ' ' ==> n[i] == '_'
    ensures forall i :: 0 <= i < |n| && condition[i] != ' ' ==> n[i] == LowerChar(condition[i])
  {
    var lower := Lower(condition);
    seq(|lower|, i requires 0 <= i < |lower| => if lower[i] == ' ' then '_' else lower[i])
  }

  /** `key in condition_lower or condition_lower in key`. */
  predicate Matches(key: string, normalized: string) {
    Contains(normalized, key) || Contains(key, normalized)
  }

  /** The index of the first key that matches, or -1. */
  function FirstMatch(keys: seq<string>, normalized: string): (i: int)
    ensures -1 <= i < |keys|
    ensures i >= 0 ==> Matches(keys[i], normalized)
    ensures i >= 0 ==> forall j :: 0 <= j < i ==> !Matches(keys[j], normalized)
    ensures i == -1 ==> forall j :: 0 <= j < |keys| ==> !Matches(keys[j], normalized)
  {
    if |keys| == 0 then -1
    else if Matches(keys[0], normalized) then 0
    else
      var k := FirstMatch(keys[1..], normalized);
      if k == -1 then -1 else k + 1
  }

  /** A key that matches with none before it is the first match. */
  lemma FirstMatchIsFirst(keys: seq<string>, normalized: string, i: int)
    requires 0 <= i < |keys| && Matches(keys[i], normalized)
    requires forall j :: 0 <= j < i ==> !Matches(keys[j], normalized)
    ensures FirstMatch(keys, normalized) == i
  {
  }

  function Fallback(condition: string): string {
    "General recommendation for " + condition
      + ": Consult with a healthcare provider for personalized medical advice and treatment plan."
  }

  /** The guideline for a condition: the first matching entry's text, or a
      general recommendation naming the condition as it was asked. */
  function Guideline(condition: string): string {
    var i := FirstMatch(GuideKeys, Normalize(condition));
    if i == -1 then Fallback(condition) else Guidelines[i].Text()
  }

  /** Walks the table in order and stops at the first entry whose key
      matches; -1 when none does. */
  method FindGuide(normalized: string) returns (k: int)
    ensures k == FirstMatch(GuideKeys, normalized)
  {
    for i := 0 to |Guidelines|
      invariant forall j :: 0 <= j < i ==> !Matches(GuideKeys[j], normalized)
    {
      var key := GuideKeys[i];
      if Contains(normalized, key) || Contains(key, normalized) {
        FirstMatchIsFirst(GuideKeys, normalized, i);
        return i;
      }
    }
    return -1;
  }

  /** search_medical_guidelines. */
  method SearchGuidelines(condition: string) returns (g: string)
    ensures g == Guideline(condition)
  {
    var conditionLower := Normalize(condition);
    var k := FindGuide(conditionLower);
    if k != -1 {
      return Guidelines[k].Text();
    }
    return Fallback(condition);
  }

  /** The empty condition is contained in every key, so it gets the first entry. */
  lemma EmptyConditionGetsFirstEntry()
    ensures FirstMatch(GuideKeys, Normalize("")) == 0
  {
    assert Normalize("") == "";
    assert GuideKeys[0][0..0] == "";
    assert Contains(GuideKeys[0], "");
  }

  /** A condition that matches no key gets the general recommendation, which
      names the condition as asked. */
  lemma UnmatchedConditionFallsBack(condition: string)
    requires forall j :: 0 <= j < |GuideKeys| ==> !Matches(GuideKeys[j], Normalize(condition))
    ensures Guideline(condition) == Fallback(condition)
    ensures Occurs(Guideline(condition), condition, |"General recommendation for "|)
  {
    var f := Fallback(condition);
    assert f[|"General recommendation for "|..|"General recommendation for "| + |condition|] == condition;
  }

  /** Case and spaces do not matter: "High Cholesterol" gets the cholesterol
      guideline. */
  lemma SpelledOutCondition()
    ensures FirstMatch(GuideKeys, Normalize("High Cholesterol")) == 0
  {
    var key := GuideKeys[0];
    assert Normalize("High Cholesterol") == key;
    assert key[0..|key|] == key;
    assert Contains(key, key);
  }
}
