/**
 * The rule-based insight engine: detectors look for asymmetry between the
 * cheeks, a side-sleeping signature, lifestyle signals, early signs, unusual
 * patterns and a comparative band; generators turn their findings into
 * candidate insights; candidates are scored and the best one is selected,
 * with a default insight when nothing was found; follow-up advice is attached.
 * Insight texts, supporting evidence lines and the unused template tables are
 * presentation and are not modelled.
 */
module Insights {
  import opened Wrappers
  import opened Numeric

  /** A region metric as found in the analysis results: missing key, `None`, or a number. */
  datatype Field = Absent | Null | Num(value: real)

  /** Python's `value or 0` for a present key, and `.get(key, 0) or 0`. */
  function OrZero(f: Field): (v: real)
    ensures f.Num? ==> v == f.value
    ensures !f.Num? ==> v == 0.0
  {
    if f.Num? then f.value else 0.0
  }

  datatype RegionData = RegionData(acneCount: Field, pigAreaPct: Field, wrinkleDensity: Field)

  /**
   * The analysis results the engine reads. `regions` is the region dictionary
   * in insertion order. For the nested pore and texture dictionaries, `None`
   * means the inner dictionary is missing and `Some(None)` that it lacks the key.
   */
  datatype AnalysisResults = AnalysisResults(
    regions: Option<seq<(string, RegionData)>>,
    hydrationScore: Option<real>,
    uvDamageScore: Option<real>,
    poreUniformity: Option<Option<real>>,
    textureEntropy: Option<Option<real>>,
    acneScore: Option<real>,
    pigmentationScore: Option<real>,
    wrinklesScore: Option<real>)

  /** Dictionary lookup in a region list. */
  function Lookup(rs: seq<(string, RegionData)>, key: string): (r: Option<RegionData>)
    ensures r.Some? <==> exists i :: 0 <= i < |rs| && rs[i].0 == key
    ensures r.Some? ==> (key, r.value) in rs
  {
    if rs == [] then None
    else if rs[0].0 == key then Some(rs[0].1)
    else Lookup(rs[1..], key)
  }

  /** Both cheeks, when the results hold a region dictionary with both cheek keys. */
  function Cheeks(results: AnalysisResults): (c: Option<(RegionData, RegionData)>)
    ensures c.Some? <==> results.regions.Some?
                         && Lookup(results.regions.value, "cheek_left").Some?
                         && Lookup(results.regions.value, "cheek_right").Some?
  {
    if results.regions.None? then None
    else
      var l := Lookup(results.regions.value, "cheek_left");
      var r := Lookup(results.regions.value, "cheek_right");
      if l.Some? && r.Some? then Some((l.value, r.value)) else None
  }

  // ---------------------------------------------------------------- asymmetry

  datatype Metric = AcneCount | PigAreaPct | WrinkleDensity {
    function Key(): string {
      match this
      case AcneCount => "acne_count"
      case PigAreaPct => "pig_area_pct"
      case WrinkleDensity => "wrinkle_density"
    }
    function Of(d: RegionData): Field {
      match this
      case AcneCount => d.acneCount
      case PigAreaPct => d.pigAreaPct
      case WrinkleDensity => d.wrinkleDensity
    }
  }

  /** The metrics compared between the cheeks, in comparison order. */
  const Metrics: seq<Metric> := [AcneCount, PigAreaPct, WrinkleDensity]

  datatype Side = Left | Right {
    function Name(): string {
      match this
      case Left => "left"
      case Right => "right"
    }
  }

  /** An asymmetry record: the cheek values, the relative difference in percent and the larger side. */
  datatype AsymmetryEntry = AsymmetryEntry(metric: Metric, left: real, right: real, difference: real, side: Side) {
    /** The key the record is stored under, such as `left_cheek_acne_count`. */
    function Key(): string {
      side.Name() + "_cheek_" + metric.Key()
    }
  }

  /** `(a - b) / max(a, 1) * 100` lies in (0, 100] when a > b >= 0. */
  lemma RelativeDifferenceBounds(a: real, b: real)
    requires a > b >= 0.0
    ensures 0.0 < (a - b) / Max(a, 1.0) * 100.0 <= 100.0
  {
    var m := Max(a, 1.0);
    assert 0.0 < a - b <= m;
  }

  /** The asymmetry record of one metric, if both cheeks carry it and their values differ. */
  function AsymmetryFor(m: Metric, left: RegionData, right: RegionData): (e: Option<AsymmetryEntry>)
    ensures e.Some? <==> m.Of(left) != Absent && m.Of(right) != Absent && OrZero(m.Of(left)) != OrZero(m.Of(right))
    ensures e.Some? ==> && e.value.metric == m
                        && e.value.left == OrZero(m.Of(left)) && e.value.right == OrZero(m.Of(right))
                        && (e.value.side == Left <==> e.value.left > e.value.right)
    ensures e.Some? && e.value.left >= 0.0 && e.value.right >= 0.0 ==> 0.0 < e.value.difference <= 100.0
  {
    if m.Of(left) == Absent || m.Of(right) == Absent then None
    else
      var l, r := OrZero(m.Of(left)), OrZero(m.Of(right));
      if l == 0.0 && r == 0.0 then None
      else if l > r then
        (if r >= 0.0 then RelativeDifferenceBounds(l, r); Some(AsymmetryEntry(m, l, r, (l - r) / Max(l, 1.0) * 100.0, Left))
         else Some(AsymmetryEntry(m, l, r, (l - r) / Max(l, 1.0) * 100.0, Left)))
      else if r > l then
        (if l >= 0.0 then RelativeDifferenceBounds(r, l); Some(AsymmetryEntry(m, l, r, (r - l) / Max(r, 1.0) * 100.0, Right))
         else Some(AsymmetryEntry(m, l, r, (r - l) / Max(r, 1.0) * 100.0, Right)))
      else None
  }

  /** The asymmetry records of the metrics `ms`, in order. */
  function CollectAsymmetry(ms: seq<Metric>, left: RegionData, right: RegionData): (es: seq<AsymmetryEntry>)
    ensures |es| <= |ms|
    ensures forall e :: e in es ==> e.metric in ms && AsymmetryFor(e.metric, left, right) == Some(e)
    ensures forall m :: m in ms && AsymmetryFor(m, left, right).Some? ==> AsymmetryFor(m, left, right).value in es
  {
    if ms == [] then []
    else
      var m := ms[|ms| - 1];
      var e := AsymmetryFor(m, left, right);
      var rest := CollectAsymmetry(ms[..|ms| - 1], left, right);
      assert forall x :: x in ms ==> x in ms[..|ms| - 1] || x == m;
      if e.Some? then rest + [e.value] else rest
  }

  /** `_detect_asymmetry`, as a value. */
  function AsymmetryEntries(results: AnalysisResults): seq<AsymmetryEntry> {
    match Cheeks(results)
    case None => []
    case Some((l, r)) => CollectAsymmetry(Metrics, l, r)
  }

  /** Asymmetry is only reported when both cheeks are present, and then for exactly the metrics whose values differ. */
  lemma AsymmetryCharacterised(results: AnalysisResults)
    ensures Cheeks(results).None? ==> AsymmetryEntries(results) == []
    ensures Cheeks(results).Some? ==>
      var (l, r) := Cheeks(results).value;
      forall m :: m in Metrics ==>
        ((exists e :: e in AsymmetryEntries(results) && e.metric == m)
         <==> m.Of(l) != Absent && m.Of(r) != Absent && OrZero(m.Of(l)) != OrZero(m.Of(r)))
  {
    if Cheeks(results).Some? {
      var (l, r) := Cheeks(results).value;
      forall m | m in Metrics
        ensures (exists e :: e in AsymmetryEntries(results) && e.metric == m)
                <==> m.Of(l) != Absent && m.Of(r) != Absent && OrZero(m.Of(l)) != OrZero(m.Of(r))
      {
        if AsymmetryFor(m, l, r).Some? {
          assert AsymmetryFor(m, l, r).value in AsymmetryEntries(results);
        }
      }
    }
  }

  /** `_detect_asymmetry`: compares the cheeks metric by metric. */
  method DetectAsymmetry(results: AnalysisResults) returns (entries: seq<AsymmetryEntry>)
    ensures entries == AsymmetryEntries(results)
  {
    entries := [];
    var cheeks := Cheeks(results);
    if cheeks.None? {
      return;
    }
    var (l, r) := cheeks.value;
    for i := 0 to |Metrics|
      invariant entries == CollectAsymmetry(Metrics[..i], l, r)
    {
      assert Metrics[..i + 1][..i] == Metrics[..i];
      var e := AsymmetryFor(Metrics[i], l, r);
      if e.Some? {
        entries := entries + [e.value];
      }
    }
    assert Metrics[..|Metrics|] == Metrics;
  }

  // ------------------------------------------------------------ sleep pattern

  /** A side-sleeping signature: the side with denser wrinkles, the relative excess in percent, and a confidence. */
  datatype SleepEntry = SleepEntry(position: Side, excessPct: real, confidence: real)

  /** `_detect_sleep_patterns`. */
  function SleepPattern(results: AnalysisResults): (s: Option<SleepEntry>)
    ensures s.Some? <==> Cheeks(results).Some?
                         && Abs(OrZero(Cheeks(results).value.0.wrinkleDensity) - OrZero(Cheeks(results).value.1.wrinkleDensity)) > 0.01
    ensures s.Some? ==> (s.value.position == Left
                         <==> OrZero(Cheeks(results).value.0.wrinkleDensity) > OrZero(Cheeks(results).value.1.wrinkleDensity))
    ensures s.Some? ==> 0.1 < s.value.confidence <= 0.9
  {
    match Cheeks(results)
    case None => None
    case Some((ld, rd)) =>
      var l, r := OrZero(ld.wrinkleDensity), OrZero(rd.wrinkleDensity);
      var gap := Abs(l - r);
      if gap > 0.01 then
        var confidence := Min(0.9, gap * 10.0);
        if l > r then Some(SleepEntry(Left, (l - r) / Max(l, 0.001) * 100.0, confidence))
        else Some(SleepEntry(Right, (r - l) / Max(r, 0.001) * 100.0, confidence))
      else None
  }

  // ---------------------------------------------------------------- lifestyle

  datatype Status = NeedsImprovement | Excellent

  /** A lifestyle signal: the factor (`hydration` or `sun_protection`), its status and the score behind it. */
  datatype LifestyleEntry = LifestyleEntry(factor: string, status: Status, score: real)

  /** `_detect_lifestyle_patterns`: the hydration signal, then the sun-protection signal. */
  function LifestylePatterns(results: AnalysisResults): (es: seq<LifestyleEntry>)
    ensures (exists e :: e in es && e.factor == "hydration") <==>
              results.hydrationScore.Some? && (results.hydrationScore.value < 50.0 || results.hydrationScore.value > 80.0)
    ensures (exists e :: e in es && e.factor == "sun_protection") <==>
              results.uvDamageScore.Some? && results.uvDamageScore.value < 60.0
    ensures forall e :: e in es && e.factor == "hydration" ==>
              e.score == results.hydrationScore.value && (e.status == Excellent <==> e.score > 80.0)
    ensures forall e :: e in es && e.factor == "sun_protection" ==>
              e.score == results.uvDamageScore.value && e.status == NeedsImprovement
    ensures forall e :: e in es ==> e.factor == "hydration" || e.factor == "sun_protection"
  {
    var hydration :=
      match results.hydrationScore
      case None => []
      case Some(h) =>
        if h < 50.0 then [LifestyleEntry("hydration", NeedsImprovement, h)]
        else if h > 80.0 then [LifestyleEntry("hydration", Excellent, h)]
        else [];
    var sun :=
      match results.uvDamageScore
      case None => []
      case Some(u) => if u < 60.0 then [LifestyleEntry("sun_protection", NeedsImprovement, u)] else [];
    hydration + sun
  }

  // -------------------------------------------------------------- early signs

  datatype Concern = Wrinkles | Pigmentation {
    /** The suffix of the record key, which is also the concern's name in the insight. */
    function Name(): string {
      match this
      case Wrinkles => "wrinkles"
      case Pigmentation => "pigmentation"
    }
    function Threshold(): real {
      match this
      case Wrinkles => 0.02
      case Pigmentation => 5.0
    }
    function Of(d: RegionData): Field {
      match this
      case Wrinkles => d.wrinkleDensity
      case Pigmentation => d.pigAreaPct
    }
  }

  /** An early sign: the region, the concern and the value that crossed the threshold. */
  datatype EarlySign = EarlySign(region: string, concern: Concern, value: real) {
    function Key(): string { region + "_" + concern.Name() }
  }

  /** Comparing `None` with a number raises: the engine needs numeric (or missing) region metrics. */
  predicate NumericMetrics(rs: seq<(string, RegionData)>) {
    forall i :: 0 <= i < |rs| ==> rs[i].1.wrinkleDensity != Null && rs[i].1.pigAreaPct != Null
  }

  /** The early sign of one region for one concern (a missing metric reads as 0). */
  function SignOf(c: Concern, region: (string, RegionData)): (s: Option<EarlySign>)
    requires c.Of(region.1) != Null
    ensures s.Some? <==> c.Of(region.1).Num? && c.Of(region.1).value > c.Threshold()
    ensures s.Some? ==> s.value == EarlySign(region.0, c, c.Of(region.1).value)
  {
    match c.Of(region.1)
    case Num(v) => if v > c.Threshold() then Some(EarlySign(region.0, c, v)) else None
    case Absent => None
  }

  /** The early signs of concern `c` over the regions, in region order. */
  function SignsFor(c: Concern, rs: seq<(string, RegionData)>): (signs: seq<EarlySign>)
    requires NumericMetrics(rs)
    ensures |signs| <= |rs|
    ensures forall s :: s in signs ==> s.concern == c && s.value > c.Threshold()
                                       && exists i :: 0 <= i < |rs| && SignOf(c, rs[i]) == Some(s)
    ensures forall i :: 0 <= i < |rs| && SignOf(c, rs[i]).Some? ==> SignOf(c, rs[i]).value in signs
  {
    if rs == [] then []
    else
      var init := rs[..|rs| - 1];
      assert NumericMetrics(init) by {
        forall i | 0 <= i < |init| ensures init[i] == rs[i] { }
      }
      var rest := SignsFor(c, init);
      var s := SignOf(c, rs[|rs| - 1]);
      assert forall x :: x in rest ==> exists i :: 0 <= i < |rs| && SignOf(c, rs[i]) == Some(x) by {
        forall x | x in rest ensures exists i :: 0 <= i < |rs| && SignOf(c, rs[i]) == Some(x) {
          var i :| 0 <= i < |init| && SignOf(c, init[i]) == Some(x);
          assert rs[i] == init[i];
        }
      }
      assert forall i :: 0 <= i < |init| && SignOf(c, rs[i]).Some? ==> SignOf(c, rs[i]).value in rest by {
        forall i | 0 <= i < |init| && SignOf(c, rs[i]).Some? ensures SignOf(c, rs[i]).value in rest {
          assert rs[i] == init[i];
        }
      }
      if s.Some? then rest + [s.value] else rest
  }

  /** `_detect_early_signs`: all wrinkle signs, then all pigmentation signs. */
  function EarlySigns(results: AnalysisResults): seq<EarlySign>
    requires results.regions.Some? ==> NumericMetrics(results.regions.value)
  {
    match results.regions
    case None => []
    case Some(rs) => SignsFor(Wrinkles, rs) + SignsFor(Pigmentation, rs)
  }

  /** `_detect_early_signs`: two passes over the regions. */
  method DetectEarlySigns(results: AnalysisResults) returns (signs: seq<EarlySign>)
    requires results.regions.Some? ==> NumericMetrics(results.regions.value)
    ensures signs == EarlySigns(results)
  {
    signs := [];
    if results.regions.None? {
      return;
    }
    var rs := results.regions.value;
    var wrinkles := CollectSigns(Wrinkles, rs);
    var pigmentation := CollectSigns(Pigmentation, rs);
    signs := wrinkles + pigmentation;
  }

  /** One pass of `_detect_early_signs` over the regions for concern `c`. */
  method CollectSigns(c: Concern, rs: seq<(string, RegionData)>) returns (signs: seq<EarlySign>)
    requires NumericMetrics(rs)
    ensures signs == SignsFor(c, rs)
  {
    signs := [];
    for i := 0 to |rs|
      invariant NumericMetrics(rs[..i])
      invariant signs == SignsFor(c, rs[..i])
    {
      assert rs[..i + 1][..i] == rs[..i];
      var s := SignOf(c, rs[i]);
      if s.Some? {
        signs := signs + [s.value];
      }
    }
    assert rs[..|rs|] == rs;
  }

  // ---------------------------------------------------------- unique patterns

  /** An unusual pattern: `pore_distribution` (with its uniformity) or `texture_complexity` (with its entropy). */
  datatype UniqueEntry = UniqueEntry(pattern: string, value: real)

  /** `_detect_unique_patterns`: a missing uniformity or entropy key reads as 0. */
  function UniquePatterns(results: AnalysisResults): (es: seq<UniqueEntry>)
    ensures (exists e :: e in es && e.pattern == "pore_distribution") <==>
              results.poreUniformity.Some? && results.poreUniformity.value.GetOr(0.0) < 0.3
    ensures (exists e :: e in es && e.pattern == "texture_complexity") <==>
              results.textureEntropy.Some? && results.textureEntropy.value.GetOr(0.0) > 3.0
    ensures forall e :: e in es ==> e.pattern == "pore_distribution" || e.pattern == "texture_complexity"
  {
    var pores :=
      match results.poreUniformity
      case None => []
      case Some(u) => if u.GetOr(0.0) < 0.3 then [UniqueEntry("pore_distribution", u.GetOr(0.0))] else [];
    var texture :=
      match results.textureEntropy
      case None => []
      case Some(t) => if t.GetOr(0.0) > 3.0 then [UniqueEntry("texture_complexity", t.GetOr(0.0))] else [];
    pores + texture
  }

  // ---------------------------------------------------------- comparative data

  datatype ComparativeEntry = ComparativeEntry(aboveAverage: bool, score: real)

  /** `_generate_comparative_data`: needs all three score keys; weights 0.4/0.3/0.3; above 80 or below 50. */
  function ComparativeData(results: AnalysisResults): (c: Option<ComparativeEntry>)
    ensures c.Some? ==> results.acneScore.Some? && results.pigmentationScore.Some? && results.wrinklesScore.Some?
    ensures c.Some? ==> c.value.score == 0.4 * results.acneScore.value + 0.3 * results.pigmentationScore.value
                                        + 0.3 * results.wrinklesScore.value
    ensures c.Some? ==> (c.value.aboveAverage <==> c.value.score > 80.0) && (!c.value.aboveAverage <==> c.value.score < 50.0)
    ensures results.acneScore.Some? && results.pigmentationScore.Some? && results.wrinklesScore.Some? ==>
              (c.None? <==> 50.0 <= 0.4 * results.acneScore.value + 0.3 * results.pigmentationScore.value
                                    + 0.3 * results.wrinklesScore.value <= 80.0)
  {
    if results.acneScore.Some? && results.pigmentationScore.Some? && results.wrinklesScore.Some? then
      var s := results.acneScore.value * 0.4 + results.pigmentationScore.value * 0.3 + results.wrinklesScore.value * 0.3;
      if s > 80.0 then Some(ComparativeEntry(true, s))
      else if s < 50.0 then Some(ComparativeEntry(false, s))
      else None
    else None
  }

  // ------------------------------------------------------------------ insights

  /** The metric a default insight talks about. */
  datatype ScoreMetric = AcneMetric | PigmentationMetric | WrinklesMetric {
    /** `best_metric.replace('_score', '').title()`. */
    function Name(): string {
      match this
      case AcneMetric => "Acne"
      case PigmentationMetric => "Pigmentation"
      case WrinklesMetric => "Wrinkles"
    }
  }

  datatype Band = ExcellentBand | GoodBand | AttentionBand

  /** Which sentence the default insight uses. */
  datatype DefaultText = Praise(metric: ScoreMetric, band: Band) | NoScores

  /** A candidate insight; the variant is its `type`. Texts are not modelled. */
  datatype Insight =
    | AsymmetryInsight(data: AsymmetryEntry, confidence: real)
    | SleepInsight(sleep: SleepEntry, confidence: real)
    | LifestyleInsight(factor: string, excellent: bool, confidence: real)
    | EarlyWarningInsight(sign: EarlySign, confidence: real)
    | UniquePatternInsight(pattern: string, confidence: real)
    | ComparativeInsight(comparison: ComparativeEntry, confidence: real)
    | GeneralInsight(text: DefaultText, confidence: real)
  {
    /** The `type` field. */
    function Kind(): string {
      match this
      case AsymmetryInsight(_, _) => "asymmetry"
      case SleepInsight(_, _) => "sleep_patterns"
      case LifestyleInsight(_, _, _) => "lifestyle"
      case EarlyWarningInsight(_, _) => "early_warning"
      case UniquePatternInsight(_, _) => "unique_pattern"
      case ComparativeInsight(_, _) => "comparative"
      case GeneralInsight(_, _) => "general"
    }

    /** Whether the insight carries a `data` or an `evidence` field. */
    predicate Specific() {
      AsymmetryInsight? || SleepInsight?
    }
  }

  /** The confidences the generators assign, by type. */
  predicate Generated(ins: Insight) {
    match ins
    case AsymmetryInsight(e, c) => e.difference > 10.0 && c == Min(0.9, e.difference / 100.0)
    case SleepInsight(_, c) => 0.1 < c <= 0.9
    case LifestyleInsight(_, excellent, c) => c == (if excellent then 0.9 else 0.8)
    case EarlyWarningInsight(_, c) => c == 0.7
    case UniquePatternInsight(_, c) => c == 0.8
    case ComparativeInsight(e, c) => c == (if e.aboveAverage then 0.85 else 0.8)
    case GeneralInsight(_, c) => c == 0.7
  }

  /** `_generate_asymmetry_insights`: records with a difference above 10 percent, in order. */
  function AsymmetryInsights(es: seq<AsymmetryEntry>): (ins: seq<Insight>)
    ensures forall i :: i in ins ==> i.AsymmetryInsight? && Generated(i) && i.data in es
    ensures forall e :: e in es && e.difference > 10.0 ==> AsymmetryInsight(e, Min(0.9, e.difference / 100.0)) in ins
  {
    if es == [] then []
    else
      var e := es[0];
      var rest := AsymmetryInsights(es[1..]);
      assert forall x :: x in es ==> x == e || x in es[1..];
      if e.difference > 10.0 then [AsymmetryInsight(e, Min(0.9, e.difference / 100.0))] + rest else rest
  }

  /** `_generate_sleep_insights`. */
  function SleepInsights(s: Option<SleepEntry>): (ins: seq<Insight>)
    requires s.Some? ==> 0.1 < s.value.confidence <= 0.9
    ensures s.None? ==> ins == []
    ensures s.Some? ==> ins == [SleepInsight(s.value, s.value.confidence)] && Generated(ins[0])
  {
    if s.Some? then [SleepInsight(s.value, s.value.confidence)] else []
  }

  /** `_generate_lifestyle_insights`: 0.8 for a factor to improve, 0.9 for an excellent one. */
  function LifestyleInsights(es: seq<LifestyleEntry>): (ins: seq<Insight>)
    ensures |ins| == |es|
    ensures forall k :: 0 <= k < |es| ==>
              ins[k].LifestyleInsight? && ins[k].factor == es[k].factor
              && ins[k].excellent == (es[k].status == Excellent) && Generated(ins[k])
  {
    if es == [] then []
    else
      var e := es[0];
      [LifestyleInsight(e.factor, e.status == Excellent, if e.status == Excellent then 0.9 else 0.8)]
        + LifestyleInsights(es[1..])
  }

  /** `_generate_early_warning_insights`: one insight of confidence 0.7 per sign. */
  function EarlyWarningInsights(signs: seq<EarlySign>): (ins: seq<Insight>)
    ensures |ins| == |signs|
    ensures forall k :: 0 <= k < |signs| ==> ins[k] == EarlyWarningInsight(signs[k], 0.7) && Generated(ins[k])
  {
    if signs == [] then [] else [EarlyWarningInsight(signs[0], 0.7)] + EarlyWarningInsights(signs[1..])
  }

  /** `_generate_unique_pattern_insights`: one insight of confidence 0.8 per pattern. */
  function UniquePatternInsights(es: seq<UniqueEntry>): (ins: seq<Insight>)
    ensures |ins| == |es|
    ensures forall k :: 0 <= k < |es| ==> ins[k] == UniquePatternInsight(es[k].pattern, 0.8) && Generated(ins[k])
  {
    if es == [] then [] else [UniquePatternInsight(es[0].pattern, 0.8)] + UniquePatternInsights(es[1..])
  }

  /** `_generate_comparative_insights`: 0.85 above average, 0.8 below. */
  function ComparativeInsights(c: Option<ComparativeEntry>): (ins: seq<Insight>)
    ensures c.None? ==> ins == []
    ensures c.Some? ==> |ins| == 1 && ins[0].ComparativeInsight? && ins[0].comparison == c.value && Generated(ins[0])
  {
    match c
    case None => []
    case Some(e) => [ComparativeInsight(e, if e.aboveAverage then 0.85 else 0.8)]
  }

  /** The candidate list `generate_surprising_insight` builds, in generator order. */
  function Candidates(results: AnalysisResults): (cs: seq<Insight>)
    requires results.regions.Some? ==> NumericMetrics(results.regions.value)
    ensures forall c :: c in cs ==> Generated(c)
  {
    AsymmetryInsights(AsymmetryEntries(results))
      + SleepInsights(SleepPattern(results))
      + LifestyleInsights(LifestylePatterns(results))
      + EarlyWarningInsights(EarlySigns(results))
      + UniquePatternInsights(UniquePatterns(results))
      + ComparativeInsights(ComparativeData(results))
  }

  // ----------------------------------------------------------------- selection

  /** `_score_insight`. */
  function ScoreInsight(ins: Insight): (s: real)
    ensures ins.AsymmetryInsight? || ins.SleepInsight? ==> s == 0.4 * ins.confidence + 0.5
    ensures ins.EarlyWarningInsight? || ins.UniquePatternInsight? ==> s == 0.4 * ins.confidence + 0.3
    ensures ins.LifestyleInsight? || ins.ComparativeInsight? || ins.GeneralInsight? ==> s == 0.4 * ins.confidence
  {
    var relevance := if ins.Kind() in {"asymmetry", "sleep_patterns"} then 0.3 else 0.0;
    var surprise := if ins.Kind() in {"unique_pattern", "early_warning"} then 0.3 else 0.0;
    var specificity := if ins.Specific() then 0.2 else 0.0;
    ins.confidence * 0.4 + relevance + surprise + specificity
  }

  /** Insights about the face itself (asymmetry, sleep, early signs, unusual patterns). */
  predicate FaceSpecific(ins: Insight) {
    ins.AsymmetryInsight? || ins.SleepInsight? || ins.EarlyWarningInsight? || ins.UniquePatternInsight?
  }

  /** Every face-specific candidate outscores every lifestyle, comparative or general insight. */
  lemma FaceSpecificOutranks(a: Insight, b: Insight)
    requires Generated(a) && Generated(b)
    requires FaceSpecific(a) && !FaceSpecific(b)
    ensures ScoreInsight(a) > ScoreInsight(b)
  {
    assert ScoreInsight(a) > 0.54;
    assert ScoreInsight(b) <= 0.36;
  }

  /** Candidate `i` has the highest score and every earlier candidate a strictly lower one. */
  predicate IsFirstMaximum(cands: seq<Insight>, i: int) {
    && 0 <= i < |cands|
    && (forall j :: 0 <= j < |cands| ==> ScoreInsight(cands[j]) <= ScoreInsight(cands[i]))
    && (forall j :: 0 <= j < i ==> ScoreInsight(cands[j]) < ScoreInsight(cands[i]))
  }

  /** The score bands of the best metric in the default insight. */
  function BandOf(score: real): (b: Band)
    ensures b == ExcellentBand <==> score > 80.0
    ensures b == GoodBand <==> 60.0 < score <= 80.0
    ensures b == AttentionBand <==> score <= 60.0
  {
    if score > 80.0 then ExcellentBand else if score > 60.0 then GoodBand else AttentionBand
  }

  /** `max(scores, key=scores.get)` over the present scores: the first metric with the highest score. */
  function BestMetric(acne: Option<real>, pig: Option<real>, wrinkles: Option<real>): (b: Option<(ScoreMetric, real)>)
    ensures b.None? <==> acne.None? && pig.None? && wrinkles.None?
    ensures b.Some? ==> (b.value.0 == AcneMetric ==> acne == Some(b.value.1))
                        && (b.value.0 == PigmentationMetric ==> pig == Some(b.value.1))
                        && (b.value.0 == WrinklesMetric ==> wrinkles == Some(b.value.1))
    ensures b.Some? ==> (acne.Some? ==> acne.value <= b.value.1)
                        && (pig.Some? ==> pig.value <= b.value.1)
                        && (wrinkles.Some? ==> wrinkles.value <= b.value.1)
    ensures b.Some? && b.value.0 != AcneMetric && acne.Some? ==> acne.value < b.value.1
    ensures b.Some? && b.value.0 == WrinklesMetric && pig.Some? ==> pig.value < b.value.1
  {
    var first: Option<(ScoreMetric, real)> := if acne.Some? then Some((AcneMetric, acne.value)) else None;
    var second := if pig.Some? && (first.None? || pig.value > first.value.1) then Some((PigmentationMetric, pig.value)) else first;
    if wrinkles.Some? && (second.None? || wrinkles.value > second.value.1) then Some((WrinklesMetric, wrinkles.value)) else second
  }

  /** `_generate_default_insight`: praise or advice about the best of the three scores, confidence 0.7. */
  function DefaultInsight(results: AnalysisResults): (ins: Insight)
    ensures ins.GeneralInsight? && Generated(ins)
    ensures ins.text == NoScores <==> results.acneScore.None? && results.pigmentationScore.None? && results.wrinklesScore.None?
  {
    match BestMetric(results.acneScore, results.pigmentationScore, results.wrinklesScore)
    case None => GeneralInsight(NoScores, 0.7)
    case Some((m, s)) => GeneralInsight(Praise(m, BandOf(s)), 0.7)
  }

  /** `_select_best_insight`: the default insight without candidates, else the first candidate of highest score. */
  method SelectBestInsight(cands: seq<Insight>, results: AnalysisResults) returns (best: Insight)
    ensures |cands| == 0 ==> best == DefaultInsight(results)
    ensures |cands| > 0 ==> exists i :: IsFirstMaximum(cands, i) && best == cands[i]
  {
    if |cands| == 0 {
      return DefaultInsight(results);
    }
    var bi := 0;
    var bs := ScoreInsight(cands[0]);
    for i := 1 to |cands|
      invariant 0 <= bi < i && bs == ScoreInsight(cands[bi])
      invariant forall j :: 0 <= j < i ==> ScoreInsight(cands[j]) <= bs
      invariant forall j :: 0 <= j < bi ==> ScoreInsight(cands[j]) < bs
    {
      var s := ScoreInsight(cands[i]);
      if s > bs {
        bi, bs := i, s;
      }
    }
    best := cands[bi];
    assert IsFirstMaximum(cands, bi);
  }

  /** When some face-specific candidate exists, the selected insight is face-specific too. */
  lemma SelectedIsFaceSpecific(cands: seq<Insight>, i: int, j: int)
    requires forall c :: c in cands ==> Generated(c)
    requires IsFirstMaximum(cands, i)
    requires 0 <= j < |cands| && FaceSpecific(cands[j])
    ensures FaceSpecific(cands[i])
  {
    if !FaceSpecific(cands[i]) {
      FaceSpecificOutranks(cands[j], cands[i]);
    }
  }

  // -------------------------------------------------------------- follow-ups

  const GeneralFollowUps: seq<string> := [
    "Schedule a follow-up analysis in 4-6 weeks",
    "Track your progress with regular self-assessments",
    "Consider professional consultation for personalized advice"]

  const AsymmetryFollowUps: seq<string> := [
    "Consider sleeping on your back to reduce facial asymmetry",
    "Use targeted treatments on the more affected side",
    "Monitor for changes in asymmetry over time"]

  const SleepFollowUps: seq<string> := [
    "Try sleeping on your back to reduce side-sleeping effects",
    "Use silk pillowcases to minimize friction",
    "Consider facial massage to improve circulation"]

  const EarlyWarningFollowUps: seq<string> := [
    "Start preventive treatments early",
    "Increase sun protection in affected areas",
    "Consider professional consultation for treatment options"]

  function LifestyleFollowUps(factor: string): seq<string> {
    ["Focus on improving your " + factor + " habits",
     "Set specific goals for lifestyle improvements",
     "Track progress over time"]
  }

  /** The advice specific to an insight's type (empty for the other types). */
  function TypeFollowUps(ins: Insight): (recs: seq<string>)
    ensures |recs| == 3 <==> ins.AsymmetryInsight? || ins.SleepInsight? || ins.EarlyWarningInsight? || ins.LifestyleInsight?
    ensures |recs| == 0 <==> ins.UniquePatternInsight? || ins.ComparativeInsight? || ins.GeneralInsight?
  {
    match ins
    case AsymmetryInsight(_, _) => AsymmetryFollowUps
    case SleepInsight(_, _) => SleepFollowUps
    case EarlyWarningInsight(_, _) => EarlyWarningFollowUps
    case LifestyleInsight(factor, _, _) => LifestyleFollowUps(factor)
    case _ => []
  }

  /** `_generate_follow_up_recommendations`. */
  function FollowUps(ins: Insight): (recs: seq<string>)
    ensures |recs| >= 3 && recs[|recs| - 3..] == GeneralFollowUps
    ensures |recs| == 6 <==> ins.AsymmetryInsight? || ins.SleepInsight? || ins.EarlyWarningInsight? || ins.LifestyleInsight?
    ensures |recs| == 3 <==> ins.UniquePatternInsight? || ins.ComparativeInsight? || ins.GeneralInsight?
    ensures ins.LifestyleInsight? ==> recs[0] == "Focus on improving your " + ins.factor + " habits"
  {
    var specific := TypeFollowUps(ins);
    assert (specific + GeneralFollowUps)[|specific|..] == GeneralFollowUps;
    specific + GeneralFollowUps
  }

  // --------------------------------------------------------------- the report

  /** The engine's answer; the supporting evidence lines are not modelled. */
  datatype InsightReport = InsightReport(insight: Insight, followUps: seq<string>, insightType: string, confidence: real)

  /** `generate_surprising_insight`. */
  method GenerateSurprisingInsight(results: AnalysisResults) returns (report: InsightReport)
    requires results.regions.Some? ==> NumericMetrics(results.regions.value)
    ensures Candidates(results) == [] ==> report.insight == DefaultInsight(results)
    ensures Candidates(results) != [] ==>
              exists i :: IsFirstMaximum(Candidates(results), i) && report.insight == Candidates(results)[i]
    ensures Generated(report.insight)
    ensures report.followUps == FollowUps(report.insight)
    ensures report.insightType == report.insight.Kind() && report.confidence == report.insight.confidence
  {
    var asymmetry := DetectAsymmetry(results);
    var early := DetectEarlySigns(results);
    var candidates := AsymmetryInsights(asymmetry)
      + SleepInsights(SleepPattern(results))
      + LifestyleInsights(LifestylePatterns(results))
      + EarlyWarningInsights(early)
      + UniquePatternInsights(UniquePatterns(results))
      + ComparativeInsights(ComparativeData(results));
    assert candidates == Candidates(results);
    var selected := SelectBestInsight(candidates, results);
    if |candidates| > 0 {
      ghost var i :| IsFirstMaximum(candidates, i) && selected == candidates[i];
      assert selected in candidates;
    }
    report := InsightReport(selected, FollowUps(selected), selected.Kind(), selected.confidence);
  }
}
