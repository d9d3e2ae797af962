/**
 * The scalar part of the pore analyser: the pore-size summary, the pore
 * health sub-scores, the 0-100 pore health score with its clogging and size
 * penalties, the level and the fixed advice list. The filters that find the
 * pores and measure them are not modelled.
 */
module PoreAnalysis {
  import opened Wrappers
  import opened Numeric

  datatype SizeDistribution = Unknown | Small | Medium | Large {
    function Name(): string {
      match this
      case Unknown => "unknown"
      case Small => "small"
      case Medium => "medium"
      case Large => "large"
    }
  }

  /** The size summary; `totalPores` is absent for an empty pore list. */
  datatype PoreSizes = PoreSizes(meanArea: real, distribution: SizeDistribution, totalPores: Option<nat>)

  function SumAreas(areas: seq<real>): real {
    if areas == [] then 0.0 else SumAreas(areas[..|areas| - 1]) + areas[|areas| - 1]
  }

  /** A sum of values all below `bound` stays below `|areas| * bound`. */
  lemma {:induction false} SumBelow(areas: seq<real>, bound: real)
    requires areas != []
    requires forall i :: 0 <= i < |areas| ==> areas[i] < bound
    ensures SumAreas(areas) < |areas| as real * bound
  {
    var init := areas[..|areas| - 1];
    if init != [] {
      assert forall i :: 0 <= i < |init| ==> init[i] == areas[i];
      SumBelow(init, bound);
    }
  }

  /** A sum of values all at least `bound` is at least `|areas| * bound`. */
  lemma {:induction false} SumAtLeast(areas: seq<real>, bound: real)
    requires forall i :: 0 <= i < |areas| ==> areas[i] >= bound
    ensures SumAreas(areas) >= |areas| as real * bound
  {
    if areas != [] {
      var init := areas[..|areas| - 1];
      assert forall i :: 0 <= i < |init| ==> init[i] == areas[i];
      SumAtLeast(init, bound);
    }
  }

  function SizeClass(mean: real): (d: SizeDistribution)
    ensures d == Small <==> mean < 10.0
    ensures d == Medium <==> 10.0 <= mean < 25.0
    ensures d == Large <==> mean >= 25.0
  {
    if mean < 10.0 then Small else if mean < 25.0 then Medium else Large
  }

  /** `_analyze_pore_sizes` over the pores' areas (the standard deviation is not modelled). */
  function AnalyzePoreSizes(areas: seq<real>): (r: PoreSizes)
    ensures areas == [] ==> r == PoreSizes(0.0, Unknown, None)
    ensures areas != [] ==> r.totalPores == Some(|areas|) && r.meanArea * |areas| as real == SumAreas(areas)
    ensures areas != [] ==> r.distribution == SizeClass(r.meanArea)
  {
    if areas == [] then PoreSizes(0.0, Unknown, None)
    else
      var mean := SumAreas(areas) / |areas| as real;
      PoreSizes(mean, SizeClass(mean), Some(|areas|))
  }

  /** Pores all smaller than 10 are reported small. */
  lemma SmallPoresClassifiedSmall(areas: seq<real>)
    requires areas != []
    requires forall i :: 0 <= i < |areas| ==> areas[i] < 10.0
    ensures AnalyzePoreSizes(areas).distribution == Small
  {
    var n := |areas| as real;
    var mean := AnalyzePoreSizes(areas).meanArea;
    SumBelow(areas, 10.0);
    if mean >= 10.0 {
      MulMonotone(10.0, mean, n);
      assert false;
    }
  }

  /** Pores all at least 25 in area are reported large. */
  lemma LargePoresClassifiedLarge(areas: seq<real>)
    requires areas != []
    requires forall i :: 0 <= i < |areas| ==> areas[i] >= 25.0
    ensures AnalyzePoreSizes(areas).distribution == Large
  {
    var n := |areas| as real;
    var mean := AnalyzePoreSizes(areas).meanArea;
    SumAtLeast(areas, 25.0);
    if mean < 25.0 {
      MulPositive(25.0 - mean, n);
      assert false;
    }
  }

  /** The health sub-scores and their mean. */
  datatype PoreHealth = PoreHealth(overallHealth: real, darknessScore: real, sizeScore: real, uniformityScore: real)

  /** `1 - min(1, x / scale)`: 1 for nothing, 0 at the scale and beyond. */
  function Shortfall(x: real, scale: real): (t: real)
    requires scale > 0.0
    ensures t >= 0.0
    ensures x >= 0.0 ==> t <= 1.0
    ensures x >= scale ==> t == 0.0
    ensures x == 0.0 ==> t == 1.0
  {
    assert x >= 0.0 ==> x / scale >= 0.0 by {
      if x >= 0.0 {
        DivAtLeast(x, scale, 0.0);
      }
    }
    assert x >= scale ==> x / scale >= 1.0 by {
      if x >= scale {
        DivAtLeast(x, scale, 1.0);
      }
    }
    1.0 - Min(1.0, x / scale)
  }

  /** `_classify_pore_health`. */
  function ClassifyPoreHealth(meanDarkness: real, meanArea: real, uniformity: real): (h: PoreHealth)
    ensures meanDarkness >= 0.0 ==> 0.0 <= h.darknessScore <= 1.0
    ensures meanArea >= 0.0 ==> 0.0 <= h.sizeScore <= 1.0
    ensures h.uniformityScore == uniformity
    ensures 3.0 * h.overallHealth == h.darknessScore + h.sizeScore + h.uniformityScore
    ensures meanDarkness >= 0.0 && meanArea >= 0.0 && 0.0 <= uniformity <= 1.0 ==> 0.0 <= h.overallHealth <= 1.0
  {
    var darkness := Shortfall(meanDarkness, 50.0);
    var size := Shortfall(meanArea, 30.0);
    PoreHealth((darkness + size + uniformity) / 3.0, darkness, size, uniformity)
  }

  /** The factor the clogged ratio and the mean area leave of the health score. */
  function Penalty(clogged: real, meanArea: real): (p: real)
    ensures 0.0 <= clogged <= 1.0 && meanArea >= 0.0 ==> 0.0 <= p <= 1.0
  {
    var sizePenalty := Min(1.0, meanArea / 40.0);
    var clogFactor := 1.0 - clogged * 0.5;
    var sizeFactor := 1.0 - sizePenalty * 0.3;
    UnitProduct(clogFactor, sizeFactor);
    clogFactor * sizeFactor
  }

  lemma UnitProduct(x: real, y: real)
    ensures 0.0 <= x <= 1.0 && 0.0 <= y <= 1.0 ==> 0.0 <= x * y <= 1.0
  {
    if 0.0 <= x <= 1.0 && 0.0 <= y <= 1.0 {
      MulNonneg(x, y);
      MulNonneg(1.0 - x, y);
      assert (1.0 - x) * y == y - x * y;
    }
  }

  /** `round(max(0, v * 100), 2)`. */
  function Percent(v: real): (s: real)
    ensures IsCents(s) && s >= 0.0
    ensures v <= 1.0 ==> s <= 100.0
  {
    var x := Max(0.0, v * 100.0);
    PyRound2OfCents(0.0);
    PyRound2Monotone(0.0, x);
    if v <= 1.0 then
      PyRound2Within(0.0, x, 100.0);
      PyRound2(x)
    else
      PyRound2(x)
  }

  lemma PercentMonotone(v1: real, v2: real)
    requires v1 <= v2
    ensures Percent(v1) <= Percent(v2)
  {
    PyRound2Monotone(Max(0.0, v1 * 100.0), Max(0.0, v2 * 100.0));
  }

  /** The pore health score for a known clogged ratio. */
  function ScoreWithClogging(health: real, clogged: real, meanArea: real): (s: real)
    ensures IsCents(s) && s >= 0.0
    ensures 0.0 <= health <= 1.0 && 0.0 <= clogged <= 1.0 && meanArea >= 0.0 ==> s <= 100.0
  {
    UnitProduct(health, Penalty(clogged, meanArea));
    Percent(health * Penalty(clogged, meanArea))
  }

  /** `_calculate_pore_health_score`; a missing clogged ratio reads as 0. */
  function PoreHealthScore(health: real, clogged: Option<real>, meanArea: real): (s: real)
    ensures IsCents(s) && s >= 0.0
    ensures 0.0 <= health <= 1.0 && 0.0 <= clogged.GetOr(0.0) <= 1.0 && meanArea >= 0.0 ==> s <= 100.0
  {
    ScoreWithClogging(health, clogged.GetOr(0.0), meanArea)
  }

  /** A larger clogged ratio never increases the factor left of the health score. */
  lemma PenaltyAntitone(c1: real, c2: real, meanArea: real)
    requires c1 <= c2 && meanArea >= 0.0
    ensures Penalty(c2, meanArea) <= Penalty(c1, meanArea)
  {
    MulMonotone(1.0 - c2 * 0.5, 1.0 - c1 * 0.5, 1.0 - Min(1.0, meanArea / 40.0) * 0.3);
  }

  /** A larger clogged ratio never raises the pore health score of a non-negative health. */
  lemma PoreHealthScoreAntitone(health: real, c1: real, c2: real, meanArea: real)
    requires health >= 0.0 && c1 <= c2 && meanArea >= 0.0
    ensures PoreHealthScore(health, Some(c2), meanArea) <= PoreHealthScore(health, Some(c1), meanArea)
  {
    PenaltyAntitone(c1, c2, meanArea);
    MulMonotoneLeft(health, Penalty(c2, meanArea), Penalty(c1, meanArea));
    PercentMonotone(health * Penalty(c2, meanArea), health * Penalty(c1, meanArea));
    assert Some(c1).GetOr(0.0) == c1 && Some(c2).GetOr(0.0) == c2;
    assert ScoreWithClogging(health, c1, meanArea) == Percent(health * Penalty(c1, meanArea));
    assert ScoreWithClogging(health, c2, meanArea) == Percent(health * Penalty(c2, meanArea));
  }

  datatype PoreLevel = Excellent | Good | Moderate | Poor | Clogged {
    function Name(): string {
      match this
      case Excellent => "excellent"
      case Good => "good"
      case Moderate => "moderate"
      case Poor => "poor"
      case Clogged => "clogged"
    }
  }

  /** `_classify_pore_health_level`. */
  function ClassifyPoreHealthLevel(score: real): (l: PoreLevel)
    ensures l == Excellent <==> score >= 80.0
    ensures l == Good <==> 60.0 <= score < 80.0
    ensures l == Moderate <==> 40.0 <= score < 60.0
    ensures l == Poor <==> 20.0 <= score < 40.0
    ensures l == Clogged <==> score < 20.0
  {
    if score >= 80.0 then Excellent
    else if score >= 60.0 then Good
    else if score >= 40.0 then Moderate
    else if score >= 20.0 then Poor
    else Clogged
  }

  const CloggedAdvice: seq<string> := [
    "Consider professional extraction treatment",
    "Use salicylic acid cleanser daily",
    "Avoid heavy, pore-clogging products",
    "Consider chemical exfoliation 2-3 times per week",
    "Consult a dermatologist for severe congestion"]

  const CongestedAdvice: seq<string> := [
    "Use gentle exfoliation 2-3 times per week",
    "Switch to non-comedogenic products",
    "Add niacinamide serum to your routine",
    "Use clay masks weekly",
    "Avoid touching your face throughout the day"]

  const ModerateAdvice: seq<string> := [
    "Maintain current pore care routine",
    "Consider adding retinol for pore refinement",
    "Use gentle cleansing twice daily",
    "Monitor for any worsening of congestion",
    "Consider professional consultation if issues persist"]

  const HealthyAdvice: seq<string> := [
    "Excellent pore health!",
    "Continue current skincare routine",
    "Maintain good hygiene practices",
    "Consider preventive maintenance treatments",
    "Regular skin check-ups recommended"]

  /** `_generate_pore_recommendations`: five items, chosen by the bands below 20, below 40, below 60 and the rest. */
  method GeneratePoreRecommendations(score: real) returns (recs: seq<string>)
    ensures |recs| == 5
    ensures score < 20.0 ==> recs == CloggedAdvice
    ensures 20.0 <= score < 40.0 ==> recs == CongestedAdvice
    ensures 40.0 <= score < 60.0 ==> recs == ModerateAdvice
    ensures score >= 60.0 ==> recs == HealthyAdvice
  {
    recs := [];
    if score < 20.0 {
      recs := recs + CloggedAdvice;
    } else if score < 40.0 {
      recs := recs + CongestedAdvice;
    } else if score < 60.0 {
      recs := recs + ModerateAdvice;
    } else {
      recs := recs + HealthyAdvice;
    }
  }
}
