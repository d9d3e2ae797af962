/**
 * The scalar part of the hydration analyser: four sub-scores (texture
 * variation, roughness, visible pores and smoothness) are averaged into a
 * 0-100 hydration score, which is then given a level and a fixed advice list.
 * The filters that measure the four inputs are not modelled.
 */
module Hydration {
  import opened Wrappers
  import opened Numeric

  /** `1 / (1 + texture_std / 20)`: a smoother texture scores closer to 1. */
  function TextureTerm(std: real): (t: real)
    requires 1.0 + std / 20.0 != 0.0
    ensures std >= 0.0 ==> 0.0 < t <= 1.0
    ensures std == 0.0 ==> t == 1.0
  {
    1.0 / (1.0 + std / 20.0)
  }

  /** `1 / (1 + roughness_mean / 30)`. */
  function RoughnessTerm(roughness: real): (t: real)
    requires 1.0 + roughness / 30.0 != 0.0
    ensures roughness >= 0.0 ==> 0.0 < t <= 1.0
    ensures roughness == 0.0 ==> t == 1.0
  {
    1.0 / (1.0 + roughness / 30.0)
  }

  /** `1 - min(1, pore_density / 0.1)`. */
  function PoreTerm(density: real): (t: real)
    ensures t >= 0.0
    ensures density >= 0.0 ==> t <= 1.0
    ensures density >= 0.1 ==> t == 0.0
    ensures density == 0.0 ==> t == 1.0
  {
    1.0 - Min(1.0, density / 0.1)
  }

  /** The sub-scores are non-increasing in what they measure. */
  lemma TermsAntitone(s1: real, s2: real, r1: real, r2: real, p1: real, p2: real)
    requires 0.0 <= s1 <= s2 && 0.0 <= r1 <= r2 && p1 <= p2
    ensures TextureTerm(s2) <= TextureTerm(s1)
    ensures RoughnessTerm(r2) <= RoughnessTerm(r1)
    ensures PoreTerm(p2) <= PoreTerm(p1)
  {
    ReciprocalAntitone(1.0 + s1 / 20.0, 1.0 + s2 / 20.0);
    ReciprocalAntitone(1.0 + r1 / 30.0, 1.0 + r2 / 30.0);
  }

  lemma ReciprocalAntitone(a: real, b: real)
    requires 0.0 < a <= b
    ensures 1.0 / b <= 1.0 / a
  {
    assert (1.0 / b) * b == 1.0 && (1.0 / a) * a == 1.0;
  }

  /**
   * `_calculate_hydration_score`; each input is the analyser's dictionary
   * entry, `None` when the key is missing (read as 0). The source divides by
   * the first two denominators, which must therefore be non-zero.
   */
  function HydrationScore(textureStd: Option<real>, roughness: Option<real>, poreDensity: Option<real>,
                          smoothness: Option<real>): (s: real)
    requires 1.0 + textureStd.GetOr(0.0) / 20.0 != 0.0 && 1.0 + roughness.GetOr(0.0) / 30.0 != 0.0
    ensures IsCents(s)
    ensures (textureStd.GetOr(0.0) >= 0.0 && roughness.GetOr(0.0) >= 0.0 && poreDensity.GetOr(0.0) >= 0.0
             && 0.0 <= smoothness.GetOr(0.0) <= 1.0) ==> 0.0 <= s <= 100.0
    ensures (textureStd.GetOr(0.0) == 0.0 && roughness.GetOr(0.0) == 0.0 && poreDensity.GetOr(0.0) == 0.0
             && smoothness.GetOr(0.0) == 1.0) ==> s == 100.0
  {
    var t := TextureTerm(textureStd.GetOr(0.0));
    var r := RoughnessTerm(roughness.GetOr(0.0));
    var p := PoreTerm(poreDensity.GetOr(0.0));
    var m := smoothness.GetOr(0.0);
    var x := (0.25 * t + 0.25 * r + 0.25 * p + 0.25 * m) * 100.0;
    if 0.0 <= x <= 100.0 then
      PyRound2Within(0.0, x, 100.0);
      PyRound2(x)
    else
      PyRound2(x)
  }

  /** Worse measurements (more texture variation, roughness or pores, less smoothness) never raise the score. */
  lemma HydrationScoreAntitone(s1: real, s2: real, r1: real, r2: real, p1: real, p2: real, m1: real, m2: real)
    requires 0.0 <= s1 <= s2 && 0.0 <= r1 <= r2 && p1 <= p2 && m2 <= m1
    ensures HydrationScore(Some(s2), Some(r2), Some(p2), Some(m2)) <= HydrationScore(Some(s1), Some(r1), Some(p1), Some(m1))
  {
    TermsAntitone(s1, s2, r1, r2, p1, p2);
    PyRound2Monotone(
      (0.25 * TextureTerm(s2) + 0.25 * RoughnessTerm(r2) + 0.25 * PoreTerm(p2) + 0.25 * m2) * 100.0,
      (0.25 * TextureTerm(s1) + 0.25 * RoughnessTerm(r1) + 0.25 * PoreTerm(p1) + 0.25 * m1) * 100.0);
  }

  datatype HydrationLevel = Excellent | WellHydrated | Normal | Dry | Dehydrated {
    function Name(): string {
      match this
      case Excellent => "excellent"
      case WellHydrated => "well_hydrated"
      case Normal => "normal"
      case Dry => "dry"
      case Dehydrated => "dehydrated"
    }
  }

  /** `_classify_hydration_level`. */
  function ClassifyHydrationLevel(score: real): (l: HydrationLevel)
    ensures l == Excellent <==> score >= 85.0
    ensures l == WellHydrated <==> 70.0 <= score < 85.0
    ensures l == Normal <==> 50.0 <= score < 70.0
    ensures l == Dry <==> 30.0 <= score < 50.0
    ensures l == Dehydrated <==> score < 30.0
  {
    if score >= 85.0 then Excellent
    else if score >= 70.0 then WellHydrated
    else if score >= 50.0 then Normal
    else if score >= 30.0 then Dry
    else Dehydrated
  }

  const DehydratedAdvice: seq<string> := [
    "Increase water intake to 8-10 glasses daily",
    "Use hyaluronic acid serum for intense hydration",
    "Apply moisturizer immediately after cleansing",
    "Consider using a humidifier in your environment",
    "Avoid hot showers and harsh cleansers"]

  const DryAdvice: seq<string> := [
    "Drink 6-8 glasses of water daily",
    "Add a hydrating toner to your routine",
    "Use products with ceramides and glycerin",
    "Apply moisturizer twice daily",
    "Consider sheet masks for extra hydration"]

  const NormalAdvice: seq<string> := [
    "Maintain current hydration routine",
    "Add a lightweight serum for extra moisture",
    "Use gentle exfoliation 1-2 times per week",
    "Monitor skin for signs of dehydration",
    "Consider seasonal adjustments to routine"]

  const HydratedAdvice: seq<string> := [
    "Excellent hydration levels!",
    "Continue current skincare routine",
    "Maintain healthy lifestyle habits",
    "Consider preventive hydration maintenance",
    "Regular skin check-ups recommended"]

  /** `_generate_hydration_recommendations`: five items, chosen by the bands below 30, below 50, below 70 and the rest. */
  method GenerateHydrationRecommendations(score: real) returns (recs: seq<string>)
    ensures |recs| == 5
    ensures score < 30.0 ==> recs == DehydratedAdvice
    ensures 30.0 <= score < 50.0 ==> recs == DryAdvice
    ensures 50.0 <= score < 70.0 ==> recs == NormalAdvice
    ensures score >= 70.0 ==> recs == HydratedAdvice
  {
    recs := [];
    if score < 30.0 {
      recs := recs + DehydratedAdvice;
    } else if score < 50.0 {
      recs := recs + DryAdvice;
    } else if score < 70.0 {
      recs := recs + NormalAdvice;
    } else {
      recs := recs + HydratedAdvice;
    }
  }
}
