/**
 * The scalar part of the UV-damage analyser: the damage score combines a
 * colour-variation term, a freckle-density term and a pigmentation term into
 * a 0-100 skin-health score; a level and a fixed advice list follow from the
 * score. The image filters that produce the three inputs are not modelled.
 */
module UvDamage {
  import opened Wrappers
  import opened Numeric

  /** `min(1, variation_score / 0.1)`. */
  function ColorTerm(variation: real): (t: real)
    ensures t <= 1.0
    ensures variation >= 0.0 ==> 0.0 <= t
    ensures variation >= 0.1 ==> t == 1.0
  {
    Min(1.0, variation / 0.1)
  }

  /** `min(1, freckle_density / 0.05)`. */
  function FreckleTerm(density: real): (t: real)
    ensures t <= 1.0
    ensures density >= 0.0 ==> 0.0 <= t
    ensures density >= 0.05 ==> t == 1.0
  {
    Min(1.0, density / 0.05)
  }

  /** The weighted damage in [0, 1] for in-range terms: 0.4 colour, 0.3 freckles, 0.3 pigmentation. */
  function Damage(variation: real, freckles: real, deviation: real): (d: real)
    ensures variation >= 0.0 && freckles >= 0.0 && deviation >= 0.0 ==> d >= 0.0
    ensures variation == 0.0 && freckles == 0.0 && deviation == 0.0 ==> d == 0.0
  {
    0.4 * ColorTerm(variation) + 0.3 * FreckleTerm(freckles) + 0.3 * deviation
  }

  /** `round(max(0, 100 - damage * 100), 2)`: the damage turned into a 0-100 health score. */
  function HealthFromDamage(d: real): (s: real)
    ensures IsCents(s) && s >= 0.0
    ensures d >= 0.0 ==> s <= 100.0
    ensures d == 0.0 ==> s == 100.0
  {
    var x := Max(0.0, 100.0 - d * 100.0);
    PyRound2OfCents(0.0);
    PyRound2Monotone(0.0, x);
    if d >= 0.0 then
      PyRound2Within(0.0, x, 100.0);
      PyRound2(x)
    else
      PyRound2(x)
  }

  /**
   * `_calculate_damage_score`; each input is the analyser's dictionary entry,
   * `None` when the key is missing (read as 0). Higher is healthier.
   */
  function DamageScore(variation: Option<real>, freckles: Option<real>, deviation: Option<real>): (s: real)
    ensures IsCents(s)
    ensures s >= 0.0
    ensures variation.GetOr(0.0) >= 0.0 && freckles.GetOr(0.0) >= 0.0 && deviation.GetOr(0.0) >= 0.0 ==> s <= 100.0
    ensures variation.GetOr(0.0) == 0.0 && freckles.GetOr(0.0) == 0.0 && deviation.GetOr(0.0) == 0.0 ==> s == 100.0
  {
    HealthFromDamage(Damage(variation.GetOr(0.0), freckles.GetOr(0.0), deviation.GetOr(0.0)))
  }

  /** More damage in any input never raises the score. */
  lemma DamageScoreAntitone(v1: real, f1: real, p1: real, v2: real, f2: real, p2: real)
    requires v1 <= v2 && f1 <= f2 && p1 <= p2
    ensures DamageScore(Some(v2), Some(f2), Some(p2)) <= DamageScore(Some(v1), Some(f1), Some(p1))
  {
    assert ColorTerm(v1) <= ColorTerm(v2);
    assert FreckleTerm(f1) <= FreckleTerm(f2);
    var d1, d2 := Damage(v1, f1, p1), Damage(v2, f2, p2);
    PyRound2Monotone(Max(0.0, 100.0 - d2 * 100.0), Max(0.0, 100.0 - d1 * 100.0));
  }

  datatype DamageLevel = Excellent | Good | Moderate | Poor | Severe {
    function Name(): string {
      match this
      case Excellent => "excellent"
      case Good => "good"
      case Moderate => "moderate"
      case Poor => "poor"
      case Severe => "severe"
    }
  }

  /** `_classify_damage_level`. */
  function ClassifyDamageLevel(score: real): (l: DamageLevel)
    ensures l == Excellent <==> score >= 80.0
    ensures l == Good <==> 60.0 <= score < 80.0
    ensures l == Moderate <==> 40.0 <= score < 60.0
    ensures l == Poor <==> 20.0 <= score < 40.0
    ensures l == Severe <==> score < 20.0
  {
    if score >= 80.0 then Excellent
    else if score >= 60.0 then Good
    else if score >= 40.0 then Moderate
    else if score >= 20.0 then Poor
    else Severe
  }

  const SevereDamageAdvice: seq<string> := [
    "Consider consulting a dermatologist for professional treatment",
    "Use broad-spectrum SPF 50+ sunscreen daily",
    "Avoid peak sun hours (10 AM - 4 PM)",
    "Consider professional treatments like chemical peels or laser therapy"]

  const ModerateDamageAdvice: seq<string> := [
    "Increase sunscreen usage to SPF 30+ daily",
    "Add vitamin C serum to your routine",
    "Consider retinol products for skin renewal",
    "Wear protective clothing and hats outdoors"]

  const MildDamageAdvice: seq<string> := [
    "Maintain current sun protection habits",
    "Add antioxidants to your skincare routine",
    "Consider gentle exfoliation 2-3 times per week",
    "Monitor for any new spots or changes"]

  const NoDamageAdvice: seq<string> := [
    "Excellent sun protection habits!",
    "Continue current skincare routine",
    "Annual skin check-ups recommended",
    "Maintain healthy lifestyle habits"]

  /** `_generate_recommendations`: four items, chosen by the bands below 40, below 60, below 80 and the rest. */
  method GenerateRecommendations(score: real) returns (recs: seq<string>)
    ensures |recs| == 4
    ensures score < 40.0 ==> recs == SevereDamageAdvice
    ensures 40.0 <= score < 60.0 ==> recs == ModerateDamageAdvice
    ensures 60.0 <= score < 80.0 ==> recs == MildDamageAdvice
    ensures score >= 80.0 ==> recs == NoDamageAdvice
  {
    recs := [];
    if score < 40.0 {
      recs := recs + SevereDamageAdvice;
    } else if score < 60.0 {
      recs := recs + ModerateDamageAdvice;
    } else if score < 80.0 {
      recs := recs + MildDamageAdvice;
    } else {
      recs := recs + NoDamageAdvice;
    }
  }
}
