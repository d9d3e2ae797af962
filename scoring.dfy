/**
 * The clamp-and-weight scoring of the server pipeline: each component score
 * is 100 for a clean skin and falls linearly to 0 at a saturation point, and
 * the overall score is a fixed weighted mean of the three components.
 */
module Scoring {
  import opened Numeric

  const AcneCountWeight: real := 0.6
  const AcneAreaWeight: real := 0.4
  const AcneCountSaturation: real := 30.0
  const AcneAreaSaturation: real := 0.12
  const PigAreaSaturation: real := 25.0
  const WrinkleDensitySaturation: real := 0.08

  const AcneWeight: real := 0.45
  const PigWeight: real := 0.35
  const WrinkleWeight: real := 0.20

  /** The share of the score lost to lesions, before it is turned into a score. */
  function AcneRaw(count: int, areaNorm: real): (raw: real)
    ensures count >= 0 && areaNorm >= 0.0 ==> 0.0 <= raw <= 1.0
    ensures count as real >= AcneCountSaturation && areaNorm >= AcneAreaSaturation ==> raw == 1.0
  {
    AcneCountWeight * Min(1.0, count as real / AcneCountSaturation)
      + AcneAreaWeight * Min(1.0, areaNorm / AcneAreaSaturation)
  }

  /** `acne_score(count, area_norm)`. */
  function AcneScore(count: int, areaNorm: real): (r: real)
    ensures IsCents(r)
    ensures count >= 0 && areaNorm >= 0.0 ==> 0.0 <= r <= 100.0
    ensures count as real >= AcneCountSaturation && areaNorm >= AcneAreaSaturation ==> r == 0.0
    ensures count == 0 && areaNorm == 0.0 ==> r == 100.0
  {
    var raw := AcneRaw(count, areaNorm);
    if count >= 0 && areaNorm >= 0.0 then
      PyRound2Within(0.0, 100.0 * (1.0 - raw), 100.0);
      PyRound2(100.0 * (1.0 - raw))
    else
      PyRound2(100.0 * (1.0 - raw))
  }

  /** `pig_score(area_pct)`. */
  function PigScore(areaPct: real): (r: real)
    ensures IsCents(r)
    ensures areaPct == 0.0 ==> r == 100.0
    ensures areaPct >= PigAreaSaturation ==> r == 0.0
    ensures areaPct >= 0.0 ==> 0.0 <= r <= 100.0
  {
    var x := 100.0 * (1.0 - Min(1.0, areaPct / PigAreaSaturation));
    if areaPct >= 0.0 then
      PyRound2Within(0.0, x, 100.0);
      PyRound2(x)
    else
      PyRound2(x)
  }

  /** `wrinkle_score(density)`. */
  function WrinkleScore(density: real): (r: real)
    ensures IsCents(r)
    ensures density == 0.0 ==> r == 100.0
    ensures density >= WrinkleDensitySaturation ==> r == 0.0
    ensures density >= 0.0 ==> 0.0 <= r <= 100.0
  {
    var x := 100.0 * (1.0 - Min(1.0, density / WrinkleDensitySaturation));
    if density >= 0.0 then
      PyRound2Within(0.0, x, 100.0);
      PyRound2(x)
    else
      PyRound2(x)
  }

  /** The weighted mean behind `overall`, before rounding: the weights sum to one. */
  function WeightedMean(acne: real, pig: real, wrinkle: real): (m: real)
    ensures Min(acne, Min(pig, wrinkle)) <= m <= Max(acne, Max(pig, wrinkle))
  {
    assert AcneWeight + PigWeight + WrinkleWeight == 1.0;
    AcneWeight * acne + PigWeight * pig + WrinkleWeight * wrinkle
  }

  /** `overall(acne, pig, wrinkle)` with the default weights. */
  function Overall(acne: real, pig: real, wrinkle: real): (r: real)
    ensures IsCents(r)
    ensures acne == pig == wrinkle && IsCents(acne) ==> r == acne
  {
    if acne == pig == wrinkle && IsCents(acne) then
      assert WeightedMean(acne, pig, wrinkle) == acne;
      PyRound2OfCents(acne);
      PyRound2(WeightedMean(acne, pig, wrinkle))
    else
      PyRound2(WeightedMean(acne, pig, wrinkle))
  }

  /** Rounded component scores give an overall score between the smallest and the largest of them. */
  lemma OverallBetweenComponents(acne: real, pig: real, wrinkle: real)
    requires IsCents(acne) && IsCents(pig) && IsCents(wrinkle)
    ensures Min(acne, Min(pig, wrinkle)) <= Overall(acne, pig, wrinkle) <= Max(acne, Max(pig, wrinkle))
  {
    PyRound2Within(Min(acne, Min(pig, wrinkle)), WeightedMean(acne, pig, wrinkle), Max(acne, Max(pig, wrinkle)));
  }

  /** Overall lies in [0, 100] whenever the three component scores do. */
  lemma OverallInRange(acne: real, pig: real, wrinkle: real)
    requires IsCents(acne) && IsCents(pig) && IsCents(wrinkle)
    requires 0.0 <= acne <= 100.0 && 0.0 <= pig <= 100.0 && 0.0 <= wrinkle <= 100.0
    ensures 0.0 <= Overall(acne, pig, wrinkle) <= 100.0
  {
    OverallBetweenComponents(acne, pig, wrinkle);
  }

  /** More lesions, or a larger lesion area, never raise the acne score. */
  lemma AcneScoreAntitone(c1: int, a1: real, c2: int, a2: real)
    requires c1 <= c2 && a1 <= a2
    ensures AcneScore(c2, a2) <= AcneScore(c1, a1)
  {
    assert Min(1.0, c1 as real / AcneCountSaturation) <= Min(1.0, c2 as real / AcneCountSaturation);
    assert Min(1.0, a1 / AcneAreaSaturation) <= Min(1.0, a2 / AcneAreaSaturation);
    PyRound2Monotone(100.0 * (1.0 - AcneRaw(c2, a2)), 100.0 * (1.0 - AcneRaw(c1, a1)));
  }

  /** A larger pigmented area never raises the pigmentation score. */
  lemma PigScoreAntitone(a1: real, a2: real)
    requires a1 <= a2
    ensures PigScore(a2) <= PigScore(a1)
  {
    assert Min(1.0, a1 / PigAreaSaturation) <= Min(1.0, a2 / PigAreaSaturation);
    PyRound2Monotone(100.0 * (1.0 - Min(1.0, a2 / PigAreaSaturation)), 100.0 * (1.0 - Min(1.0, a1 / PigAreaSaturation)));
  }

  /** A higher wrinkle density never raises the wrinkle score. */
  lemma WrinkleScoreAntitone(d1: real, d2: real)
    requires d1 <= d2
    ensures WrinkleScore(d2) <= WrinkleScore(d1)
  {
    assert Min(1.0, d1 / WrinkleDensitySaturation) <= Min(1.0, d2 / WrinkleDensitySaturation);
    PyRound2Monotone(100.0 * (1.0 - Min(1.0, d2 / WrinkleDensitySaturation)), 100.0 * (1.0 - Min(1.0, d1 / WrinkleDensitySaturation)));
  }

  /** Better component scores never lower the overall score. */
  lemma OverallMonotone(a1: real, p1: real, w1: real, a2: real, p2: real, w2: real)
    requires a1 <= a2 && p1 <= p2 && w1 <= w2
    ensures Overall(a1, p1, w1) <= Overall(a2, p2, w2)
  {
    PyRound2Monotone(WeightedMean(a1, p1, w1), WeightedMean(a2, p2, w2));
  }
}
