/**
 * Score assembly of the server pipeline: every acne detection is attributed
 * to the first face region whose mask covers the centre of its box, lesion
 * areas are summed, the component scores are computed from these totals and
 * a per-region report is built. Image reading, preprocessing, the detector,
 * the pigmentation and wrinkle masks and the overlay images are outside the
 * model: their numeric outputs are inputs here.
 */
module Pipeline {
  import opened Wrappers
  import opened Numeric
  import opened Scoring
  import opened RegionMasks

  /** An acne detection: the corners of its box. */
  datatype Detection = Detection(x1: int, y1: int, x2: int, y2: int)

  datatype Scores = Scores(acne: real, pigmentation: real, wrinkles: real, overall: real)

  /** One entry of the `regions` report. */
  datatype RegionReport = RegionReport(key: string, acneCount: int, pigAreaPct: Option<real>, wrinkleDensity: real)

  /** Paths of the three overlay images written into the run directory. */
  datatype Overlays = Overlays(acne: string, pigmentation: string, wrinkles: string)

  datatype PipelineResult = PipelineResult(scores: Scores, regions: seq<RegionReport>, overlays: Overlays)

  /** The regions that get the global pigmented-area percentage in the report. */
  const PigmentedKeys: seq<string> := ["cheek_left", "cheek_right", "forehead", "nose", "chin"]

  const AreaEpsilon: real := 0.000001

  /** Integer centre of a detection box (floor division). */
  function CentreX(d: Detection): int { (d.x1 + d.x2) / 2 }
  function CentreY(d: Detection): int { (d.y1 + d.y2) / 2 }

  /** Index of the first mask covering (cx, cy); `|masks|` when none does. */
  function FirstHit(masks: seq<(Region, Rect)>, width: int, height: int, cx: int, cy: int): (k: nat)
    ensures k <= |masks|
    ensures k < |masks| ==> MaskContains(masks[k].1, width, height, cx, cy)
    ensures forall j :: 0 <= j < k ==> !MaskContains(masks[j].1, width, height, cx, cy)
  {
    if masks == [] then 0
    else if MaskContains(masks[0].1, width, height, cx, cy) then 0
    else 1 + FirstHit(masks[1..], width, height, cx, cy)
  }

  /** The region index a detection is attributed to (`|masks|`: none). */
  function HitOf(d: Detection, masks: seq<(Region, Rect)>, width: int, height: int): nat {
    FirstHit(masks, width, height, CentreX(d), CentreY(d))
  }

  function Zeros(n: nat): (s: seq<int>)
    ensures |s| == n && forall i :: 0 <= i < n ==> s[i] == 0
  {
    if n == 0 then [] else Zeros(n - 1) + [0]
  }

  /** Adds one to entry `k`, if there is such an entry. */
  function Bump(s: seq<int>, k: nat): seq<int> {
    if k < |s| then s[k := s[k] + 1] else s
  }

  /** Per-region detection counts after the detections in `dets`, in order. */
  function Counts(dets: seq<Detection>, masks: seq<(Region, Rect)>, width: int, height: int): (c: seq<int>)
    ensures |c| == |masks|
  {
    if dets == [] then Zeros(|masks|)
    else Bump(Counts(dets[..|dets| - 1], masks, width, height), HitOf(dets[|dets| - 1], masks, width, height))
  }

  /** The number of detections attributed to some region. */
  function Attributed(dets: seq<Detection>, masks: seq<(Region, Rect)>, width: int, height: int): nat {
    if dets == [] then 0
    else
      var last := if HitOf(dets[|dets| - 1], masks, width, height) < |masks| then 1 else 0;
      Attributed(dets[..|dets| - 1], masks, width, height) + last
  }

  /** The box area `(x2 - x1) * (y2 - y1)`. */
  function Area(d: Detection): int { (d.x2 - d.x1) * (d.y2 - d.y1) }

  /** Sum of the detection box areas. */
  function LesionArea(dets: seq<Detection>): int {
    if dets == [] then 0 else LesionArea(dets[..|dets| - 1]) + Area(dets[|dets| - 1])
  }

  function Sum(s: seq<int>): int {
    if s == [] then 0 else Sum(s[..|s| - 1]) + s[|s| - 1]
  }

  function SumReal(s: seq<real>): real {
    if s == [] then 0.0 else SumReal(s[..|s| - 1]) + s[|s| - 1]
  }

  lemma {:induction false} SumZeros(n: nat)
    ensures Sum(Zeros(n)) == 0
  {
    if n > 0 {
      assert Zeros(n)[..n - 1] == Zeros(n - 1);
      SumZeros(n - 1);
    }
  }

  lemma {:induction false} SumBump(s: seq<int>, k: nat)
    ensures Sum(Bump(s, k)) == Sum(s) + (if k < |s| then 1 else 0)
  {
    if k < |s| {
      var n := |s|;
      var t := s[k := s[k] + 1];
      if k == n - 1 {
        assert t[..n - 1] == s[..n - 1];
      } else {
        assert t[..n - 1] == s[..n - 1][k := s[k] + 1];
        SumBump(s[..n - 1], k);
      }
    }
  }

  /** The total count is the number of attributed detections: each detection adds to at most one region. */
  lemma {:induction false} CountTotal(dets: seq<Detection>, masks: seq<(Region, Rect)>, width: int, height: int)
    ensures Sum(Counts(dets, masks, width, height)) == Attributed(dets, masks, width, height) <= |dets|
  {
    if dets == [] {
      SumZeros(|masks|);
    } else {
      var init := dets[..|dets| - 1];
      CountTotal(init, masks, width, height);
      SumBump(Counts(init, masks, width, height), HitOf(dets[|dets| - 1], masks, width, height));
    }
  }

  /** A detection adds one to the count of the region it is attributed to, and nothing elsewhere. */
  lemma CountsStep(dets: seq<Detection>, d: Detection, masks: seq<(Region, Rect)>, width: int, height: int, k: nat)
    requires k < |masks|
    ensures Counts(dets + [d], masks, width, height)[k]
         == Counts(dets, masks, width, height)[k] + (if HitOf(d, masks, width, height) == k then 1 else 0)
  {
    assert (dets + [d])[..|dets|] == dets;
  }

  /** The first covering mask is the only index with no covering mask before it and a covering mask at it. */
  lemma FirstHitAt(masks: seq<(Region, Rect)>, width: int, height: int, cx: int, cy: int, k: nat)
    requires k <= |masks|
    requires forall j :: 0 <= j < k ==> !MaskContains(masks[j].1, width, height, cx, cy)
    requires k < |masks| ==> MaskContains(masks[k].1, width, height, cx, cy)
    ensures FirstHit(masks, width, height, cx, cy) == k
  {
  }

  /** The inner loop: scans the masks in order and stops at the first one covering (cx, cy). */
  method FindRegion(masks: seq<(Region, Rect)>, width: int, height: int, cx: int, cy: int) returns (j: nat)
    ensures j == FirstHit(masks, width, height, cx, cy)
  {
    j := 0;
    while j < |masks|
      invariant 0 <= j <= |masks|
      invariant forall jj :: 0 <= jj < j ==> !MaskContains(masks[jj].1, width, height, cx, cy)
    {
      if MaskContains(masks[j].1, width, height, cx, cy) {
        break;
      }
      j := j + 1;
    }
    FirstHitAt(masks, width, height, cx, cy, j);
  }

  /** Extending the prefix of detections by one: the counts and the area take that detection's step. */
  lemma PrefixStep(dets: seq<Detection>, i: nat, masks: seq<(Region, Rect)>, width: int, height: int)
    requires i < |dets|
    ensures Counts(dets[..i + 1], masks, width, height)
         == Bump(Counts(dets[..i], masks, width, height), HitOf(dets[i], masks, width, height))
    ensures LesionArea(dets[..i + 1]) == LesionArea(dets[..i]) + Area(dets[i])
  {
    assert dets[..i + 1][..i] == dets[..i];
  }

  /**
   * The detection loop: attributes each detection to the first region (in mask
   * order) whose mask covers its centre, and sums the lesion areas.
   */
  method AttributeDetections(dets: seq<Detection>, masks: seq<(Region, Rect)>, width: int, height: int)
    returns (regionCounts: seq<int>, lesionArea: int)
    ensures regionCounts == Counts(dets, masks, width, height)
    ensures lesionArea == LesionArea(dets)
  {
    regionCounts := Zeros(|masks|);
    lesionArea := 0;
    var i := 0;
    while i < |dets|
      invariant 0 <= i <= |dets|
      invariant regionCounts == Counts(dets[..i], masks, width, height)
      invariant lesionArea == LesionArea(dets[..i])
    {
      var d := dets[i];
      PrefixStep(dets, i, masks, width, height);
      lesionArea := lesionArea + Area(d);
      var j := FindRegion(masks, width, height, CentreX(d), CentreY(d));
      if j < |masks| {
        regionCounts := regionCounts[j := regionCounts[j] + 1];
      }
      i := i + 1;
    }
    assert dets[..i] == dets;
  }

  function Mean(s: seq<real>): real
    requires |s| > 0
  {
    SumReal(s) / |s| as real
  }

  /** The four scores from the attributed counts, lesion area and the image measurements. */
  function PipelineScores(regionCounts: seq<int>, lesionArea: int, totalArea: real, pigAreaPct: real, densities: seq<real>): (s: Scores)
    requires |densities| > 0
    requires totalArea >= 0.0
  {
    var acne := AcneScore(Sum(regionCounts), lesionArea as real / (totalArea + AreaEpsilon));
    var pig := PigScore(pigAreaPct);
    var wrinkles := WrinkleScore(Mean(densities));
    Scores(acne, pig, wrinkles, Overall(acne, pig, wrinkles))
  }

  /** Non-negative measurements give four scores in [0, 100], overall between the other three. */
  lemma PipelineScoresInRange(regionCounts: seq<int>, lesionArea: int, totalArea: real, pigAreaPct: real, densities: seq<real>)
    requires |densities| > 0 && totalArea >= 0.0
    requires Sum(regionCounts) >= 0 && lesionArea >= 0 && pigAreaPct >= 0.0 && Mean(densities) >= 0.0
    ensures var s := PipelineScores(regionCounts, lesionArea, totalArea, pigAreaPct, densities);
      && 0.0 <= s.acne <= 100.0 && 0.0 <= s.pigmentation <= 100.0 && 0.0 <= s.wrinkles <= 100.0
      && Min(s.acne, Min(s.pigmentation, s.wrinkles)) <= s.overall <= Max(s.acne, Max(s.pigmentation, s.wrinkles))
  {
    var areaNorm := lesionArea as real / (totalArea + AreaEpsilon);
    DivAtLeast(lesionArea as real, totalArea + AreaEpsilon, 0.0);
    var acne := AcneScore(Sum(regionCounts), areaNorm);
    var pig := PigScore(pigAreaPct);
    var wrinkles := WrinkleScore(Mean(densities));
    assert PipelineScores(regionCounts, lesionArea, totalArea, pigAreaPct, densities)
        == Scores(acne, pig, wrinkles, Overall(acne, pig, wrinkles));
    OverallBetweenComponents(acne, pig, wrinkles);
  }

  /** The report entry of one region. */
  function ReportEntry(r: Region, count: int, pigAreaPct: real, density: real): RegionReport {
    RegionReport(r.Key(), count, if r.Key() in PigmentedKeys then Some(PyRound2(pigAreaPct)) else None, PyRound4(density))
  }

  /** The `regions` report: one entry per mask, in mask order. */
  method BuildRegionsReport(masks: seq<(Region, Rect)>, regionCounts: seq<int>, pigAreaPct: real, densities: seq<real>)
    returns (report: seq<RegionReport>)
    requires |regionCounts| == |masks| == |densities|
    ensures |report| == |masks|
    ensures forall i :: 0 <= i < |masks| ==>
      report[i].key == masks[i].0.Key() && report[i].acneCount == regionCounts[i]
      && report[i].pigAreaPct == Some(PyRound2(pigAreaPct))
      && report[i].wrinkleDensity == PyRound4(densities[i])
  {
    report := [];
    for i := 0 to |masks|
      invariant |report| == i
      invariant forall j :: 0 <= j < i ==> report[j] == ReportEntry(masks[j].0, regionCounts[j], pigAreaPct, densities[j])
    {
      report := report + [ReportEntry(masks[i].0, regionCounts[i], pigAreaPct, densities[i])];
    }
  }

  function OverlayPaths(runDir: string): Overlays {
    Overlays(runDir + "/acne_overlay.png", runDir + "/pigmentation_overlay.png", runDir + "/wrinkles_overlay.png")
  }

  /**
   * `run_pipeline`: fails when the image cannot be read; otherwise cuts the
   * regions from the landmark box, attributes the detections and assembles
   * scores, the regions report and the overlay paths.
   */
  method RunPipeline(imageRead: bool, bbox: Box, width: int, height: int, dets: seq<Detection>,
                     totalArea: real, pigAreaPct: real, densities: seq<real>, runDir: string)
    returns (result: Result<PipelineResult>)
    requires totalArea >= 0.0 && |densities| == 5
    ensures !imageRead ==> result == Err("Failed to read image")
    ensures imageRead ==> result.Ok?
    ensures result.Ok? ==>
      var masks := CoarseRegions(bbox, width, height);
      var counts := Counts(dets, masks, width, height);
      && result.value.scores == PipelineScores(counts, LesionArea(dets), totalArea, pigAreaPct, densities)
      && |result.value.regions| == 5
      && (forall i :: 0 <= i < 5 ==>
            && result.value.regions[i].key == RegionOrder[i].Key()
            && result.value.regions[i].acneCount == counts[i]
            && result.value.regions[i].pigAreaPct == Some(PyRound2(pigAreaPct))
            && result.value.regions[i].wrinkleDensity == PyRound4(densities[i]))
      && result.value.overlays == OverlayPaths(runDir)
  {
    if !imageRead {
      return Err("Failed to read image");
    }
    var masks := CoarseRegions(bbox, width, height);
    var counts, lesionArea := AttributeDetections(dets, masks, width, height);
    var scores := PipelineScores(counts, lesionArea, totalArea, pigAreaPct, densities);
    var regions := BuildRegionsReport(masks, counts, pigAreaPct, densities);
    result := Ok(PipelineResult(scores, regions, OverlayPaths(runDir)));
  }
}
