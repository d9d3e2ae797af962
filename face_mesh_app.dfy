/**
 * The face-mesh demo app: a single pass over the RGBA bytes of a face crop
 * counts reddish and dark pixels and turns the counts into scores, severity
 * bands and a grade; the crop box is the landmarks' extent padded by 20
 * pixels and clipped to the 640 x 480 frame; captured photos are kept
 * newest first and deleted by id. Camera, canvas and face model are
 * inputs: the pixel bytes, the keypoints and the photo records are given.
 */
module FaceMeshApp {
  import opened Wrappers
  import opened Numeric

  // ---------------------------------------------------------------------------
  // The pixel pass

  /** Red + green + blue of pixel `j` of an RGBA byte buffer (three times its brightness). */
  function Channels(data: seq<int>, j: nat): int
    requires 4 * j + 3 < |data|
  {
    data[4 * j] + data[4 * j + 1] + data[4 * j + 2]
  }

  /** A reddish pixel: red exceeds green and blue by more than 20, brightness above 80. */
  predicate IsRedSpot(data: seq<int>, j: nat)
    requires 4 * j + 3 < |data|
  {
    var r, g, b := data[4 * j], data[4 * j + 1], data[4 * j + 2];
    r > g + 20 && r > b + 20 && r + g + b > 240
  }

  /** The channel sums of the first `n` pixels: three times the running brightness total. */
  function BrightnessSum(data: seq<int>, n: nat): int
    requires 4 * n <= |data|
  {
    if n == 0 then 0 else BrightnessSum(data, n - 1) + Channels(data, n - 1)
  }

  /**
   * A dark pixel: brightness below 0.7 times the running brightness total up
   * to and including this pixel (a total, not a mean), and channel sum below 150.
   */
  predicate IsDarkSpot(data: seq<int>, j: nat)
    requires 4 * j + 3 < |data|
  {
    10 * Channels(data, j) < 7 * BrightnessSum(data, j + 1) && Channels(data, j) < 150
  }

  function RedCount(data: seq<int>, n: nat): (c: nat)
    requires 4 * n <= |data|
    ensures c <= n
  {
    if n == 0 then 0 else RedCount(data, n - 1) + (if IsRedSpot(data, n - 1) then 1 else 0)
  }

  function DarkCount(data: seq<int>, n: nat): (c: nat)
    requires 4 * n <= |data|
    ensures c <= n
  {
    if n == 0 then 0 else DarkCount(data, n - 1) + (if IsDarkSpot(data, n - 1) then 1 else 0)
  }

  /** The floating-point tests of the loop agree with the integer forms above. */
  lemma BrightnessTests(s: int, total: int)
    ensures (s as real / 3.0 > 80.0) <==> s > 240
    ensures (s as real / 3.0 < (total as real / 3.0) * 0.7) <==> 10 * s < 7 * total
  {
  }

  /**
   * The `analyzeSkin` loop over the RGBA bytes: counts the red and the dark
   * pixels and the pixels, and returns the brightness total before it is
   * divided into an average.
   */
  method AnalyzePixels(data: array<int>) returns (redSpots: nat, darkSpots: nat, totalPixels: nat, avgBrightness: real)
    requires data.Length % 4 == 0
    ensures totalPixels == data.Length / 4
    ensures redSpots == RedCount(data[..], totalPixels)
    ensures darkSpots == DarkCount(data[..], totalPixels)
    ensures avgBrightness == BrightnessSum(data[..], totalPixels) as real / 3.0
  {
    redSpots, darkSpots, totalPixels, avgBrightness := 0, 0, 0, 0.0;
    var i := 0;
    while i < data.Length
      invariant 0 <= i <= data.Length && i == 4 * totalPixels
      invariant redSpots == RedCount(data[..], totalPixels)
      invariant darkSpots == DarkCount(data[..], totalPixels)
      invariant avgBrightness == BrightnessSum(data[..], totalPixels) as real / 3.0
    {
      var r, g, b := data[i], data[i + 1], data[i + 2];
      var brightness := (r + g + b) as real / 3.0;
      avgBrightness := avgBrightness + brightness;
      assert Channels(data[..], totalPixels) == r + g + b;
      BrightnessTests(r + g + b, BrightnessSum(data[..], totalPixels + 1));
      if r > g + 20 && r > b + 20 && brightness > 80.0 {
        redSpots := redSpots + 1;
      }
      if brightness < avgBrightness * 0.7 && r + g + b < 150 {
        darkSpots := darkSpots + 1;
      }
      totalPixels := totalPixels + 1;
      i := i + 4;
    }
  }

  /** The first pixel is never dark: the running total then is its own brightness. */
  lemma FirstPixelNeverDark(data: seq<int>)
    requires 4 <= |data|
    requires data[0] >= 0 && data[1] >= 0 && data[2] >= 0
    ensures !IsDarkSpot(data, 0)
  {
    assert BrightnessSum(data, 1) == Channels(data, 0);
  }

  /** In a raster whose pixels all have channel sum `c`, the running total after `n` pixels is `n * c`. */
  lemma {:induction false} UniformSum(data: seq<int>, n: nat, c: int)
    requires 4 * n <= |data|
    requires forall j :: 0 <= j < n ==> Channels(data, j) == c
    ensures BrightnessSum(data, n) == n * c
  {
    if n > 0 {
      UniformSum(data, n - 1, c);
    }
  }

  /**
   * Because the test compares against a running total, a raster of one
   * uniform dark shade counts every pixel but the first as a dark spot.
   */
  lemma {:induction false} UniformDarkRaster(data: seq<int>, n: nat, c: int)
    requires 1 <= n && 4 * n <= |data|
    requires 0 < c < 150
    requires forall j :: 0 <= j < n ==> Channels(data, j) == c
    ensures DarkCount(data, n) == n - 1
  {
    UniformSum(data, n, c);
    if n == 1 {
      assert BrightnessSum(data, 1) == c;
      assert !IsDarkSpot(data, 0);
    } else {
      UniformDarkRaster(data, n - 1, c);
      UniformSum(data, n, c);
      assert 10 * c < 7 * (n * c) by {
        assert n * c >= 2 * c;
      }
      assert IsDarkSpot(data, n - 1);
    }
  }

  // ---------------------------------------------------------------------------
  // Scores, bands and the analysis record

  /** `min(100, 10 * acnePercentage)`. */
  function AcneScore(redSpots: nat, totalPixels: nat): (s: real)
    requires totalPixels > 0
    ensures 0.0 <= s <= 100.0
    ensures redSpots == 0 ==> s == 0.0
  {
    var ratio := redSpots as real / totalPixels as real;
    MulNonneg(ratio, 1000.0);
    Min(100.0, ratio * 100.0 * 10.0)
  }

  /** `min(100, 15 * hyperpigmentationPercentage)`. */
  function PigmentationScore(darkSpots: nat, totalPixels: nat): (s: real)
    requires totalPixels > 0
    ensures 0.0 <= s <= 100.0
    ensures darkSpots == 0 ==> s == 0.0
  {
    var ratio := darkSpots as real / totalPixels as real;
    MulNonneg(ratio, 1500.0);
    Min(100.0, ratio * 100.0 * 15.0)
  }

  /** `max(0, 100 - (acne + pigmentation) / 2)`. */
  function OverallScore(acne: real, pigmentation: real): (s: real)
    ensures s >= 0.0
    ensures acne >= 0.0 && pigmentation >= 0.0 ==> s <= 100.0
    ensures 0.0 <= acne <= 100.0 && 0.0 <= pigmentation <= 100.0 ==> s == 100.0 - (acne + pigmentation) / 2.0
  {
    Max(0.0, 100.0 - (acne + pigmentation) / 2.0)
  }

  /** More red pixels in the same raster never lower the acne score. */
  lemma AcneScoreMonotone(red1: nat, red2: nat, totalPixels: nat)
    requires totalPixels > 0 && red1 <= red2
    ensures AcneScore(red1, totalPixels) <= AcneScore(red2, totalPixels)
  {
    var t := totalPixels as real;
    assert red1 as real / t <= red2 as real / t;
    MulMonotone(red1 as real / t, red2 as real / t, 1000.0);
  }

  /** More dark pixels in the same raster never lower the pigmentation score. */
  lemma PigmentationScoreMonotone(dark1: nat, dark2: nat, totalPixels: nat)
    requires totalPixels > 0 && dark1 <= dark2
    ensures PigmentationScore(dark1, totalPixels) <= PigmentationScore(dark2, totalPixels)
  {
    var t := totalPixels as real;
    assert dark1 as real / t <= dark2 as real / t;
    MulMonotone(dark1 as real / t, dark2 as real / t, 1500.0);
  }

  datatype SpotSeverity = Minimal | Mild | Moderate | Severe {
    function Name(): string {
      match this
      case Minimal => "Minimal"
      case Mild => "Mild"
      case Moderate => "Moderate"
      case Severe => "Severe"
    }
  }

  /** Four bands split at the three thresholds; a NaN score (`None`) fails every test and lands in `Severe`. */
  function SpotBand(score: Option<real>, t1: real, t2: real, t3: real): (s: SpotSeverity)
    requires t1 < t2 < t3
    ensures score.None? ==> s == Severe
    ensures score.Some? ==>
      && (s == Minimal <==> score.value < t1)
      && (s == Mild <==> t1 <= score.value < t2)
      && (s == Moderate <==> t2 <= score.value < t3)
      && (s == Severe <==> score.value >= t3)
  {
    match score
    case None => Severe
    case Some(v) => if v < t1 then Minimal else if v < t2 then Mild else if v < t3 then Moderate else Severe
  }

  function AcneSeverity(score: Option<real>): SpotSeverity {
    SpotBand(score, 20.0, 40.0, 60.0)
  }

  function PigmentationSeverity(score: Option<real>): SpotSeverity {
    SpotBand(score, 15.0, 30.0, 50.0)
  }

  datatype Grade = Excellent | Good | Fair | NeedsAttention {
    function Name(): string {
      match this
      case Excellent => "Excellent"
      case Good => "Good"
      case Fair => "Fair"
      case NeedsAttention => "Needs Attention"
    }
  }

  /** Grades above 80, 60 and 40; a NaN score gets `Needs Attention`. */
  function GradeOf(score: Option<real>): (g: Grade)
    ensures score.None? ==> g == NeedsAttention
    ensures score.Some? ==>
      && (g == Excellent <==> score.value > 80.0)
      && (g == Good <==> 60.0 < score.value <= 80.0)
      && (g == Fair <==> 40.0 < score.value <= 60.0)
      && (g == NeedsAttention <==> score.value <= 40.0)
  {
    match score
    case None => NeedsAttention
    case Some(v) => if v > 80.0 then Excellent else if v > 60.0 then Good else if v > 40.0 then Fair else NeedsAttention
  }

  /** The analysis record; a score that is NaN (no pixels) is `None`. */
  datatype SkinAnalysis = SkinAnalysis(
    acneScore: Option<int>, acneSeverity: SpotSeverity, acneSpots: int,
    pigmentationScore: Option<int>, pigmentationSeverity: SpotSeverity, pigmentationSpots: int,
    overallScore: Option<int>, grade: Grade, avgBrightness: Option<int>)

  function RoundOpt(x: Option<real>): (r: Option<int>)
    ensures r.Some? <==> x.Some?
    ensures x.Some? ==> x.value - 0.5 < r.value as real <= x.value + 0.5
  {
    match x
    case None => None
    case Some(v) => Some(JsRound(v))
  }

  /** The raw scores, `None` when there are no pixels (0 / 0 is NaN). */
  function RawScores(redSpots: nat, darkSpots: nat, totalPixels: nat): (s: (Option<real>, Option<real>, Option<real>))
    ensures totalPixels == 0 <==> s.0.None?
    ensures s.0.None? == s.1.None? == s.2.None?
    ensures totalPixels > 0 ==>
      && 0.0 <= s.0.value <= 100.0 && 0.0 <= s.1.value <= 100.0 && 0.0 <= s.2.value <= 100.0
      && s.2.value == 100.0 - (s.0.value + s.1.value) / 2.0
  {
    if totalPixels == 0 then (None, None, None)
    else
      var acne := AcneScore(redSpots, totalPixels);
      var pig := PigmentationScore(darkSpots, totalPixels);
      (Some(acne), Some(pig), Some(OverallScore(acne, pig)))
  }

  /** The record `analyzeSkin` stores, from the loop's counts and brightness total. */
  function SkinReport(redSpots: nat, darkSpots: nat, totalPixels: nat, brightnessTotal: real): (a: SkinAnalysis)
    ensures totalPixels == 0 ==>
      && a.acneScore.None? && a.pigmentationScore.None? && a.overallScore.None? && a.avgBrightness.None?
      && a.acneSeverity == Severe && a.pigmentationSeverity == Severe && a.grade == NeedsAttention
    ensures totalPixels > 0 ==>
      && a.acneScore.Some? && a.pigmentationScore.Some? && a.overallScore.Some? && a.avgBrightness.Some?
      && 0 <= a.acneScore.value <= 100 && 0 <= a.pigmentationScore.value <= 100
      && 0 <= a.overallScore.value <= 100
    ensures totalPixels > 0 ==>
      var acne, pig := AcneScore(redSpots, totalPixels), PigmentationScore(darkSpots, totalPixels);
      && a.acneSeverity == AcneSeverity(Some(acne)) && a.pigmentationSeverity == PigmentationSeverity(Some(pig))
      && a.grade == GradeOf(Some(OverallScore(acne, pig)))
    ensures a.acneSpots == JsRound(redSpots as real / 100.0)
    ensures a.pigmentationSpots == JsRound(darkSpots as real / 100.0)
  {
    var scores := RawScores(redSpots, darkSpots, totalPixels);
    var avg := if totalPixels == 0 then None else Some(brightnessTotal / totalPixels as real);
    SkinAnalysis(
      RoundOpt(scores.0), AcneSeverity(scores.0), JsRound(redSpots as real / 100.0),
      RoundOpt(scores.1), PigmentationSeverity(scores.1), JsRound(darkSpots as real / 100.0),
      RoundOpt(scores.2), GradeOf(scores.2), RoundOpt(avg))
  }

  /** A raster without red or dark pixels scores 0, 0 and 100, graded `Excellent`. */
  lemma CleanRaster(totalPixels: nat, brightnessTotal: real)
    requires totalPixels > 0
    ensures var a := SkinReport(0, 0, totalPixels, brightnessTotal);
      && a.acneScore == Some(0) && a.pigmentationScore == Some(0) && a.overallScore == Some(100)
      && a.acneSeverity == Minimal && a.pigmentationSeverity == Minimal && a.grade == Excellent
  {
    var s := RawScores(0, 0, totalPixels);
    assert s.0 == Some(0.0) && s.1 == Some(0.0);
    assert s.2 == Some(100.0);
  }

  // ---------------------------------------------------------------------------
  // The face crop box

  datatype Point = Point(x: real, y: real)

  /** The crop box: corner, width and height, in frame pixels. */
  datatype CropBox = CropBox(x: real, y: real, width: real, height: real)

  const FrameWidth: real := 640.0
  const FrameHeight: real := 480.0
  const Padding: real := 20.0

  function MinOf(xs: seq<real>): (m: real)
    requires |xs| > 0
    ensures m in xs
    ensures forall i :: 0 <= i < |xs| ==> m <= xs[i]
  {
    if |xs| == 1 then xs[0] else Min(MinOf(xs[..|xs| - 1]), xs[|xs| - 1])
  }

  function MaxOf(xs: seq<real>): (m: real)
    requires |xs| > 0
    ensures m in xs
    ensures forall i :: 0 <= i < |xs| ==> xs[i] <= m
  {
    if |xs| == 1 then xs[0] else Max(MaxOf(xs[..|xs| - 1]), xs[|xs| - 1])
  }

  function Xs(points: seq<Point>): (xs: seq<real>)
    ensures |xs| == |points| && forall i :: 0 <= i < |points| ==> xs[i] == points[i].x
  {
    seq(|points|, i requires 0 <= i < |points| => points[i].x)
  }

  function Ys(points: seq<Point>): (ys: seq<real>)
    ensures |ys| == |points| && forall i :: 0 <= i < |points| ==> ys[i] == points[i].y
  {
    seq(|points|, i requires 0 <= i < |points| => points[i].y)
  }

  /** The keypoints' extent, padded by 20 pixels and clipped to the frame. */
  function FaceBox(points: seq<Point>): (b: CropBox)
    requires |points| > 0
    ensures b.x >= 0.0 && b.y >= 0.0
    ensures b.x + b.width <= FrameWidth && b.y + b.height <= FrameHeight
  {
    var minX, maxX := MinOf(Xs(points)), MaxOf(Xs(points));
    var minY, maxY := MinOf(Ys(points)), MaxOf(Ys(points));
    var x := Max(0.0, minX - Padding);
    var y := Max(0.0, minY - Padding);
    CropBox(x, y, Min(FrameWidth - x, maxX - minX + 2.0 * Padding), Min(FrameHeight - y, maxY - minY + 2.0 * Padding))
  }

  /** When every keypoint lies in the frame, the crop box contains all of them. */
  lemma FaceBoxCoversFace(points: seq<Point>)
    requires |points| > 0
    requires forall i :: 0 <= i < |points| ==> 0.0 <= points[i].x <= FrameWidth && 0.0 <= points[i].y <= FrameHeight
    ensures var b := FaceBox(points);
      forall i :: 0 <= i < |points| ==>
        b.x <= points[i].x <= b.x + b.width && b.y <= points[i].y <= b.y + b.height
  {
    var xs, ys := Xs(points), Ys(points);
    assert xs[0] == points[0].x && ys[0] == points[0].y;
    assert 0.0 <= MinOf(xs) && MaxOf(xs) <= FrameWidth by {
      assert MinOf(xs) in xs && MaxOf(xs) in xs;
    }
    assert 0.0 <= MinOf(ys) && MaxOf(ys) <= FrameHeight by {
      assert MinOf(ys) in ys && MaxOf(ys) in ys;
    }
  }

  // ---------------------------------------------------------------------------
  // Photos

  datatype Photo = Photo(id: int, dataUrl: string, timestamp: string)

  datatype FaceCapture = FaceCapture(dataUrl: string, timestamp: string, boundaries: CropBox)

  /** `photos.filter(photo => photo.id !== id)`. */
  function WithoutId(photos: seq<Photo>, id: int): (r: seq<Photo>)
    ensures |r| <= |photos|
    ensures forall p :: p in r <==> p in photos && p.id != id
  {
    if photos == [] then []
    else (if photos[0].id != id then [photos[0]] else []) + WithoutId(photos[1..], id)
  }

  /** Filtering distributes over concatenation, so the kept photos stay in their order. */
  lemma {:induction false} WithoutIdAppend(a: seq<Photo>, b: seq<Photo>, id: int)
    ensures WithoutId(a + b, id) == WithoutId(a, id) + WithoutId(b, id)
  {
    if a == [] {
      assert a + b == b;
    } else {
      assert (a + b)[0] == a[0] && (a + b)[1..] == a[1..] + b;
      WithoutIdAppend(a[1..], b, id);
    }
  }

  /** A list without that id is left as it is. */
  lemma {:induction false} WithoutAbsentId(photos: seq<Photo>, id: int)
    requires forall i :: 0 <= i < |photos| ==> photos[i].id != id
    ensures WithoutId(photos, id) == photos
  {
    if photos != [] {
      WithoutAbsentId(photos[1..], id);
    }
  }

  /** Deleting twice is deleting once. */
  lemma WithoutIdIdempotent(photos: seq<Photo>, id: int)
    ensures WithoutId(WithoutId(photos, id), id) == WithoutId(photos, id)
  {
    var r := WithoutId(photos, id);
    forall i | 0 <= i < |r|
      ensures r[i].id != id
    {
      assert r[i] in r;
    }
    WithoutAbsentId(r, id);
  }

  /** Deleting a photo just taken, whose id was new, gives back the list from before. */
  lemma DeleteUndoesTake(photos: seq<Photo>, p: Photo)
    requires forall i :: 0 <= i < |photos| ==> photos[i].id != p.id
    ensures WithoutId([p] + photos, p.id) == photos
  {
    WithoutIdAppend([p], photos, p.id);
    WithoutAbsentId(photos, p.id);
  }

  // ---------------------------------------------------------------------------
  // The app state

  class App {
    /** The captured photos, newest first. */
    var capturedPhotos: seq<Photo>
    /** Set while a countdown capture is under way. */
    var isCapturing: bool
    var faceCapture: Option<FaceCapture>
    var analysisResult: Option<SkinAnalysis>

    constructor ()
      ensures capturedPhotos == [] && !isCapturing && faceCapture.None? && analysisResult.None?
    {
      capturedPhotos := [];
      isCapturing := false;
      faceCapture := None;
      analysisResult := None;
    }

    /** `takePhoto`: without a webcam nothing happens; otherwise the new photo goes in front. */
    method TakePhoto(webcamReady: bool, photo: Photo)
      modifies this
      ensures capturedPhotos == if webcamReady then [photo] + old(capturedPhotos) else old(capturedPhotos)
      ensures isCapturing == old(isCapturing) && faceCapture == old(faceCapture) && analysisResult == old(analysisResult)
    {
      if !webcamReady {
        return;
      }
      capturedPhotos := [photo] + capturedPhotos;
    }

    /** `deletePhoto`: keeps exactly the photos with another id, in their order. */
    method DeletePhoto(photoId: int)
      modifies this
      ensures capturedPhotos == WithoutId(old(capturedPhotos), photoId)
      ensures isCapturing == old(isCapturing) && faceCapture == old(faceCapture) && analysisResult == old(analysisResult)
    {
      capturedPhotos := WithoutId(capturedPhotos, photoId);
    }

    /** `capturePhoto`: ignored while a capture is under way; otherwise starts the countdown. */
    method CapturePhoto() returns (started: bool)
      modifies this
      ensures started <==> !old(isCapturing)
      ensures isCapturing
      ensures capturedPhotos == old(capturedPhotos) && faceCapture == old(faceCapture) && analysisResult == old(analysisResult)
    {
      if isCapturing {
        return false;
      }
      isCapturing := true;
      started := true;
    }

    /** The end of the countdown: the photo is taken and capturing ends. */
    method FinishCapture(webcamReady: bool, photo: Photo)
      requires isCapturing
      modifies this
      ensures !isCapturing
      ensures capturedPhotos == if webcamReady then [photo] + old(capturedPhotos) else old(capturedPhotos)
      ensures faceCapture == old(faceCapture) && analysisResult == old(analysisResult)
    {
      TakePhoto(webcamReady, photo);
      isCapturing := false;
    }

    /**
     * `analyzeSkin`: runs the pixel pass over the crop and stores the analysis
     * record. A crop without pixels comes from a canvas of zero width or
     * height, whose `getImageData` throws; the catch only logs, so the
     * previous analysis stays.
     */
    method AnalyzeSkin(data: array<int>)
      requires data.Length % 4 == 0
      modifies this
      ensures data.Length == 0 ==> analysisResult == old(analysisResult)
      ensures data.Length > 0 ==>
        var n := data.Length / 4;
        analysisResult == Some(SkinReport(RedCount(data[..], n), DarkCount(data[..], n), n,
                                          BrightnessSum(data[..], n) as real / 3.0))
      ensures capturedPhotos == old(capturedPhotos) && isCapturing == old(isCapturing) && faceCapture == old(faceCapture)
    {
      if data.Length == 0 {
        return;
      }
      var redSpots, darkSpots, totalPixels, avgBrightness := AnalyzePixels(data);
      analysisResult := Some(SkinReport(redSpots, darkSpots, totalPixels, avgBrightness));
    }

    /**
     * `captureFaceFromMesh`: without a webcam, a model or a face nothing
     * happens; otherwise the crop box of the first face is stored and the
     * crop's pixels are analysed.
     */
    method CaptureFaceFromMesh(ready: bool, faces: seq<seq<Point>>, dataUrl: string, timestamp: string, crop: array<int>)
      requires faces != [] ==> |faces[0]| > 0
      requires crop.Length % 4 == 0
      modifies this
      ensures (!ready || faces == []) ==>
        faceCapture == old(faceCapture) && analysisResult == old(analysisResult)
      ensures ready && faces != [] ==>
        && faceCapture == Some(FaceCapture(dataUrl, timestamp, FaceBox(faces[0])))
        && (crop.Length == 0 ==> analysisResult == old(analysisResult))
        && (crop.Length > 0 ==>
              var n := crop.Length / 4;
              analysisResult == Some(SkinReport(RedCount(crop[..], n), DarkCount(crop[..], n), n,
                                                BrightnessSum(crop[..], n) as real / 3.0)))
      ensures capturedPhotos == old(capturedPhotos) && isCapturing == old(isCapturing)
    {
      if !ready || faces == [] {
        return;
      }
      faceCapture := Some(FaceCapture(dataUrl, timestamp, FaceBox(faces[0])));
      AnalyzeSkin(crop);
    }
  }
}
