/**
 * The analysis app's capture component: it turns the service's `scores` and
 * `regions` into the report the views show, encodes the face landmarks for
 * submission, polls the service for a queued job, and falls back to a local
 * analyser or to sample data when the submission fails. Camera frames,
 * network requests and the local analyser are inputs: each request's
 * outcome is given.
 */
module CameraCapture {
  import opened Wrappers
  import opened Numeric
  import JobStore

  /** A JSON field as JavaScript sees it: missing, `null` or a number. */
  datatype JsValue = Undefined | Null | Number(n: real)

  /** `v || 0`: the number itself, 0 for a missing or null field. */
  function OrZero(v: JsValue): (r: real)
    ensures v.Number? ==> r == v.n
    ensures !v.Number? ==> r == 0.0
  {
    if v.Number? then v.n else 0.0
  }

  /** `v > bound`: a missing field compares false, `null` compares as 0. */
  predicate Exceeds(v: JsValue, bound: real) {
    match v
    case Undefined => false
    case Null => 0.0 > bound
    case Number(n) => n > bound
  }

  /** One region entry of the service's result. */
  datatype ApiRegion = ApiRegion(acneCount: JsValue, pigAreaPct: JsValue, wrinkleDensity: JsValue)

  datatype ApiScores = ApiScores(acne: real, pigmentation: real, wrinkles: real, overall: real)

  /** A response body of the service: status, scores, regions in key order and overlay paths. */
  datatype ApiResult = ApiResult(status: string, scores: ApiScores, regions: seq<(string, ApiRegion)>,
                                 overlays: seq<(string, string)>)

  // ---------------------------------------------------------------------------
  // Severity, grade and label bands

  datatype Severity = Low | Moderate | High {
    function Name(): string {
      match this
      case Low => "low"
      case Moderate => "moderate"
      case High => "high"
    }

    function Rank(): nat {
      match this
      case Low => 0
      case Moderate => 1
      case High => 2
    }
  }

  /** Three severity bands split at 40 and 80. */
  function GetSeverity(score: real): (s: Severity)
    ensures s == High <==> score >= 80.0
    ensures s == Moderate <==> 40.0 <= score < 80.0
    ensures s == Low <==> score < 40.0
  {
    if score >= 80.0 then High
    else if score >= 40.0 then Moderate
    else Low
  }

  /** A higher score never gets a lower severity. */
  lemma SeverityMonotone(a: real, b: real)
    requires a <= b
    ensures GetSeverity(a).Rank() <= GetSeverity(b).Rank()
  {
  }

  /** The three bands of `overall` that the derived categories are labelled by. */
  datatype Tier = Top | Middle | Bottom

  function OverallTier(overall: real): (t: Tier)
    ensures t == Top <==> overall > 70.0
    ensures t == Middle <==> 50.0 < overall <= 70.0
    ensures t == Bottom <==> overall <= 50.0
  {
    if overall > 70.0 then Top else if overall > 50.0 then Middle else Bottom
  }

  function HydrationLevel(t: Tier): string {
    match t
    case Top => "excellent"
    case Middle => "good"
    case Bottom => "fair"
  }

  function HydrationStatus(t: Tier): string {
    match t
    case Top => "well-hydrated"
    case Middle => "moderately hydrated"
    case Bottom => "needs hydration"
  }

  function TextureKind(t: Tier): string {
    match t
    case Top => "smooth"
    case Middle => "moderate"
    case Bottom => "rough"
  }

  function PoreKind(t: Tier): string {
    match t
    case Top => "minimal"
    case Middle => "moderate"
    case Bottom => "significant"
  }

  /** Letter grade: A, B, C, D at 80, 60 and 40. */
  function Grade(overall: real): (g: string)
    ensures g == "A" <==> overall >= 80.0
    ensures g == "B" <==> 60.0 <= overall < 80.0
    ensures g == "C" <==> 40.0 <= overall < 60.0
    ensures g == "D" <==> overall < 40.0
  {
    if overall >= 80.0 then "A"
    else if overall >= 60.0 then "B"
    else if overall >= 40.0 then "C"
    else "D"
  }

  const ExcellentNextStep: string := "Excellent skin health! Maintain your routine."
  const GoodNextStep: string := "Good skin health with room for improvement."
  const ModerateNextStep: string := "Moderate concerns detected. Consider targeted treatments."
  const SignificantNextStep: string := "Significant concerns detected. Professional consultation recommended."

  /** `getNextSteps`: one sentence per band of the overall score, split at 80, 60 and 40. */
  function NextSteps(overall: real): (s: string)
    ensures s == ExcellentNextStep <==> overall >= 80.0
    ensures s == GoodNextStep <==> 60.0 <= overall < 80.0
    ensures s == ModerateNextStep <==> 40.0 <= overall < 60.0
    ensures s == SignificantNextStep <==> overall < 40.0
  {
    if overall >= 80.0 then ExcellentNextStep
    else if overall >= 60.0 then GoodNextStep
    else if overall >= 40.0 then ModerateNextStep
    else SignificantNextStep
  }

  // ---------------------------------------------------------------------------
  // Recommendations

  const AcneAdvice: string := "Consider acne treatment products"
  const PigmentationAdvice: string := "Use brightening serums"
  const AgingAdvice: string := "Add anti-aging products to routine"
  const DermatologistAdvice: string := "Consult a dermatologist"
  const MaintainAdvice: string := "Maintain current skincare routine"

  /** Whether any of the four recommendation rules fires. */
  predicate AnyAdvice(s: ApiScores) {
    s.acne > 50.0 || s.pigmentation > 40.0 || s.wrinkles > 30.0 || s.overall < 60.0
  }

  /** The advice of the rules that fire, in rule order. */
  function TriggeredAdvice(s: ApiScores): (r: seq<string>)
    ensures |r| <= 4
    ensures r == [] <==> !AnyAdvice(s)
    ensures AcneAdvice in r <==> s.acne > 50.0
    ensures PigmentationAdvice in r <==> s.pigmentation > 40.0
    ensures AgingAdvice in r <==> s.wrinkles > 30.0
    ensures DermatologistAdvice in r <==> s.overall < 60.0
    ensures MaintainAdvice !in r
  {
    (if s.acne > 50.0 then [AcneAdvice] else [])
    + (if s.pigmentation > 40.0 then [PigmentationAdvice] else [])
    + (if s.wrinkles > 30.0 then [AgingAdvice] else [])
    + (if s.overall < 60.0 then [DermatologistAdvice] else [])
  }

  /** The recommendation list: the triggered advice, or the single maintenance advice. */
  function Recommendations(s: ApiScores): (r: seq<string>)
    ensures |r| >= 1
    ensures r == [MaintainAdvice] <==> !AnyAdvice(s)
    ensures AnyAdvice(s) ==> r == TriggeredAdvice(s)
  {
    var triggered := TriggeredAdvice(s);
    if triggered == [] then [MaintainAdvice] else triggered
  }

  /** `generateRecommendations`: pushes the advice of each rule that fires, in rule order. */
  method GenerateRecommendations(s: ApiScores) returns (recommendations: seq<string>)
    ensures recommendations == Recommendations(s)
    ensures |recommendations| >= 1
  {
    ghost var acne: seq<string> := if s.acne > 50.0 then [AcneAdvice] else [];
    ghost var pigmentation: seq<string> := if s.pigmentation > 40.0 then [PigmentationAdvice] else [];
    ghost var aging: seq<string> := if s.wrinkles > 30.0 then [AgingAdvice] else [];
    ghost var dermatologist: seq<string> := if s.overall < 60.0 then [DermatologistAdvice] else [];
    var pushed: seq<string> := [];
    if s.acne > 50.0 {
      pushed := pushed + [AcneAdvice];
    }
    assert pushed == acne;
    if s.pigmentation > 40.0 {
      pushed := pushed + [PigmentationAdvice];
    }
    assert pushed == acne + pigmentation;
    if s.wrinkles > 30.0 {
      pushed := pushed + [AgingAdvice];
    }
    assert pushed == acne + pigmentation + aging;
    if s.overall < 60.0 {
      pushed := pushed + [DermatologistAdvice];
    }
    assert pushed == acne + pigmentation + aging + dermatologist == TriggeredAdvice(s);
    recommendations := if |pushed| > 0 then pushed else [MaintainAdvice];
  }

  // ---------------------------------------------------------------------------
  // Region names and area lists

  /** A character of the regular-expression class `\w`. */
  predicate IsWordChar(c: char) {
    ('a' <= c <= 'z') || ('A' <= c <= 'Z') || ('0' <= c <= '9') || c == '_'
  }

  function ToUpper(c: char): char {
    if 'a' <= c <= 'z' then (c as int - 32) as char else c
  }

  /** `replace('_', ' ')`: only the first underscore becomes a space. */
  function ReplaceFirstUnderscore(s: string): (r: string)
    ensures |r| == |s|
  {
    if s == [] then []
    else if s[0] == '_' then [' '] + s[1..]
    else [s[0]] + ReplaceFirstUnderscore(s[1..])
  }

  /**
   * `replace(/\b\w/g, upper)`: a word character that starts a word is
   * upper-cased; `afterWord` says whether the text is preceded by a word
   * character.
   */
  function CapitalizeFrom(s: string, afterWord: bool): (r: string)
    ensures |r| == |s|
  {
    if s == [] then []
    else [if IsWordChar(s[0]) && !afterWord then ToUpper(s[0]) else s[0]] + CapitalizeFrom(s[1..], IsWordChar(s[0]))
  }

  /** The display name of a region key. */
  function Humanize(key: string): (name: string)
    ensures |name| == |key|
  {
    CapitalizeFrom(ReplaceFirstUnderscore(key), false)
  }

  /** Inside a word, lower-case letters stay as they are. */
  lemma {:induction false} LowerWordTail(s: string)
    requires forall i :: 0 <= i < |s| ==> 'a' <= s[i] <= 'z'
    ensures CapitalizeFrom(s, true) == s
  {
    if s != [] {
      LowerWordTail(s[1..]);
    }
  }

  /** A lower-case word on its own gets a capital initial and nothing else. */
  lemma CapitalizeWord(s: string)
    requires |s| > 0
    requires forall i :: 0 <= i < |s| ==> 'a' <= s[i] <= 'z'
    ensures CapitalizeFrom(s, false) == [ToUpper(s[0])] + s[1..]
  {
    LowerWordTail(s[1..]);
  }

  /** Text without an underscore is left alone, and the replacement happens after it. */
  lemma {:induction false} ReplaceAfterPlain(a: string, b: string)
    requires '_' !in a
    ensures ReplaceFirstUnderscore(a + b) == a + ReplaceFirstUnderscore(b)
  {
    if a == [] {
      assert a + b == b;
    } else {
      var ab := a + b;
      assert ab[0] == a[0] && ab[0] != '_';
      assert ab[1..] == a[1..] + b;
      ReplaceAfterPlain(a[1..], b);
      assert ReplaceFirstUnderscore(ab) == [a[0]] + ReplaceFirstUnderscore(a[1..] + b);
      assert [a[0]] + (a[1..] + ReplaceFirstUnderscore(b)) == a + ReplaceFirstUnderscore(b);
    }
  }

  /**
   * Only the first underscore is replaced: for text `a + "_" + b` with no
   * underscore in `a` the result is `a + " " + b`, whatever `b` holds.
   */
  lemma ReplaceFirstOnly(a: string, b: string)
    requires '_' !in a
    ensures ReplaceFirstUnderscore(a + "_" + b) == a + " " + b
  {
    assert a + "_" + b == a + ("_" + b);
    ReplaceAfterPlain(a, "_" + b);
    assert ("_" + b)[0] == '_' && ("_" + b)[1..] == b;
    assert a + (" " + b) == a + " " + b;
  }

  /** Capitalising a concatenation: the second part continues after the first part's last character. */
  lemma {:induction false} CapitalizeAppend(a: string, b: string, afterWord: bool)
    requires |a| > 0
    ensures CapitalizeFrom(a + b, afterWord) == CapitalizeFrom(a, afterWord) + CapitalizeFrom(b, IsWordChar(a[|a| - 1]))
  {
    assert (a + b)[1..] == a[1..] + b;
    if |a| > 1 {
      CapitalizeAppend(a[1..], b, IsWordChar(a[0]));
    }
  }

  /** `first_second` is displayed as the two words, capitalised, with a space between. */
  lemma TwoWords(first: string, second: string, name: string)
    requires first == "cheek" && (second == "left" || second == "right")
    requires name == [ToUpper(first[0])] + first[1..] + " " + [ToUpper(second[0])] + second[1..]
    ensures Humanize(first + "_" + second) == name
  {
    ReplaceFirstOnly(first, second);
    CapitalizeWord(first);
    CapitalizeWord(second);
    assert first + " " + second == (first + " ") + second;
    CapitalizeAppend(first + " ", second, false);
    CapitalizeAppend(first, " ", false);
    assert CapitalizeFrom(" ", true) == " ";
    assert CapitalizeFrom(first + " ", false) == [ToUpper(first[0])] + first[1..] + " ";
  }

  /** A key without an underscore that is one lower-case word gets a capital initial. */
  lemma OneWord(key: string)
    requires key == "forehead" || key == "nose" || key == "chin"
    ensures Humanize(key) == [ToUpper(key[0])] + key[1..]
  {
    ReplaceAfterPlain(key, []);
    assert key + [] == key;
    CapitalizeWord(key);
  }

  /** The one-word region keys are capitalised. */
  lemma OneWordRegionKeys()
    ensures Humanize("forehead") == "Forehead"
    ensures Humanize("nose") == "Nose"
    ensures Humanize("chin") == "Chin"
  {
    OneWord("forehead");
    OneWord("nose");
    OneWord("chin");
  }

  /** The cheek keys become two capitalised words. */
  lemma CheekRegionKeys()
    ensures Humanize("cheek_left") == "Cheek Left"
    ensures Humanize("cheek_right") == "Cheek Right"
  {
    assert "cheek" + "_" + "left" == "cheek_left";
    assert "cheek" + "_" + "right" == "cheek_right";
    TwoWords("cheek", "left", "Cheek Left");
    TwoWords("cheek", "right", "Cheek Right");
  }

  /** The five region keys of the service come out as their display names. */
  lemma HumanizedRegionKeys()
    ensures Humanize("forehead") == "Forehead"
    ensures Humanize("nose") == "Nose"
    ensures Humanize("chin") == "Chin"
    ensures Humanize("cheek_left") == "Cheek Left"
    ensures Humanize("cheek_right") == "Cheek Right"
  {
    OneWordRegionKeys();
    CheekRegionKeys();
  }

  /** Which metric an `areas` list filters on. */
  datatype AreaRule = AcneAreas | PigmentAreas | WrinkleAreas {
    predicate Holds(r: ApiRegion) {
      match this
      case AcneAreas => Exceeds(r.acneCount, 0.0)
      case PigmentAreas => Exceeds(r.pigAreaPct, 0.0)
      case WrinkleAreas => Exceeds(r.wrinkleDensity, 0.1)
    }
  }

  /** The display names of the regions the rule holds for, in region order. */
  function Areas(regions: seq<(string, ApiRegion)>, rule: AreaRule): (names: seq<string>)
    ensures |names| <= |regions|
  {
    if regions == [] then []
    else (if rule.Holds(regions[0].1) then [Humanize(regions[0].0)] else []) + Areas(regions[1..], rule)
  }

  /** Every listed name is the display name of a region the rule holds for. */
  lemma {:induction false} AreasSound(regions: seq<(string, ApiRegion)>, rule: AreaRule)
    ensures forall a :: a in Areas(regions, rule) ==>
      exists i :: 0 <= i < |regions| && rule.Holds(regions[i].1) && a == Humanize(regions[i].0)
  {
    if regions != [] {
      var tail := regions[1..];
      AreasSound(tail, rule);
      forall a | a in Areas(tail, rule)
        ensures exists i :: 0 <= i < |regions| && rule.Holds(regions[i].1) && a == Humanize(regions[i].0)
      {
        var j :| 0 <= j < |tail| && rule.Holds(tail[j].1) && a == Humanize(tail[j].0);
        assert regions[j + 1] == tail[j];
      }
    }
  }

  /** Every region the rule holds for has its display name listed. */
  lemma {:induction false} AreasComplete(regions: seq<(string, ApiRegion)>, rule: AreaRule)
    ensures forall i :: 0 <= i < |regions| && rule.Holds(regions[i].1) ==> Humanize(regions[i].0) in Areas(regions, rule)
  {
    if regions != [] {
      var tail := regions[1..];
      AreasComplete(tail, rule);
      forall i | 1 <= i < |regions| && rule.Holds(regions[i].1)
        ensures Humanize(regions[i].0) in Areas(regions, rule)
      {
        assert tail[i - 1] == regions[i];
      }
    }
  }

  /**
   * Listing distributes over concatenation, so the names keep the order of
   * the regions and each qualifying region contributes its name once.
   */
  lemma {:induction false} AreasAppend(a: seq<(string, ApiRegion)>, b: seq<(string, ApiRegion)>, rule: AreaRule)
    ensures Areas(a + b, rule) == Areas(a, rule) + Areas(b, rule)
  {
    if a == [] {
      assert a + b == b;
    } else {
      assert (a + b)[0] == a[0] && (a + b)[1..] == a[1..] + b;
      AreasAppend(a[1..], b, rule);
    }
  }

  /** The list is empty exactly when the rule holds for no region. */
  lemma AreasEmptyIffNone(regions: seq<(string, ApiRegion)>, rule: AreaRule)
    ensures (forall i :: 0 <= i < |regions| ==> !rule.Holds(regions[i].1)) <==> Areas(regions, rule) == []
  {
    AreasSound(regions, rule);
    AreasComplete(regions, rule);
  }

  /** `acne.count`: the sum of the regions' acne counts, a missing or null count taken as 0. */
  function AcneCount(regions: seq<(string, ApiRegion)>): (total: real)
    ensures (forall i :: 0 <= i < |regions| ==> OrZero(regions[i].1.acneCount) >= 0.0) ==> total >= 0.0
  {
    if regions == [] then 0.0
    else OrZero(regions[0].1.acneCount) + AcneCount(regions[1..])
  }

  /** With non-negative counts, the total is positive exactly when some region is listed under acne. */
  lemma {:induction false} AcneCountPositiveIffAreas(regions: seq<(string, ApiRegion)>)
    requires forall i :: 0 <= i < |regions| ==> OrZero(regions[i].1.acneCount) >= 0.0
    ensures AcneCount(regions) > 0.0 <==> Areas(regions, AcneAreas) != []
  {
    if regions != [] {
      assert forall i :: 0 <= i < |regions[1..]| ==> regions[1..][i] == regions[i + 1];
      AcneCountPositiveIffAreas(regions[1..]);
    }
  }

  // ---------------------------------------------------------------------------
  // The report record

  datatype AcneReport = AcneReport(severity: Severity, count: real, percentage: int, areas: seq<string>,
                                   score: real, kind: string)
  datatype PigmentationReport = PigmentationReport(severity: Severity, percentage: int, areas: seq<string>,
                                                   score: real, kind: string)
  datatype AgingReport = AgingReport(severity: Severity, fineLines: int, percentage: int, elasticity: int,
                                     areas: seq<string>, score: real, earlySigns: bool)
  datatype HydrationReport = HydrationReport(level: string, percentage: int, score: int, status: string)
  datatype TextureReport = TextureReport(severity: Severity, percentage: int, score: int, kind: string)
  datatype UvReport = UvReport(severity: Severity, percentage: int, areas: seq<string>, score: int,
                               visible: bool, recommendation: string)
  datatype PoreReport = PoreReport(severity: Severity, percentage: int, areas: seq<string>, score: int, kind: string)
  datatype OverallReport = OverallReport(skinHealth: int, grade: string, recommendations: seq<string>, nextSteps: string)

  datatype FrontendReport = FrontendReport(
    acne: AcneReport, hyperpigmentation: PigmentationReport, aging: AgingReport,
    hydration: HydrationReport, texture: TextureReport, uvDamage: UvReport, poreCongestion: PoreReport,
    overall: OverallReport, apiResult: ApiResult, overlays: seq<(string, string)>)

  const ImmediateSunAdvice: string := "Immediate sun protection needed"
  const ModerateSunAdvice: string := "Moderate sun damage detected"

  /**
   * `convertBackendToFrontend`: the report record derived from a service
   * result. The three categories derived from `overall` share one severity
   * and one figure, elasticity complements fine lines, pores reuse the acne
   * areas and sun damage the wrinkle areas, and some advice is always given.
   */
  function ConvertBackendToFrontend(res: ApiResult): (r: FrontendReport)
    ensures r.texture.severity == r.uvDamage.severity == r.poreCongestion.severity
    ensures r.texture.score == r.uvDamage.score == r.poreCongestion.score == r.texture.percentage
    ensures r.aging.elasticity == 100 - r.aging.fineLines
    ensures r.poreCongestion.areas == r.acne.areas && r.uvDamage.areas == r.aging.areas
    ensures r.overall.recommendations != []
    ensures r.apiResult == res && r.overlays == res.overlays
  {
    var s := res.scores;
    var tier := OverallTier(s.overall);
    var inverse := JsRound(100.0 - s.overall);
    var acneAreas := Areas(res.regions, AcneAreas);
    var wrinkleAreas := Areas(res.regions, WrinkleAreas);
    FrontendReport(
      AcneReport(GetSeverity(s.acne), AcneCount(res.regions), JsRound(s.acne), acneAreas, s.acne, "inflammatory"),
      PigmentationReport(GetSeverity(s.pigmentation), JsRound(s.pigmentation), Areas(res.regions, PigmentAreas),
                         s.pigmentation, "melasma"),
      AgingReport(GetSeverity(s.wrinkles), JsRound(s.wrinkles), JsRound(s.wrinkles), 100 - JsRound(s.wrinkles),
                  wrinkleAreas, s.wrinkles, s.wrinkles > 30.0),
      HydrationReport(HydrationLevel(tier), JsRound(100.0 - s.overall / 2.0), JsRound(100.0 - s.overall / 2.0),
                      HydrationStatus(tier)),
      TextureReport(GetSeverity(100.0 - s.overall), inverse, inverse, TextureKind(tier)),
      UvReport(GetSeverity(100.0 - s.overall), inverse, wrinkleAreas, inverse, s.overall < 70.0,
               if s.overall < 50.0 then ImmediateSunAdvice else ModerateSunAdvice),
      PoreReport(GetSeverity(100.0 - s.overall), inverse, acneAreas, inverse, PoreKind(tier)),
      OverallReport(JsRound(s.overall), Grade(s.overall), Recommendations(s), NextSteps(s.overall)),
      res, res.overlays)
  }

  /** Scores in [0, 100] give percentages in [0, 100], elasticity in [0, 100] and hydration in [50, 100]. */
  lemma ReportInRange(res: ApiResult)
    requires var s := res.scores;
      && 0.0 <= s.acne <= 100.0 && 0.0 <= s.pigmentation <= 100.0
      && 0.0 <= s.wrinkles <= 100.0 && 0.0 <= s.overall <= 100.0
    ensures var r := ConvertBackendToFrontend(res);
      && 0 <= r.acne.percentage <= 100 && 0 <= r.hyperpigmentation.percentage <= 100
      && 0 <= r.aging.percentage <= 100 && 0 <= r.aging.elasticity <= 100
      && 50 <= r.hydration.score <= 100
      && 0 <= r.texture.score <= 100 && 0 <= r.overall.skinHealth <= 100
  {
  }

  /** Rounding `100 - o` and `o` half-up: the two add up to 100, or to 101 when `o` is half-way between integers. */
  lemma RoundComplement(o: real)
    ensures (o + 0.5).Floor as real != o + 0.5 ==> JsRound(100.0 - o) + JsRound(o) == 100
    ensures (o + 0.5).Floor as real == o + 0.5 ==> JsRound(100.0 - o) + JsRound(o) == 101
  {
    var y := o + 0.5;
    var k := y.Floor;
    var z := 100.0 - o + 0.5;
    assert z == 101.0 - y;
    if k as real == y {
      assert z == (101 - k) as real;
      assert z.Floor == 101 - k;
    } else {
      assert (100 - k) as real <= z < (101 - k) as real;
      assert z.Floor == 100 - k;
    }
  }

  /**
   * The texture score complements the skin-health figure: they add up to
   * 100, or to 101 when `overall` lies exactly half-way between integers
   * (both roundings then go up).
   */
  lemma TextureComplementsHealth(res: ApiResult)
    ensures var r := ConvertBackendToFrontend(res);
      var halfway := (res.scores.overall + 0.5).Floor as real == res.scores.overall + 0.5;
      && (!halfway ==> r.texture.score + r.overall.skinHealth == 100)
      && (halfway ==> r.texture.score + r.overall.skinHealth == 101)
  {
    RoundComplement(res.scores.overall);
  }

  // ---------------------------------------------------------------------------
  // Landmark encoding

  /** A face-mesh keypoint; `z` may be absent. */
  datatype Keypoint = Keypoint(x: real, y: real, z: JsValue)

  datatype Triple = Triple(x: int, y: int, z: int)

  /** The number of keypoints of a full face mesh. */
  const MeshPoints: nat := 468

  /** The landmarks field: one rounded integer triple per keypoint, a missing z sent as 0. */
  function EncodeLandmarks(keypoints: seq<Keypoint>): (lms: seq<Triple>)
    ensures |lms| == |keypoints|
    ensures forall i :: 0 <= i < |keypoints| ==>
      && keypoints[i].x - 0.5 < lms[i].x as real <= keypoints[i].x + 0.5
      && keypoints[i].y - 0.5 < lms[i].y as real <= keypoints[i].y + 0.5
      && (keypoints[i].z.Number? ==> keypoints[i].z.n - 0.5 < lms[i].z as real <= keypoints[i].z.n + 0.5)
      && (!keypoints[i].z.Number? ==> lms[i].z == 0)
  {
    seq(|keypoints|, i requires 0 <= i < |keypoints| =>
      Triple(JsRound(keypoints[i].x), JsRound(keypoints[i].y), JsRound(OrZero(keypoints[i].z))))
  }

  /** The landmarks as the service decodes them: a list of three-number lists. */
  function AsPoints(lms: seq<Triple>): (ps: seq<seq<real>>)
    ensures |ps| == |lms|
    ensures forall i :: 0 <= i < |lms| ==> ps[i] == [lms[i].x as real, lms[i].y as real, lms[i].z as real]
  {
    seq(|lms|, i requires 0 <= i < |lms| => [lms[i].x as real, lms[i].y as real, lms[i].z as real])
  }

  /** The encoding of a full face mesh passes the service's landmark validation. */
  lemma FullMeshAccepted(keypoints: seq<Keypoint>)
    requires |keypoints| == MeshPoints
    ensures JobStore.ValidateLandmarks(JobStore.Points(AsPoints(EncodeLandmarks(keypoints)))).Ok?
  {
  }

  // ---------------------------------------------------------------------------
  // Polling

  const MaxPollAttempts: nat := 30

  /** The outcome of one status request: it failed (network, HTTP or JSON error), or it answered. */
  datatype PollOutcome = PollFailed(message: string) | Polled(result: ApiResult)

  /** Whether a poll delivers: only a `done` status does; `error` and any other status are retried. */
  predicate Delivers(o: PollOutcome) {
    o.Polled? && o.result.status == "done"
  }

  /** The index of the first delivering outcome, or the length when none delivers. */
  function FirstDelivery(outcomes: seq<PollOutcome>): (k: nat)
    ensures k <= |outcomes|
    ensures forall j :: 0 <= j < k ==> !Delivers(outcomes[j])
    ensures k < |outcomes| ==> Delivers(outcomes[k])
  {
    if outcomes == [] then 0
    else if Delivers(outcomes[0]) then 0
    else 1 + FirstDelivery(outcomes[1..])
  }

  /** The first delivering outcome is the only index with none before it and a delivery at it. */
  lemma FirstDeliveryAt(outcomes: seq<PollOutcome>, k: nat)
    requires k <= |outcomes|
    requires forall j :: 0 <= j < k ==> !Delivers(outcomes[j])
    requires k < |outcomes| ==> Delivers(outcomes[k])
    ensures FirstDelivery(outcomes) == k
  {
  }

  /** The number of status requests the poll loop makes. */
  function PollRequests(outcomes: seq<PollOutcome>): (n: nat)
    requires |outcomes| >= MaxPollAttempts
    ensures 1 <= n <= MaxPollAttempts
    ensures n < MaxPollAttempts ==> Delivers(outcomes[n - 1])
  {
    var k := FirstDelivery(outcomes[..MaxPollAttempts]);
    if k < MaxPollAttempts then k + 1 else MaxPollAttempts
  }

  /** The report the poll loop hands on, if any. */
  function PollDelivery(outcomes: seq<PollOutcome>): (d: Option<FrontendReport>)
    requires |outcomes| >= MaxPollAttempts
  {
    var k := FirstDelivery(outcomes[..MaxPollAttempts]);
    if k < MaxPollAttempts then Some(ConvertBackendToFrontend(outcomes[k].result)) else None
  }

  /** The first delivery among the first 30 outcomes, read on the outcomes themselves. */
  lemma FirstDeliveryInPrefix(outcomes: seq<PollOutcome>)
    requires |outcomes| >= MaxPollAttempts
    ensures forall j :: 0 <= j < FirstDelivery(outcomes[..MaxPollAttempts]) ==> !Delivers(outcomes[j])
    ensures FirstDelivery(outcomes[..MaxPollAttempts]) < MaxPollAttempts ==>
              Delivers(outcomes[FirstDelivery(outcomes[..MaxPollAttempts])])
  {
    var prefix := outcomes[..MaxPollAttempts];
    assert forall j :: 0 <= j < MaxPollAttempts ==> prefix[j] == outcomes[j];
  }

  /**
   * Something is delivered exactly when one of the first 30 outcomes is
   * `done`; it is the conversion of the first such result, and it costs
   * one request per outcome up to and including that one.
   */
  lemma PollDeliversIffDone(outcomes: seq<PollOutcome>)
    requires |outcomes| >= MaxPollAttempts
    ensures PollDelivery(outcomes).Some? <==> exists j :: 0 <= j < MaxPollAttempts && Delivers(outcomes[j])
    ensures PollDelivery(outcomes).Some? ==>
      var n := PollRequests(outcomes);
      && Delivers(outcomes[n - 1])
      && (forall j :: 0 <= j < n - 1 ==> !Delivers(outcomes[j]))
      && PollDelivery(outcomes).value == ConvertBackendToFrontend(outcomes[n - 1].result)
    ensures PollDelivery(outcomes).None? ==> PollRequests(outcomes) == MaxPollAttempts
  {
    var k := FirstDelivery(outcomes[..MaxPollAttempts]);
    FirstDeliveryInPrefix(outcomes);
    if k < MaxPollAttempts {
      assert PollRequests(outcomes) == k + 1;
      assert PollDelivery(outcomes) == Some(ConvertBackendToFrontend(outcomes[k].result));
    } else {
      assert PollDelivery(outcomes) == None;
    }
  }

  /**
   * `pollForResults`: one request per attempt; a `done` result is converted
   * and delivered; a failed request, an `error` status or any other status
   * is retried while fewer than 30 attempts were made.
   */
  method Poll(outcomes: seq<PollOutcome>) returns (delivered: Option<FrontendReport>, requests: nat)
    requires |outcomes| >= MaxPollAttempts
    ensures requests == PollRequests(outcomes)
    ensures delivered == PollDelivery(outcomes)
  {
    ghost var prefix := outcomes[..MaxPollAttempts];
    requests := 0;
    while requests < MaxPollAttempts
      invariant requests <= MaxPollAttempts
      invariant forall j :: 0 <= j < requests ==> !Delivers(prefix[j])
    {
      var outcome := outcomes[requests];
      assert outcome == prefix[requests];
      requests := requests + 1;
      if outcome.Polled? && outcome.result.status == "done" {
        FirstDeliveryAt(prefix, requests - 1);
        return Some(ConvertBackendToFrontend(outcome.result)), requests;
      }
      // an `error` status is thrown and caught like a failed request; both are retried
    }
    FirstDeliveryAt(prefix, MaxPollAttempts);
    delivered := None;
  }

  /** A job that is still processing at the first poll and done at the second costs two requests. */
  lemma DoneOnSecondPoll(outcomes: seq<PollOutcome>)
    requires |outcomes| >= MaxPollAttempts
    requires !Delivers(outcomes[0]) && Delivers(outcomes[1])
    ensures PollRequests(outcomes) == 2
    ensures PollDelivery(outcomes) == Some(ConvertBackendToFrontend(outcomes[1].result))
  {
    var prefix := outcomes[..MaxPollAttempts];
    assert prefix[0] == outcomes[0] && prefix[1] == outcomes[1];
    assert FirstDelivery(prefix[1..]) == 0;
  }

  // ---------------------------------------------------------------------------
  // Capture, submission and fallbacks

  /** The outcome of the submission request. */
  datatype SubmitOutcome =
    | SubmitThrew(message: string)                 // network or JSON failure: the error's message
    | SubmitHttpError(code: nat, statusText: string) // a response that is not ok
    | Submitted(response: ApiResult)               // an ok response body

  /** What the local analyser of the app produced; its content is opaque here. */
  datatype LocalAnalysis = LocalAnalysis(summary: string)

  datatype AnalysisData =
    | NoAnalysis                       // `null`
    | Converted(report: FrontendReport) // a polled result, converted
    | Immediate(response: ApiResult)   // a non-processing submission response, unconverted
    | Local(analysis: LocalAnalysis)   // the local analyser's result
    | Sample                           // the built-in sample data

  datatype FaceImage = FullFrame | FaceCrop | NoFaceImage

  /** What the capture hands to its caller. */
  datatype Capture = Capture(faceImage: FaceImage, analysisData: AnalysisData, landmarks: Option<seq<Triple>>,
                             apiError: Option<string>, error: Option<string>)

  const NoFaceError: string := "No face detected"
  const SampleDataError: string := "API and local analysis failed, showing sample data"

  function DigitChar(d: nat): char
    requires d < 10
  {
    ('0' as int + d) as char
  }

  /** Decimal notation of a natural number. */
  function NatToString(n: nat): (s: string)
    ensures |s| >= 1
    decreases n
  {
    if n < 10 then [DigitChar(n)] else NatToString(n / 10) + [DigitChar(n % 10)]
  }

  /** The message of a failed submission, as reported in `apiError`. */
  function SubmitErrorMessage(o: SubmitOutcome): (m: string)
    requires !o.Submitted?
    ensures o.SubmitThrew? ==> m == o.message
  {
    match o
    case SubmitThrew(m) => m
    case SubmitHttpError(code, text) => "API call failed: " + NatToString(code) + " " + text
  }

  /** The capture after a failed submission: the local analysis if it succeeds, else the sample data. */
  function Fallback(landmarks: seq<Triple>, submit: SubmitOutcome, local: Result<LocalAnalysis>): (c: Capture)
    requires !submit.Submitted?
    ensures c.landmarks == Some(landmarks) && c.error.None? && c.apiError.Some?
    ensures local.Ok? ==> c.analysisData == Local(local.value) && c.faceImage == FaceCrop
                          && c.apiError == Some(SubmitErrorMessage(submit))
    ensures local.Err? ==> c.analysisData == Sample && c.faceImage == FullFrame && c.apiError == Some(SampleDataError)
  {
    match local
    case Ok(a) => Capture(FaceCrop, Local(a), Some(landmarks), Some(SubmitErrorMessage(submit)), None)
    case Err(_) => Capture(FullFrame, Sample, Some(landmarks), Some(SampleDataError), None)
  }

  /**
   * `captureAndAnalyze`. `ready` says whether the webcam, the face model,
   * the video and the drawing context are all there; `detection` is the
   * face detector's outcome (`None` when it throws); `submit` and `polls`
   * are the outcomes of the requests; `local` is the local analyser's
   * outcome. Returns what is handed to the caller and how many requests
   * were sent.
   */
  method CaptureAndAnalyze(ready: bool, detection: Option<seq<seq<Keypoint>>>, submit: SubmitOutcome,
                           polls: seq<PollOutcome>, local: Result<LocalAnalysis>)
    returns (captured: Option<Capture>, requests: nat)
    requires |polls| >= MaxPollAttempts
    ensures (!ready || detection.None?) ==> captured.None? && requests == 0
    ensures ready && detection == Some([]) ==>
      captured == Some(Capture(NoFaceImage, NoAnalysis, None, None, Some(NoFaceError))) && requests == 0
    ensures ready && detection.Some? && detection.value != [] ==>
      var landmarks := EncodeLandmarks(detection.value[0]);
      && (!submit.Submitted? ==> captured == Some(Fallback(landmarks, submit, local)) && requests == 1)
      && (submit.Submitted? && submit.response.status != "processing" ==>
            captured == Some(Capture(FullFrame, Immediate(submit.response), Some(landmarks), None, None))
            && requests == 1)
      && (submit.Submitted? && submit.response.status == "processing" ==>
            requests == 1 + PollRequests(polls)
            && captured == (match PollDelivery(polls)
                            case None => None
                            case Some(report) => Some(Capture(FullFrame, Converted(report), Some(landmarks), None, None))))
  {
    if !ready || detection.None? {
      return None, 0;
    }
    var faces := detection.value;
    if faces == [] {
      return Some(Capture(NoFaceImage, NoAnalysis, None, None, Some(NoFaceError))), 0;
    }
    var landmarks := EncodeLandmarks(faces[0]);
    requests := 1;
    if !submit.Submitted? {
      captured := Some(Fallback(landmarks, submit, local));
      return;
    }
    var response := submit.response;
    if response.status != "processing" {
      captured := Some(Capture(FullFrame, Immediate(response), Some(landmarks), None, None));
      return;
    }
    var delivered, polled := Poll(polls);
    requests := requests + polled;
    captured := match delivered
      case None => None
      case Some(report) => Some(Capture(FullFrame, Converted(report), Some(landmarks), None, None));
  }
}
