# Skin analysis: a Dafny model of the scoring and capture core

The system analyses a face photo for acne, pigmentation and wrinkles.
A browser app encodes the face-mesh landmarks, submits the photo, polls for
the job and turns the returned `scores` and `regions` into the report its
views show. A FastAPI service validates the landmarks and runs the job in
the background: it cuts five rectangular face regions from the landmarks'
bounding box, attributes each acne detection to a region, and computes
clamp-and-weight scores. An insight engine picks one "surprising" insight
from the analysis results. Three further analysers turn image measurements
into 0-100 scores for UV damage, hydration and pores, each with a level and
an advice list. A separate face-mesh demo app counts reddish and dark
pixels in a face crop and keeps a list of captured photos.

The model has one Dafny module per source file:

| module | file | models |
|---|---|---|
| `Numeric` | `numeric.dfy` | `min`/`max`, JavaScript `Math.round`, Python `int()` and `round(x, n)`, on exact reals |
| `Scoring` | `scoring.dfy` | `backend/engine/scoring.py` |
| `RegionMasks` | `region_masks.dfy` | `backend/engine/region_masks.py` |
| `Pipeline` | `pipeline.dfy` | `backend/engine/pipeline.py` |
| `JobStore` | `job_store.dfy` | `backend/app/main.py` (a class over the job map) |
| `Insights` | `insights.dfy` | `backend/engine/insights_engine.py` |
| `UvDamage` | `uv_damage.dfy` | the scalar part of `backend/engine/uv_damage.py` |
| `Hydration` | `hydration.dfy` | the scalar part of `backend/engine/hydration.py` |
| `PoreAnalysis` | `pore_analysis.dfy` | the scalar part of `backend/engine/pore_analysis.py` |
| `CameraCapture` | `camera_capture.dfy` | `analysis-app/components/CameraCapture.tsx` |
| `FaceMeshApp` | `face_mesh_app.dfy` | `src/App.js` (a class over the app state) |
| `Wrappers` | `wrappers.dfy` | `Option` and `Result` |

Some conventions run through the whole model:

- Numbers are exact reals.
  - `Math.round(x)` is `floor(x + 0.5)`.
  - Python's `round(x, 2)` rounds the exact value half to even.
  - `IsCents` says a value has at most two decimals.
- A dictionary entry that may be missing is an `Option`.
  - A JSON field that may be missing or `null` is a three-way `Field`/`JsValue`.
- Dictionaries the code iterates are sequences of pairs in insertion order.
- Every loop of the source is a method. Its contract ties it to a function, and the lemmas are proved about that function:
  - the detection loop and the mask scan;
  - the pixel pass;
  - the early-sign passes and the asymmetry comparison;
  - the candidate selection;
  - the poll loop;
  - the advice builders.
- State that the source updates in place is a class:
  - the service's job map (`JobStore.JobService`);
  - the demo app's photos, capture flag, face crop and analysis (`FaceMeshApp.App`).
- Camera frames, the face model, network requests, the local fallback analyser and image filters are outside the model. Their results are parameters:
  - a keypoint list;
  - an RGBA byte array;
  - a sequence of poll outcomes;
  - the filter measurements.

## Model

| member | source | states |
|---|---|---|
| Scoring.AcneRaw | backend/engine/scoring.py:3 | the lesion share lies in [0, 1] for non-negative inputs and is 1 once both count and area saturate |
| Scoring.AcneScore | backend/engine/scoring.py:1-4 | two decimals; in [0, 100] for non-negative inputs; 0 when count >= 30 and area_norm >= 0.12; 100 for a clean skin |
| Scoring.PigScore | backend/engine/scoring.py:6-7 | two decimals; 100 at area 0, 0 from area 25 on, in [0, 100] for non-negative areas |
| Scoring.WrinkleScore | backend/engine/scoring.py:9-10 | two decimals; 100 at density 0, 0 from density 0.08 on, in [0, 100] for non-negative densities |
| Scoring.WeightedMean | backend/engine/scoring.py:12-13 | weights 0.45/0.35/0.20 sum to one, so the unrounded mean lies between the smallest and largest component |
| Scoring.Overall | backend/engine/scoring.py:12-13 | two decimals; three equal rounded components give that same value |
| Scoring.OverallBetweenComponents | backend/engine/scoring.py:12-13 | after rounding, the overall score still lies between the smallest and the largest component |
| Scoring.OverallInRange | backend/engine/scoring.py:12-13 | components in [0, 100] give an overall score in [0, 100] |
| Scoring.AcneScoreAntitone | backend/engine/scoring.py:1-4 | more lesions or more lesion area never raise the acne score |
| Scoring.PigScoreAntitone | backend/engine/scoring.py:6-7 | a larger pigmented area never raises the pigmentation score |
| Scoring.WrinkleScoreAntitone | backend/engine/scoring.py:9-10 | a higher wrinkle density never raises the wrinkle score |
| Scoring.OverallMonotone | backend/engine/scoring.py:12-13 | better components never lower the overall score |
| RegionMasks.ClampBox | backend/engine/region_masks.py:13-15 | the clamped box starts at x, y >= 0, fits in the image (w <= W - x, h <= H - y), never grows, and leaves a box already inside unchanged |
| RegionMasks.ClampBoxIdempotent | backend/engine/region_masks.py:13-15 | clamping twice is clamping once |
| RegionMasks.RegionRects | backend/engine/region_masks.py:25-44 | exactly five rectangles, in the order forehead, nose, left cheek, right cheek, chin |
| RegionMasks.CoarseRegions | backend/engine/region_masks.py:9-52 | the regions are cut from the clamped box: five of them, in insertion order |
| RegionMasks.RegionsInsideBox | backend/engine/region_masks.py:19-44 | for a box of non-negative size, every rectangle has x1 <= x2 and y1 <= y2 and lies inside the box |
| RegionMasks.RegionsHorizontallyOrdered | backend/engine/region_masks.py:30-37 | left cheek, nose and right cheek follow each other without overlap: lcx2 <= nx1 and nx2 <= rcx1 |
| RegionMasks.RegionsVerticallyOrdered | backend/engine/region_masks.py:26-43 | the forehead's bottom is the nose's top; the chin starts at or below the cheek band's bottom |
| Pipeline.FirstHit | backend/engine/pipeline.py:43-46 | the index of the first mask, in mask order, covering the point: no earlier mask covers it, and the mask at the index does (or none does) |
| Pipeline.FindRegion | backend/engine/pipeline.py:43-46 | the inner loop with its `break` stops at exactly the first covering mask |
| Pipeline.AttributeDetections | backend/engine/pipeline.py:36-46 | the loop's counts are the per-region attribution counts of all detections, and the lesion area is the sum of the box areas |
| Pipeline.CountsStep | backend/engine/pipeline.py:40-46 | a detection adds one to the count of the region it is attributed to and nothing to any other |
| Pipeline.CountTotal | backend/engine/pipeline.py:36-46 | the total count is the number of attributed detections, at most the number of detections |
| Pipeline.PipelineScoresInRange | backend/engine/pipeline.py:71-79 | non-negative measurements give all four scores in [0, 100], overall between the other three |
| Pipeline.BuildRegionsReport | backend/engine/pipeline.py:82-88 | one entry per mask key, in mask order, with that region's count, the global pigmented percentage rounded to 2 places and the density rounded to 4 |
| Pipeline.RunPipeline | backend/engine/pipeline.py:14-98 | an unreadable image fails; otherwise the scores are those of the attributed counts, lesion area and mean wrinkle density, and the regions report has the five region keys in mask order, each with its count, the shared pigmented percentage rounded to 2 places and its own wrinkle density rounded to 4 |
| JobStore.ValidateLandmarks | backend/app/main.py:32-37 | accepted exactly when the field decodes to a JSON list with at least 200 elements; otherwise "Bad landmarks: " and the decoder's message or the too-few message |
| JobStore.Project | backend/app/main.py:71-78 | status and job id always; scores, regions and overlays exactly when done; message exactly when error |
| JobStore.Outcome | backend/app/main.py:51-63 | a job ends either done with the pipeline's scores, regions and overlays, or error with its message; never processing |
| JobStore.JobService.constructor | backend/app/main.py:25 | the store starts empty |
| JobStore.JobService.Analyze | backend/app/main.py:29-49 | invalid landmarks: 400 and no job created; valid: the new id is stored as processing and returned; no job removed |
| JobStore.JobService.ProcessJob | backend/app/main.py:51-63 | only this job's entry changes, to the outcome; every other job is kept |
| JobStore.JobService.GetResult | backend/app/main.py:66-78 | an unknown id gives 404; a known one the projection of its job; nothing changes |
| JobStore.JobLifecycle | backend/app/main.py:29-78 | an accepted job polls as processing without scores, then as done with the pipeline's scores |
| Insights.Lookup | backend/engine/insights_engine.py:161-163 | a key is found exactly when some entry has it, and then its data is that entry's |
| Insights.Cheeks | backend/engine/insights_engine.py:157-163 | both cheeks are available exactly when there are regions with both cheek keys |
| Insights.RelativeDifferenceBounds | backend/engine/insights_engine.py:173-181 | `(big - small) / max(big, 1) * 100` lies in (0, 100] for non-negative values |
| Insights.AsymmetryFor | backend/engine/insights_engine.py:166-187 | a record exists exactly when both cheeks carry the metric and the values differ; it holds both values, and its difference lies in (0, 100] for non-negative values |
| Insights.CollectAsymmetry | backend/engine/insights_engine.py:166-187 | the records are exactly those of the compared metrics that yield one |
| Insights.AsymmetryCharacterised | backend/engine/insights_engine.py:152-189 | no cheeks, no asymmetry; with both cheeks, a metric is reported exactly when both carry it and the values differ |
| Insights.DetectAsymmetry | backend/engine/insights_engine.py:152-189 | the comparison loop builds exactly the asymmetry records |
| Insights.SleepPattern | backend/engine/insights_engine.py:191-219 | side sleeping is recorded exactly when both cheeks are present and their densities differ by more than 0.01; the position is the denser side; confidence in (0.1, 0.9] |
| Insights.LifestylePatterns | backend/engine/insights_engine.py:221-251 | hydration below 50 needs improvement, above 80 is excellent, otherwise absent; UV below 60 needs improvement |
| Insights.SignOf | backend/engine/insights_engine.py:263-274 | a region shows an early sign exactly when its metric exceeds 0.02 (wrinkles) or 5 (pigmentation) |
| Insights.SignsFor | backend/engine/insights_engine.py:262-280 | the signs of one concern are exactly those of the regions over the threshold |
| Insights.CollectSigns | backend/engine/insights_engine.py:262-280 | one pass over the regions collects exactly those signs, in region order |
| Insights.DetectEarlySigns | backend/engine/insights_engine.py:253-282 | all wrinkle signs, then all pigmentation signs |
| Insights.UniquePatterns | backend/engine/insights_engine.py:284-312 | an uneven pore distribution (uniformity < 0.3) and a complex texture (entropy > 3) are reported exactly when they occur |
| Insights.ComparativeData | backend/engine/insights_engine.py:314-340 | needs all three score keys; 0.4/0.3/0.3 weights; above average over 80, below average under 50, otherwise nothing |
| Insights.AsymmetryInsights | backend/engine/insights_engine.py:342-357 | exactly the records with a difference above 10 become insights, with confidence `min(0.9, difference / 100)` |
| Insights.SleepInsights | backend/engine/insights_engine.py:359-374 | one insight carrying the sleep record's confidence, or none |
| Insights.LifestyleInsights | backend/engine/insights_engine.py:376-400 | one insight per signal: confidence 0.8 to improve, 0.9 when excellent |
| Insights.EarlyWarningInsights | backend/engine/insights_engine.py:402-417 | one insight of confidence 0.7 per early sign |
| Insights.UniquePatternInsights | backend/engine/insights_engine.py:419-433 | one insight of confidence 0.8 per pattern |
| Insights.ComparativeInsights | backend/engine/insights_engine.py:435-459 | one insight of confidence 0.85 above average, 0.8 below |
| Insights.Candidates | backend/engine/insights_engine.py:69-97 | every candidate carries a confidence its generator assigns |
| Insights.ScoreInsight | backend/engine/insights_engine.py:477-496 | 0.4 x confidence, plus 0.5 for asymmetry and sleep, 0.3 for early warnings and unusual patterns |
| Insights.FaceSpecificOutranks | backend/engine/insights_engine.py:477-496 | any face-specific candidate outscores any lifestyle, comparative or general insight |
| Insights.BandOf | backend/engine/insights_engine.py:512-517 | above 80, above 60, otherwise |
| Insights.BestMetric | backend/engine/insights_engine.py:501-508 | `max(scores, key=scores.get)`: a present metric of highest score, the first one on ties; none without scores |
| Insights.DefaultInsight | backend/engine/insights_engine.py:498-526 | a general insight of confidence 0.7; its text says "no scores" exactly when none of the three scores is present |
| Insights.SelectBestInsight | backend/engine/insights_engine.py:461-475 | no candidates: the default insight; otherwise a candidate of highest score, the first one on ties |
| Insights.SelectedIsFaceSpecific | backend/engine/insights_engine.py:461-496 | if any candidate is face-specific, the selected one is |
| Insights.TypeFollowUps | backend/engine/insights_engine.py:561-588 | three type-specific items for asymmetry, sleep, early warning and lifestyle, none for the other types |
| Insights.FollowUps | backend/engine/insights_engine.py:557-597 | always ends with the three general items: six items for the four types above, three otherwise; a lifestyle insight starts with its factor's advice |
| Insights.GenerateSurprisingInsight | backend/engine/insights_engine.py:58-114 | the insight is the default one without candidates, else a first highest-scoring candidate; follow-ups, type and confidence are those of that insight |
| UvDamage.ColorTerm | backend/engine/uv_damage.py:193 | capped at 1, non-negative for non-negative input, 1 from variation 0.1 on |
| UvDamage.FreckleTerm | backend/engine/uv_damage.py:194 | capped at 1, non-negative for non-negative input, 1 from density 0.05 on |
| UvDamage.Damage | backend/engine/uv_damage.py:198-202 | non-negative for non-negative terms, 0 when all are 0 |
| UvDamage.HealthFromDamage | backend/engine/uv_damage.py:205-207 | two decimals, never negative, at most 100 for non-negative damage, 100 for none |
| UvDamage.DamageScore | backend/engine/uv_damage.py:189-207 | never negative; at most 100 for non-negative inputs; 100 when all inputs (missing ones read as 0) are 0 |
| UvDamage.DamageScoreAntitone | backend/engine/uv_damage.py:189-207 | more damage in any input never raises the score |
| UvDamage.ClassifyDamageLevel | backend/engine/uv_damage.py:209-220 | excellent, good, moderate, poor, severe at 80, 60, 40, 20 |
| UvDamage.GenerateRecommendations | backend/engine/uv_damage.py:222-255 | exactly four items, the list of the band below 40, below 60, below 80, or the rest |
| Hydration.TextureTerm | backend/engine/hydration.py:270 | in (0, 1] for a non-negative deviation, 1 at 0 |
| Hydration.RoughnessTerm | backend/engine/hydration.py:273 | in (0, 1] for non-negative roughness, 1 at 0 |
| Hydration.PoreTerm | backend/engine/hydration.py:276 | in [0, 1] for a non-negative density, 0 from 0.1 on, 1 at 0 |
| Hydration.TermsAntitone | backend/engine/hydration.py:270-276 | each sub-score is non-increasing in what it measures |
| Hydration.HydrationScore | backend/engine/hydration.py:264-292 | two decimals; in [0, 100] for non-negative inputs with smoothness in [0, 1]; 100 for perfect inputs |
| Hydration.HydrationScoreAntitone | backend/engine/hydration.py:264-292 | worse measurements never raise the hydration score |
| Hydration.ClassifyHydrationLevel | backend/engine/hydration.py:294-305 | excellent, well_hydrated, normal, dry, dehydrated at 85, 70, 50, 30 |
| Hydration.GenerateHydrationRecommendations | backend/engine/hydration.py:307-344 | exactly five items, the list of the band below 30, below 50, below 70, or the rest |
| PoreAnalysis.AnalyzePoreSizes | backend/engine/pore_analysis.py:266-288 | no pores: mean 0 and unknown; otherwise the mean of the areas, `total_pores` the count and the class of the mean |
| PoreAnalysis.SizeClass | backend/engine/pore_analysis.py:276-281 | small below 10, medium below 25, large otherwise |
| PoreAnalysis.SmallPoresClassifiedSmall | backend/engine/pore_analysis.py:271-281 | pores all smaller than 10 are reported small |
| PoreAnalysis.LargePoresClassifiedLarge | backend/engine/pore_analysis.py:271-281 | pores all at least 25 are reported large |
| PoreAnalysis.Shortfall | backend/engine/pore_analysis.py:327-328 | `1 - min(1, x / scale)` is in [0, 1] for non-negative x, 0 from the scale on, 1 at 0 |
| PoreAnalysis.ClassifyPoreHealth | backend/engine/pore_analysis.py:324-339 | darkness and size scores in [0, 1] for non-negative inputs; overall health is the mean of the three sub-scores and lies in [0, 1] |
| PoreAnalysis.Penalty | backend/engine/pore_analysis.py:420-426 | the clogging and size factors leave a multiplier in [0, 1] |
| PoreAnalysis.Percent | backend/engine/pore_analysis.py:427-429 | two decimals, never negative, at most 100 for a value at most 1 |
| PoreAnalysis.PoreHealthScore | backend/engine/pore_analysis.py:411-429 | never negative; at most 100 for health and clogged ratio in [0, 1] |
| PoreAnalysis.PenaltyAntitone | backend/engine/pore_analysis.py:420-426 | a larger clogged ratio never increases the multiplier |
| PoreAnalysis.PoreHealthScoreAntitone | backend/engine/pore_analysis.py:411-429 | a larger clogged ratio never raises the score |
| PoreAnalysis.ClassifyPoreHealthLevel | backend/engine/pore_analysis.py:431-442 | excellent, good, moderate, poor, clogged at 80, 60, 40, 20 |
| PoreAnalysis.GeneratePoreRecommendations | backend/engine/pore_analysis.py:444-481 | exactly five items, the list of the band below 20, below 40, below 60, or the rest |
| CameraCapture.GetSeverity | analysis-app/components/CameraCapture.tsx:18-22 | high exactly from 80, moderate exactly in [40, 80), low exactly below 40 |
| CameraCapture.SeverityMonotone | analysis-app/components/CameraCapture.tsx:18-22 | a higher score never gets a lower severity |
| CameraCapture.OverallTier | analysis-app/components/CameraCapture.tsx:56-84 | the label tiers of `overall`: above 70, above 50, otherwise |
| CameraCapture.Grade | analysis-app/components/CameraCapture.tsx:88 | A, B, C, D exactly at 80, 60, 40 |
| CameraCapture.NextSteps | analysis-app/components/CameraCapture.tsx:108-113 | each sentence exactly for its band of 80, 60, 40 |
| CameraCapture.TriggeredAdvice | analysis-app/components/CameraCapture.tsx:101-104 | each advice is present exactly when its rule fires; empty exactly when none fires; never the maintenance advice |
| CameraCapture.Recommendations | analysis-app/components/CameraCapture.tsx:99-106 | never empty; exactly the maintenance advice when no rule fires, otherwise the triggered advice |
| CameraCapture.GenerateRecommendations | analysis-app/components/CameraCapture.tsx:99-106 | the pushes in rule order produce exactly the recommendation list |
| CameraCapture.ReplaceFirstOnly | analysis-app/components/CameraCapture.tsx:31 | `replace('_', ' ')` turns only the first underscore into a space |
| CameraCapture.HumanizedRegionKeys | analysis-app/components/CameraCapture.tsx:31-51 | the five region keys display as Forehead, Nose, Chin, Cheek Left, Cheek Right |
| CameraCapture.AreasSound | analysis-app/components/CameraCapture.tsx:29-51 | every listed area is the display name of a region that qualifies |
| CameraCapture.AreasComplete | analysis-app/components/CameraCapture.tsx:29-51 | every qualifying region's display name is listed |
| CameraCapture.AreasAppend | analysis-app/components/CameraCapture.tsx:29-31 | listing distributes over concatenation: names come in region order, one per qualifying region |
| CameraCapture.AreasEmptyIffNone | analysis-app/components/CameraCapture.tsx:29-51 | a list is empty exactly when no region qualifies |
| CameraCapture.AcneCount | analysis-app/components/CameraCapture.tsx:27 | the sum of the counts, missing or null as 0, is non-negative for non-negative counts |
| CameraCapture.AcneCountPositiveIffAreas | analysis-app/components/CameraCapture.tsx:27-31 | with non-negative counts, the acne total is positive exactly when the acne area list is non-empty |
| CameraCapture.ConvertBackendToFrontend | analysis-app/components/CameraCapture.tsx:14-96 | texture, sun damage and pores share one severity and one figure; elasticity is 100 minus fine lines; pores reuse the acne areas and sun damage the wrinkle areas; advice is never empty; its ranges are ReportInRange, the texture and health complement TextureComplementsHealth, and the acne count and areas agreement AcneCountPositiveIffAreas |
| CameraCapture.ReportInRange | analysis-app/components/CameraCapture.tsx:24-91 | scores in [0, 100] give percentages, elasticity, texture and skin health in [0, 100] and hydration in [50, 100] |
| CameraCapture.RoundComplement | analysis-app/components/CameraCapture.tsx:63-87 | rounding `100 - o` and `o` half-up gives 100 in total, or 101 when `o` is half-way between integers |
| CameraCapture.TextureComplementsHealth | analysis-app/components/CameraCapture.tsx:64-87 | the texture score and the skin-health figure add up to 100 (101 at half-way values) |
| CameraCapture.EncodeLandmarks | analysis-app/components/CameraCapture.tsx:255-259 | one integer triple per keypoint, each coordinate the nearest integer, a missing z sent as 0 |
| CameraCapture.FullMeshAccepted | analysis-app/components/CameraCapture.tsx:255-259 | a full 468-point mesh passes the service's landmark validation |
| CameraCapture.PollRequests | analysis-app/components/CameraCapture.tsx:301-389 | between 1 and 30 requests; fewer than 30 only when the last one delivered |
| CameraCapture.PollDeliversIffDone | analysis-app/components/CameraCapture.tsx:301-389 | a report is delivered exactly when one of the first 30 outcomes is done; it is the first one's conversion, and every earlier outcome was retried; otherwise all 30 requests are spent |
| CameraCapture.Poll | analysis-app/components/CameraCapture.tsx:301-389 | the poll loop makes exactly those requests and delivers exactly that report |
| CameraCapture.DoneOnSecondPoll | analysis-app/components/CameraCapture.tsx:304-369 | processing, then done: two requests, and the second result is delivered |
| CameraCapture.SubmitErrorMessage | analysis-app/components/CameraCapture.tsx:474 | a thrown error reports its own message |
| CameraCapture.Fallback | analysis-app/components/CameraCapture.tsx:442-525 | a failed submission hands on the local analysis with the API error, or the sample data with the fixed message |
| CameraCapture.CaptureAndAnalyze | analysis-app/components/CameraCapture.tsx:221-544 | not ready or detector failure: nothing, no request; no face: no analysis and "No face detected", no request; else one submission, then the fallback, the immediate result, or the polled report after the poll requests |
| FaceMeshApp.AnalyzePixels | src/App.js:123-150 | the loop counts exactly the red and dark pixels of all pixels and sums their brightness |
| FaceMeshApp.BrightnessTests | src/App.js:134-143 | the loop's real-valued tests are the integer tests the spot predicates use |
| FaceMeshApp.FirstPixelNeverDark | src/App.js:134-145 | the first pixel is never a dark spot |
| FaceMeshApp.UniformDarkRaster | src/App.js:134-145 | because the test compares with a running total, a uniform dark raster counts every pixel but the first as dark |
| FaceMeshApp.AcneScore | src/App.js:152-156 | in [0, 100]; 0 without red pixels |
| FaceMeshApp.PigmentationScore | src/App.js:153-157 | in [0, 100]; 0 without dark pixels |
| FaceMeshApp.OverallScore | src/App.js:158 | in [0, 100] for non-negative components; for components in [0, 100] it is `100 - (acne + pigmentation) / 2` |
| FaceMeshApp.AcneScoreMonotone | src/App.js:152-156 | more red pixels never lower the acne score |
| FaceMeshApp.PigmentationScoreMonotone | src/App.js:153-157 | more dark pixels never lower the pigmentation score |
| FaceMeshApp.SpotBand | src/App.js:163-168 | each band exactly for its interval; a NaN score is Severe |
| FaceMeshApp.GradeOf | src/App.js:173 | Excellent, Good, Fair, Needs Attention exactly above 80, 60, 40 and below; NaN gets Needs Attention |
| FaceMeshApp.RawScores | src/App.js:150-158 | no pixels: all three scores NaN; otherwise in [0, 100] with overall the complement of the mean |
| FaceMeshApp.SkinReport | src/App.js:160-176 | no pixels: NaN scores, Severe bands, Needs Attention; otherwise rounded scores in [0, 100] with the bands of the raw scores; spots are the counts / 100 rounded |
| FaceMeshApp.CleanRaster | src/App.js:152-174 | a raster without red or dark pixels scores 0, 0 and 100, Minimal, Minimal, Excellent |
| FaceMeshApp.FaceBox | src/App.js:196-209 | the crop box starts inside the frame and ends within 640 x 480 |
| FaceMeshApp.FaceBoxCoversFace | src/App.js:196-209 | keypoints inside the frame all lie inside the crop box |
| FaceMeshApp.WithoutId | src/App.js:269 | the kept photos are exactly those with another id |
| FaceMeshApp.WithoutIdAppend | src/App.js:269 | filtering distributes over concatenation, so order is preserved |
| FaceMeshApp.WithoutIdIdempotent | src/App.js:268-270 | deleting twice is deleting once |
| FaceMeshApp.DeleteUndoesTake | src/App.js:108-111 | deleting a just-taken photo with a new id restores the list |
| FaceMeshApp.App.constructor | src/App.js:15-20 | no photos, not capturing, no crop, no analysis |
| FaceMeshApp.App.TakePhoto | src/App.js:81-112 | without a webcam nothing changes; otherwise the new photo goes in front of the unchanged rest |
| FaceMeshApp.App.DeletePhoto | src/App.js:268-270 | keeps exactly the photos with another id, in order; nothing else changes |
| FaceMeshApp.App.CapturePhoto | src/App.js:243-248 | ignored while capturing; otherwise the countdown starts |
| FaceMeshApp.App.FinishCapture | src/App.js:254-262 | the photo is taken and capturing ends |
| FaceMeshApp.App.AnalyzeSkin | src/App.js:115-183 | an empty crop (a zero-size canvas, on which `getImageData` throws into a catch that only logs) leaves the analysis as it was; otherwise stores the record of the pixel pass over the crop |
| FaceMeshApp.App.CaptureFaceFromMesh | src/App.js:186-240 | without a webcam, model or face nothing changes; otherwise the first face's crop box is stored, and the analysis is that of the crop, or unchanged when the crop is empty |

## Left out

- Camera, face model and canvas work are not modelled: `estimateFaces`, `drawImage`, `getImageData`, `toDataURL` and the dot and mesh drawing. Their outputs are parameters.
- Network and encoding glue is not modelled: `fetch`, `FormData`, the base64-to-Blob conversion and JSON parsing. Each request's outcome is a parameter.
- Timers are not modelled: the 2000 ms poll spacing, the 500 ms hand-over delays and the countdown ticks. The countdown is modelled as its start (`CapturePhoto`) and its end (`FinishCapture`).
- Progress indicators, `isAnalyzing` flags, the tips carousel and the camera toggle are UI state and are not modelled.
- analysis-app/utils/utilities.js is not part of this model. The local analyser's outcome is a parameter of `CaptureAndAnalyze`.
- Image processing is not modelled: the filters of the UV, hydration and pore analysers, and preprocessing, detection, pigmentation and wrinkle masks, overlays, `boundingRect`, `rectangle`, `imread` and `imwrite`. Their numeric outputs are inputs.
- The FastAPI routing, the upload file, `BackgroundTasks` and the lock are not modelled. The job operations run one at a time.
- `uuid4` is not modelled. The fresh job id is a parameter assumed unused.
- Floating point: the model computes on exact reals. IEEE rounding of intermediate results is not modelled. `Math.round` and Python's `round` are modelled on the exact value.
- NaN is modelled only in `FaceMeshApp.RawScores` and `FaceMeshApp.SkinReport`, as what the arithmetic gives for zero pixels (`None`). The app never stores that record, because an empty crop makes `getImageData` throw first. `round(x, 2)`'s float representation error is not modelled.
- The insight texts, the supporting-evidence lines, the `metric`/`suggestion`/`recommendation` strings inside insights and the default insight's sentence templates are presentation and are not modelled. The default insight records only which metric and band it praises.
- PoreAnalysis.AnalyzePoreSizes: the standard deviation `std_area` is not modelled, since it needs a square root.
- Hydration.HydrationScore: requires the two divisors `1 + std / 20` and `1 + roughness / 30` to be non-zero. The source would raise on them.
- Insights.Candidates: requires region metrics to be numbers or missing. Comparing `None` with a number raises in the source, and the requirement is carried by every early-sign member.
- FaceMeshApp.App.FinishCapture: requires a countdown to be under way. It is reached only through `CapturePhoto`.
- FaceMeshApp.FaceBox: requires a non-empty keypoint list. `Math.min` of an empty list is `Infinity` in the source, and a detected face always has its mesh.
- JobStore.ValidateLandmarks: the decoded list is typed as a list of coordinate lists. The source counts the elements of any JSON list, whatever they hold, and the model keeps only that count.
- CameraCapture.ConvertBackendToFrontend: takes the scores as four numbers. A response with missing scores, which the source would turn into NaN fields, is not modelled.
- CameraCapture.Humanize: upper-cases ASCII letters only; `toUpperCase` on other characters is not modelled.
- The sample data of the last fallback is a constant whose fields are not modelled (`Sample`).
- `downloadPhoto`, `toggleCamera` and the mesh drawing in `src/App.js` are I/O and are not modelled.
