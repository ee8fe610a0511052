# Adaptive Holistic University Ranking: scoring model

This project models the scoring pipeline of the Adaptive Holistic University Ranking
System (`score.py`) in Dafny, and proves what the pipeline guarantees.

A university is rated on five factors:

- Quality of Teaching Faculty (QTF)
- Teaching Methods (TM)
- Placement Services (PS)
- Campus Culture (CC)
- Research Opportunities (RO)

Each factor is a fixed weighted sum of sub-metrics. Each sub-metric is first brought to
the 0-10 scale by one of three primitives: min-max scaling, a mid-rank percentile against
a reference population, or the Likert adjustment `2.5 * (rating - 1)`.

Pressing "Calculate University Score" then aggregates the five raw factor scores:

1. Each raw score is peer-adjusted: 70% of the raw score plus 30% of its percentile among
   a population of other universities with the score itself appended.
2. The adjusted scores are combined under the global weights. These are one of three
   presets, or five integer slider percentages rescaled proportionally when they do not
   total 100.
3. A synergy bonus is added when three or more adjusted scores exceed 7. It is half the
   excess of the mean of the three largest.
4. A penalty of 0.2 is subtracted per adjusted score below 3.
5. The total is clamped to 0-10 and rescaled to a 1000-point score.

Files and modules:

| file | module | contents |
|---|---|---|
| `series.dfy` | `Series` | sums, weighted sums, means, and a descending sort (numpy's `sum`/`mean`, Python's `sorted(..., reverse=True)`) |
| `normalization.dfy` | `Normalization` | the three normalization primitives and the element counts behind the percentile |
| `factors.dfy` | `Factors` | the five factor calculators and their sub-score lists |
| `weights.dfy` | `Weights` | the factors, the presets, custom weight selection (a method following the sidebar's branches) and its specification |
| `aggregation.dfy` | `Aggregation` | peer adjustment, base score, bonus, penalty, clamp and rescale; methods for the loop over the factors, the synergy step and the whole aggregation |
| `pipeline.dfy` | `Scoring` | one press of the button, from submitted metrics to the final breakdown |

How the source is represented:

- Arithmetic is over `real`, so every formula of the source is exact.
- Python dictionaries keyed by factor become `map<Factor, _>`.
- A factor's sub-score dictionary becomes an ordered list of (key, value) pairs.
- The reference populations, which the source draws at random, are parameters.

The model follows the code wherever the in-app documentation says something else:

- The documented final formula (`score.py:409-413`) has no clamp. The code clamps at line 331.
- The PS, CC and RO sub-metric weights listed at lines 432-445 differ from those the
  calculators use (lines 103-107, 128-132 and 154-159).

## Model

| member | source | states |
|---|---|---|
| Normalization.MinMaxScale | score.py:10-14 | a degenerate range gives 0; otherwise the low end maps to 0 and the high end to 10; over a proper range the result is in [0, 10] exactly when the value is in the range, so nothing is clamped |
| Normalization.MinMaxScaleMonotone | score.py:14 | over a proper range the scale is non-decreasing in the value, and strictly increasing |
| Normalization.PercentileScore | score.py:16-28 | an empty series gives 0; otherwise the score times the length is 10 * (#less + 0.5 * #equal) |
| Normalization.CountLess | score.py:23 | the number of elements strictly below the value (the sum of a boolean mask) |
| Normalization.CountEqual | score.py:24 | the number of elements equal to the value |
| Normalization.PercentileInRange | score.py:16-28 | the percentile always lies in [0, 10] |
| Normalization.PercentileBelowAll | score.py:23-28 | a value below every element gives 0 |
| Normalization.PercentileAboveAll | score.py:23-28 | a value above every element of a non-empty series gives 10 |
| Normalization.PercentileAllEqual | score.py:23-28 | a value equal to every element of a non-empty series gives 5 |
| Normalization.PercentileOfMemberPositive | score.py:23-28 | a value in the series gets a percentile strictly above 0 |
| Normalization.PercentileMonotone | score.py:23-28 | against a fixed series the percentile is monotone in the value |
| Normalization.CountsPartition | score.py:23-24 | #less + #equal + #greater equals the length of the series |
| Normalization.CountsWhenAllAbove | score.py:23-24 | when every element exceeds v, nothing is less than or equal to v |
| Normalization.CountsWhenAllBelow | score.py:23-24 | when every element is below v, all count as less and none as equal |
| Normalization.CountsWhenAllEqual | score.py:23-24 | when every element equals v, all count as equal and none as less |
| Normalization.CountEqualOfMember | score.py:24 | a member of the series is counted as equal at least once |
| Normalization.MidRankCountMonotone | score.py:23-27 | the doubled mid-rank count 2 * #less + #equal never decreases as the value grows |
| Normalization.CountsOfAppend | score.py:301 | appending a value adds one to exactly the count it falls into |
| Normalization.SurveyAdjust | score.py:30-33 | rating 1 gives 0, 3 gives 5, 5 gives 10; the result is in [0, 10] exactly when the rating is in [1, 5] |
| Series.SortDescending | score.py:319 | the result is sorted in descending order and is a permutation of the input |
| Series.Mean | score.py:319 | the mean of a non-empty list; a list of equal values has that value as its mean |
| Series.TopOfSortIsLargest | score.py:319 | the first k elements of the sort are drawn from the input, and every element left over is at most the k-th |
| Series.PrefixOfSortedIsLargest | score.py:319 | in a descending sequence, nothing after the first k elements exceeds the k-th |
| Series.DotBetween | score.py:312 | a weighted sum with non-negative weights lies between lo and hi times the total weight |
| Series.ConvexCombinationBetween | score.py:312 | weights that are non-negative and sum to one keep a weighted sum of values in [lo, hi] inside [lo, hi] |
| Series.MeanBetween | score.py:319 | the mean of values all above t and at most hi is above t and at most hi |
| Factors.LocalWeightsConvex | score.py:65-159 | each calculator's local weights are non-negative and sum to one |
| Factors.FactorInScale | score.py:65-159 | a factor whose score is its weights' convex combination of sub-scores in [0, 10] scores in [0, 10] |
| Factors.Qtf | score.py:57-72 | the sub-score keys are Expertise, Clarity and Approachability in that order, and the score is the 40/30/30 weighted sum of exactly the reported sub-score values |
| Factors.Tm | score.py:74-89 | the three inputs are reported unchanged under their keys, and the score is the 30/40/30 weighted sum of them |
| Factors.Ps | score.py:91-114 | the five keys in order, and the score is the 30/20/20/15/15 weighted sum of the reported values |
| Factors.Cc | score.py:116-139 | the five keys in order, the four percentage inputs reported unchanged, and the score is the 30/20/20/15/15 weighted sum of the reported values |
| Factors.Ro | score.py:141-167 | the six keys in order, and the score is the 20/15/25/15/15/10 weighted sum of the reported values |
| Factors.QtfInScale | score.py:57-67 | an h-index in its reference range and a clarity rating in 1-5 give a QTF score in [0, 10] |
| Factors.TmInScale | score.py:74-84 | TM inputs in [0, 10] give a TM score in [0, 10] |
| Factors.PsInScale | score.py:91-107 | an employer rating in 1-5 and partnership and venture counts within their scaling maxima give a PS score in [0, 10] |
| Factors.CcInScale | score.py:116-132 | an inclusion rating in 1-5 and percentage inputs in [0, 10] give a CC score in [0, 10] |
| Factors.RoInScale | score.py:141-159 | inputs within the scaling ranges and ratings in 1-5 give an RO score in [0, 10] |
| Factors.QtfExample | score.py:60-61 | an h-index of 25 scores 240/49 and a clarity rating of 4 scores 7.5 |
| Factors.RoLeavesScaleAtFormMaximum | score.py:144-159 | at the largest research inputs the form accepts (lines 263-267), the RO score exceeds 10, since nothing clamps |
| Factors.VentureScoreAtFormMaximum | score.py:98 | 50 ventures, which the form accepts (line 249), scale to 25 against the maximum of 20 |
| Weights.PresetAsWritten | score.py:185-189 | the three rows of the preset table exactly as written, each with an entry for every factor |
| Weights.ResearchPresetTotalsNinetyPercent | score.py:187 | the Research-focused row as written totals 0.90 |
| Weights.Preset | score.py:185-189 | the presets as evidently intended: the table with the Research-focused row rescaled proportionally; an entry for every factor |
| Weights.ResearchPresetKeepsProportions | score.py:187 | the corrected Research-focused weights are the row's weights divided by 0.90 |
| Weights.PresetValid | score.py:185-189 | every corrected preset is non-negative and sums to one |
| Weights.Percentages.Total | score.py:200 | the sum of the five slider percentages |
| Weights.Normalized | score.py:200-219 | the custom weight set: each slider's share of the total, with an entry for every factor |
| Weights.SchemeWeights | score.py:192-221 | the weights a scheme selects: the preset row exactly as the table lists it, or the normalized sliders for Custom |
| Weights.NormalizedAt | score.py:204-219 | each custom weight is its percentage's share of the total, and 0 when the total is not positive |
| Weights.NormalizedAtPositive | score.py:204-211 | with a positive total, each custom weight is its percentage divided by the total |
| Weights.SharesKeepRatios | score.py:204-211 | shares of one positive total keep the ratio of their percentages |
| Weights.RescaledIsShare | score.py:204-210 | scaling by 100 / total (or by 0 for a non-positive total) and dividing by 100 gives the share |
| Weights.RescaledMapIsNormalized | score.py:204-211 | the rescaled weight dictionary is the normalized custom weight set |
| Weights.ExactMapIsNormalized | score.py:213-219 | for a total of exactly 100, dividing each percentage by 100 gives the normalized custom weight set |
| Weights.NormalizedAtHundred | score.py:213-219 | a total of 100 uses each percentage divided by 100 |
| Weights.NormalizedSumsToOne | score.py:204-211 | any positive total is rescaled to weights that sum to one |
| Weights.NormalizedWithoutTotal | score.py:204 | a total of 0 (or below) gives every factor weight 0 |
| Weights.NormalizedValid | score.py:204-211 | non-negative percentages with a positive total give non-negative weights summing to one |
| Weights.SchemeWeightsValid | score.py:184-221 | every scheme with non-negative sliders selects non-negative weights summing to 1 for Default and Teaching-focused, to 0.90 for Research-focused as written, to 1 for custom sliders with a positive total and to 0 for custom sliders all at zero; the selection is a valid weight set exactly when that total is 1 |
| Weights.CurrentWeights | score.py:191-221 | the selected weights are the preset row as written or the normalized custom weights, and the warning case arises exactly for custom percentages not totalling 100 |
| Weights.CustomExactExample | score.py:213-219 | sliders (30, 30, 20, 10, 10) are used as they are |
| Weights.CustomRescaledExample | score.py:204-211 | five sliders at 40 (total 200) are rescaled to 20% each |
| Aggregation.PeerAdjust | score.py:301-308 | the adjusted score lies strictly above 0.7 * raw and at most 0.7 * raw + 3 |
| Aggregation.PeerAdjustInScale | score.py:301-308 | a raw score in [0, 10] gives an adjusted score in (0, 10] |
| Aggregation.PercentileAmongPeers | score.py:301-304 | the percentile among the peers plus the score itself equals ten times (#less + 0.5 * #equal + 0.5) among the peers alone, over the peer count plus one |
| Aggregation.OwnPercentileMonotone | score.py:301-304 | against a fixed population a higher raw score has at least as high a percentile among the peers with itself appended |
| Aggregation.PeerAdjustMonotone | score.py:301-308 | against a fixed population peer adjustment is strictly increasing |
| Aggregation.PeerAdjustWithoutPeers | score.py:301-308 | with an empty population the adjusted score is 0.7 * raw + 1.5 |
| Aggregation.AdjustedScores | score.py:298-308 | the adjusted-score mapping has an entry for every factor |
| Aggregation.AdjustedAt | score.py:298-308 | each factor is adjusted against its own population only |
| Aggregation.AllBetweenValues | score.py:312 | bounds on every entry of a complete mapping carry over to its values in factor order |
| Aggregation.BaseScore | score.py:312 | the weighted sum of the adjusted scores, in factor order |
| Aggregation.AdjustedInScale | score.py:298-308 | raw scores in [0, 10] give adjusted scores in [0, 10] |
| Aggregation.BaseBetween | score.py:312 | under a valid weight set the base score lies between the bounds of the adjusted scores |
| Aggregation.BaseBetweenTotal | score.py:312 | under non-negative weights the base score lies between lo and hi times the total weight, whether or not that total is one |
| Aggregation.EvaluatedBaseBetween | score.py:298-312 | raw scores in [0, 10] and non-negative weights give a base score between 0 and ten times the total weight |
| Aggregation.BaseScoreWrittenOut | score.py:312 | the base score is the sum over the five factors of weight times adjusted score |
| Aggregation.UniformBase | score.py:312 | when every adjusted score equals c, a valid weight set gives base score c |
| Aggregation.HighScoring | score.py:315 | the list holds only scores above 7, as many as the input has, drawn from the input |
| Aggregation.HighScoringComplete | score.py:315 | every score above 7 is in the list |
| Aggregation.SynergyBonus | score.py:314-321 | the bonus is 0 with fewer than three scores above 7 and strictly positive with three or more, so the floor at line 321 never fires |
| Aggregation.TopThreeAboveThreshold | score.py:317-319 | the mean of the three largest high scores lies above 7 and at most the largest |
| Aggregation.SynergyBonusOfTopThree | score.py:317-320 | with three or more high scores the bonus is exactly half the excess of the mean of the top three over 7 |
| Aggregation.SynergyBonusAtMost | score.py:317-321 | scores of at most 10 give a bonus of at most 1.5, as documented at line 448 |
| Aggregation.Penalty | score.py:323-325 | the penalty lies between 0 and 0.2 per factor, and is 0 exactly when no score is below 3 |
| Aggregation.CountLessBounds | score.py:324 | the failing count is at most the number of scores, and 0 exactly when none is below the threshold |
| Aggregation.Clamp | score.py:331 | the result is in [lo, hi]; equal to x inside, lo below and hi above |
| Aggregation.Rescale | score.py:334 | the 1000-point score is 100 times the 0-10 score |
| Aggregation.Combine | score.py:310-334 | the breakdown holds the base score, the synergy bonus and the penalty of the adjusted scores, the clamp of base + bonus - penalty, a 0-10 score and a 0-1000 score, the latter 100 times the former |
| Aggregation.Evaluate | score.py:298-334 | the final score of peer adjustment followed by aggregation always lies in [0, 1000] |
| Aggregation.FinalFollowsDocumentedFormula | score.py:328-334 | the documented formula 100 * (base + bonus - penalty) holds exactly when that total is in [0, 10]; above 10 the score is 1000 and below 0 it is 0 |
| Aggregation.PlainScore | score.py:312-331 | with fewer than three high scores, none failing, and a base on the scale, the 0-10 score is the base score |
| Aggregation.ResearchAsWrittenShrinksBase | score.py:187 | under the Research-focused row as written, uniform adjusted scores c give base 0.9 * c |
| Aggregation.ResearchCorrectedKeepsBase | score.py:187 | under the corrected Research-focused weights, uniform adjusted scores c give base c |
| Aggregation.ResearchRowsAtFive | score.py:187 | adjusted scores of 5 on every factor give a final score of 450 under the Research-focused row as written and 500 under the corrected row |
| Aggregation.FilledInOrderIsAdjusted | score.py:298-308 | a mapping holding the adjusted score of each factor in the order, and nothing else, is the adjusted-score mapping |
| Aggregation.AdjustEachFactor | score.py:298-308 | the loop over the factors fills exactly the adjusted-score mapping |
| Aggregation.ComputeSynergyBonus | score.py:314-321 | the synergy step, with its guard, sort, top-3 mean and floor, computes the synergy bonus |
| Aggregation.CombineAdjusted | score.py:310-334 | the base, bonus, penalty, clamp and rescale steps compute the combined breakdown of the adjusted scores |
| Aggregation.Aggregate | score.py:298-334 | the whole aggregation computes the breakdown of the specification, with a final score in [0, 1000] |
| Scoring.RawFactorScores | score.py:274-286 | the raw factor scores form a complete per-factor mapping |
| Scoring.RawScoresInScale | score.py:274-286 | inputs within the scaling ranges give five raw factor scores in [0, 10] |
| Scoring.BaseScoreInScale | score.py:184-312 | with inputs within the scaling ranges and non-negative sliders, the base score lies between 0 and ten times the selected total weight: on the 0-10 scale for every scheme, at most 9 for Research-focused as written, and 0 when every custom slider is at zero |
| Scoring.CalculateUniversityScore | score.py:184-334 | one press of the button yields the breakdown of the selected weights (the preset row as written, or the normalized sliders) applied to the five calculators' scores, reports the warning case exactly when custom percentages do not total 100, and scores in [0, 1000] |

## Left out

- The Streamlit interface is not modelled: page setup, title, sidebar and widgets (`score.py:170-268`). It only collects inputs.
- The ranges of the input form (`score.py:233-268`) are not enforced; the model accepts any real inputs. Lemmas state what happens inside the scaling ranges, and two lemmas show what happens at the form's wider limits.
- The sidebar's listing of the current weights (`score.py:223-226`) is not modelled. The renormalization warning (`score.py:202`) is modelled only as the `renormalized` result of `Weights.CurrentWeights`.
- Rendering of the results and formatting to two decimals (`score.py:336-358`) are not modelled; this is output only.
- The in-app documentation (`score.py:361-501`) is prose and is not modelled. Its final formula and its sub-metric weights differ from the code, and the model follows the code.
- Random populations (`score.py:35-51` and `288-296`) are not drawn; the model takes them as `seq<real>` parameters. Their size (`score.py:7`) and their distributions are not used.
- Floating point and numpy arrays are not modelled. Arithmetic is exact over `real`, and numpy's vector counts are recursive counts over sequences.
- The integer inputs (partnership, venture and PhD counts) are modelled as reals.
- `Weights.Preset`: the corrected Research-focused row is not what the program uses, so the pipeline (`Weights.SchemeWeights`, `Weights.CurrentWeights`, `Scoring.CalculateUniversityScore`) follows the table as written; the correction is stated and proved only beside it. See Findings.
- The sub-score dictionaries are modelled as ordered lists of (key, value) pairs. Each key is a constructor of `Factors.SubMetric`, so distinct sub-metrics have distinct keys; the keys' display text is not modelled.

## Findings

| source | as written | input that shows it | evidently intended | confidence | as-written member | corrected member |
|---|---|---|---|---|---|---|
| score.py:187 | the Research-focused preset weights (0.20, 0.15, 0.15, 0.10, 0.30) total 0.90 | the Research-focused scheme with every adjusted score equal to 5 (no bonus, no penalty) gives base 4.5 and a final score of 450, where weights summing to one give 500 | weights summing to one like the other two presets; the model rescales the row proportionally, by the rule the sidebar applies to custom weights | not executed | Aggregation.ResearchAsWrittenShrinksBase | Aggregation.ResearchCorrectedKeepsBase |

The as-written total is stated by `Weights.ResearchPresetTotalsNinetyPercent`. The pipeline follows the program and uses the row as written; `Aggregation.ResearchRowsAtFive` shows the two final scores for adjusted scores of 5. The corrected row is `Weights.Preset`, and `Weights.PresetValid` proves that it is a valid weight set.
