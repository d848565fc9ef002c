# Resume screener core, modelled in Dafny

The system ranks uploaded resumes against a job description. Each resume goes through the same steps:

1. Its text is redacted.
2. A profile is extracted from it: skills, education lines and date ranges.
3. The profile is enriched: skill synonyms, certifications, contacts, extra ranges and education levels.
4. Its work history is analysed:
   - date parsing;
   - dropping inverted and short spans;
   - merging, total tenure, gaps and overlaps;
   - stated years, metric anomalies and duplicate claims;
   - flags and missing skills.

The whole cohort is then scored and ranked:

- keyword coverage;
- semantic similarity;
- trend-skill weight;
- certification, education and contact bonuses;
- flag penalties;
- a consistency bonus;
- confidence and a separate risk score.

Two web routes drive all of this:

- `/api/process` validates the form, keeps a per-session bucket of entries, replaces or appends the entry for each uploaded file, then scores and persists.
- `/api/analytics` does the same. Before scoring it also attaches a 2-D projection, a cluster id and the top-5 most similar other resumes to every entry. After scoring it computes a composite success score.

## Files and modules

Modules are one per file:

| File | Module | What it holds |
|---|---|---|
| `seqs.dfy` | `Seqs` | Option/Result, Python set-as-sequence (`Dedup`), filtering, `Take` (`s[:n]`), `Clamp01` |
| `sorting.dfy` | `Sorting` | Python's stable `list.sort` as an insertion sort `SortBy` over a total preorder, with its sortedness, permutation and stability lemmas |
| `text.dfy` | `Text` | `str.strip`, `str.lower` (ASCII), `in` on strings, `str.split` / `re.split` on a character class, `str.splitlines`, string order and `sorted` |
| `dates.dfy` | `Dates` | Python `datetime` values, their order, and `(b - a).days` through the proleptic Gregorian ordinal |
| `intervals.dfy` | `Intervals` | the date-range part of `services/analysis.py` |
| `records.dfy` | `Records` | the dict-shaped records: raw profile, enriched profile, analysis result, candidate entry |
| `analysis.dfy` | `Analysis` | the text heuristics, enrichment, duplicate detection and `analyze_profile_vs_job` |
| `nlp.dfy` | `Nlp` | `extract_profile` |
| `scoring.dfy` | `Scoring` | `_lower_set`, `_detect_trend_skills`, `score_candidates` |
| `app.dfy` | `App` | the request handling of `app.py` |

How the source's forms became Dafny:

- Loops that accumulate are methods. Each is proved against a specification function: `ensures result == F(inputs)`. Examples:
  - `NormalizeRanges`, `MergeIntervals`, `FindGaps`, `DetectOverlaps`;
  - `CollectCertifications`, `SupplementalRanges`, `DetectDuplicates`;
  - `CollectTokens`, `CollectRanges`;
  - `DetectTrendSkills`, `ScoreCandidates`;
  - `ReplaceOrAppend`, `ProcessUploads`, `NearestNeighbors`.
- The properties the source promises are lemmas about those functions.
- `_enrich_profile` updates the caller's dict in place, so it is the class `Analysis.Profile` with a `modifies` method.
- The global `SESSIONS` dict is the class `App.SessionStore`, whose map field the routes reassign.
- Python sets that are only sorted or counted are duplicate-free sequences.

## Model

| member | source | states |
|---|---|---|
| Dates.OrderFacts | services/analysis.py:33-34 | datetime comparison is a total order: trichotomy, asymmetry, transitivity through `<=` |
| Dates.InstantOrder | services/analysis.py:40-41 | `a < b` holds exactly when a's instant is earlier, and equal datetimes have equal instants |
| Dates.DaysBetweenNonNegative | services/analysis.py:87-89 | `(b - a).days` is never negative when `a <= b`, and is 0 for equal times |
| Dates.MinTime | services/analysis.py:108 | `min(prev_e, cur_e)` is one of its arguments and is not after either |
| Sorting.SortByFacts | services/analysis.py:34 | the stable sort returns a sorted permutation, and entries of equal key keep their input order |
| Text.StripFacts | app.py:58-61 | `str.strip` result has no surrounding whitespace and is a slice of the input with only whitespace cut off |
| Text.StripIdempotent | app.py:60-61 | stripping twice is stripping once |
| Text.SplitJoin | app.py:60-61 | splitting on a separator and joining the pieces with it gives the input back |
| Text.SplitBy | services/nlp.py:47 | the split yields at least one piece and no piece contains a separator |
| Text.LowerFacts | services/nlp.py:43 | lowering gives a string without upper-case letters, is idempotent and leaves lower-case strings unchanged |
| Text.SortStringsSet | services/nlp.py:105 | `sorted` of a set gives a sorted, duplicate-free sequence of exactly its elements |
| Intervals.ParsePair | services/analysis.py:16-19 | a pair is dropped iff its start does not parse; the end is `now` for present, current or an unparsable end, else the parsed end |
| Intervals.ParsedMembers | services/analysis.py:25-30 | the accumulated intervals are exactly the results of the pairs whose start parses |
| Intervals.NormalizeRanges | services/analysis.py:22-35 | the loop, the inverted-pair filter and the sort compute `NormalizedRanges` |
| Intervals.NormalizedRangesFacts | services/analysis.py:22-35 | normalised ranges are sorted by start, each has start <= end, and they are a permutation of the parsed non-inverted pairs |
| Intervals.MonthsBetween | services/analysis.py:38-46 | the month span is never negative |
| Intervals.MonthsBetweenSymmetric | services/analysis.py:40-41 | the span does not depend on argument order |
| Intervals.MonthsBetweenUnclamped | services/analysis.py:42-46 | for an ordered pair the raw whole-month-plus-days/30 formula is already non-negative, so the clamp never bites |
| Intervals.FilterShortFacts | services/analysis.py:49-53 | empty input gives empty output; exactly the intervals of at least `min_months` are kept, each as often as it occurs; start order and ordering are preserved |
| Intervals.MergeIntervals | services/analysis.py:56-70 | the run loop computes `Merge` |
| Intervals.MergeFacts | services/analysis.py:56-70 | on sorted ordered input: empty iff empty; no more runs than intervals; the first run starts at the first start; runs are ordered and strictly separated; every input interval lies inside some run |
| Intervals.TotalExperienceMonths | services/analysis.py:73-75 | total tenure is never negative and is 0 for no intervals |
| Intervals.MonthsBetweenCounts | services/analysis.py:38-46 | for an ordered pair the span is the difference of the month counts `12*year + month + day/30`, which never decrease |
| Intervals.SumMonthsAtLeast | services/analysis.py:75 | the sum over the runs is at least the span of any one run |
| Intervals.MergeFromSumBound | services/analysis.py:56-70 | merging ordered intervals never yields more months than the spans it absorbed |
| Intervals.TotalExperienceBounds | services/analysis.py:56-75 | on sorted ordered input the total tenure is at least the span of every single interval and at most the sum of all spans |
| Intervals.FindGaps | services/analysis.py:78-93 | the loop computes `Gaps` |
| Intervals.GapsFacts | services/analysis.py:78-93 | no gaps below two intervals; at most one per consecutive pair; each is longer than 92 days; a gap is recorded exactly for the consecutive pairs more than 92 days apart |
| Intervals.DetectOverlaps | services/analysis.py:96-113 | the loop computes `Overlaps` |
| Intervals.OverlapNonNegative | services/analysis.py:104-112 | an overlap window of ordered intervals has non-negative days |
| Intervals.OverlapsFacts | services/analysis.py:96-113 | no overlaps below two intervals; at most one per consecutive pair; recorded exactly when the later start plus 30 days is before the earlier end; non-negative days on ordered input |
| Analysis.ExtractStatedYears | services/analysis.py:136-155 | empty text gives none; a year range gives its midpoint; otherwise the single stated figure |
| Analysis.SortedSetFacts | services/analysis.py:175 | `sorted(set(vals))` is strictly increasing with exactly the values of the input |
| Analysis.PercentReasonsFacts | services/analysis.py:164-175 | at most one percent reason, present iff some percentage is at least 300, carrying the sorted distinct extreme values |
| Analysis.MultiplierReasonsFacts | services/analysis.py:178-186 | at most one multiplier reason, present iff some multiplier is at least 10, carrying the sorted distinct extreme values |
| Analysis.SuperlativeReasons | services/analysis.py:189-191 | the superlative reason is either absent or the single reason, and is present exactly when there are at least five superlatives and no percentage or multiplier claim |
| Analysis.TimeframeReasons | services/analysis.py:194-195 | the timeframe reason is present iff an improvement word occurs and no timeframe word does |
| Analysis.LoweredAnomaliesFacts | services/analysis.py:164-186 | on the lowered text: at most four reasons; the extreme-percent and extreme-multiplier reasons are present iff such values exist, each carrying exactly those values in increasing order |
| Analysis.LoweredAnomalyKinds | services/analysis.py:158-197 | on the lowered text: the superlative reason iff at least five superlatives occur and there is no percentage or multiplier claim; the timeframe reason iff improvement words appear without a timeframe; no reason of any other kind |
| Analysis.MetricAnomaliesFacts | services/analysis.py:158-197 | no reasons for empty text; otherwise each reason is present under exactly the condition above, evaluated on the lowered text, and no reason of another kind |
| Analysis.SynonymsInMembers | services/analysis.py:310-316 | a canonical name is added exactly when some token has it as its synonym |
| Analysis.EnrichedFromFacts | services/analysis.py:301-317 | the enriched skills are sorted and duplicate-free, and exactly the lowered skills, the multi-word phrases in the text and the synonyms of its tokens |
| Analysis.EnrichedSkillsFacts | services/analysis.py:301-317 | as above, and every original skill survives, lowered |
| Analysis.SpacedSynonymKeysUnused | services/analysis.py:284-288 | the two synonym keys with a space can never match a token |
| Analysis.LevelOf | services/analysis.py:321-331 | the first matching pattern, in the order phd, masters, bachelor, diploma, gives the level; none when nothing matches |
| Analysis.NormalizeEducationFacts | services/analysis.py:328-334 | every normalised entry is an education line paired with the level its patterns give |
| Analysis.CollectCertifications | services/analysis.py:337-348 | the match loop computes the first ten unique stripped non-empty matches |
| Analysis.CertificationsFacts | services/analysis.py:337-348 | certifications are distinct, at most ten, non-empty and stripped, each a stripped match |
| Analysis.ExtractContacts | services/analysis.py:351-361 | at most five links, the first ones found |
| Analysis.SupplementalRanges | services/analysis.py:364-382 | the line loop computes `ExtraRanges` |
| Analysis.ExtraUpToFacts | services/analysis.py:371-382 | every supplemental range comes from a non-blank line with no project keyword, whose window has an employment keyword |
| Analysis.AppendNewRanges | services/analysis.py:383-387 | the existing ranges are kept in order, followed by the supplemental ranges not among them |
| Analysis.EnrichedFacts | services/analysis.py:300-389 | enrichment only appends ranges, every appended one supplemental and new; education lines are untouched; certifications are distinct and at most ten |
| Analysis.Profile.constructor | services/nlp.py:104-108 | the dict holds the extracted skills, education and ranges and no enriched keys |
| Analysis.Profile.Enrich | services/analysis.py:300-389 | the dict after `_enrich_profile` is `Enriched` of the dict before |
| Analysis.EnrichValues | services/analysis.py:300-389 | the values written into the dict are `Enriched` of the old dict |
| Analysis.AddSupplementalRanges | services/analysis.py:363-387 | the ranges after enrichment are the old ones plus the new supplemental ones |
| Analysis.ScanDuplicates | services/analysis.py:394-404 | the scan loop computes the first five flagged lines |
| Analysis.DetectDuplicates | services/analysis.py:394-404 | `_detect_duplicates` with the stripped lowered key and the stripped value |
| Analysis.SeenUpToFacts | services/analysis.py:395-403 | `seen` holds exactly the non-blank keys of the lines so far |
| Analysis.IsDupAtIff | services/analysis.py:399-403 | a line is flagged iff its key is longer than 15 characters and equals the key of an earlier line |
| Analysis.AllDupsUpToFacts | services/analysis.py:394-403 | the flagged values are exactly the values of flagged lines |
| Analysis.DuplicatesByFacts | services/analysis.py:394-404 | at most five results, each the value of a line whose long key repeats an earlier line's |
| Analysis.DuplicatesFacts | services/analysis.py:394-404 | at most five duplicates, each a stripped line repeating an earlier line's stripped, lowered key; all of them when there are at most five |
| Analysis.AssembleFlags | services/analysis.py:236-262 | each flag is raised exactly when its condition holds, once, in the fixed order |
| Analysis.MissingSkillsFacts | services/analysis.py:249-251 | missing skills are sorted, distinct, and exactly the lowered hard skills not among the lowered enriched skills |
| Analysis.AnomalyReasonsFacts | services/analysis.py:226-262 | with resume text every metric reason is kept, the duration reason appears iff a stated figure differs from the tenure by more than 1.5 years, and very-low tenure is never reported; without text only the very-low reason, iff tenure is below 0.25 years |
| Analysis.AnalysisFromReasons | services/analysis.py:226-262 | with resume text the result's duration reason appears iff its stated years are more than 1.5 from its tenure, and the very-low reason never appears |
| Analysis.MetricAnomaliesExclude | services/analysis.py:158-197 | the metric heuristics never report the duration or very-low-tenure reasons |
| Analysis.AnalyzeProfileVsJob | services/analysis.py:202-279 | the profile object is enriched in place, and the result is `Analyze` of the enriched profile |
| Analysis.AnalyzeFacts | services/analysis.py:202-279 | each flag is raised exactly with its evidence; exaggeration exactly with an anomaly reason; gaps exceed 92 days; overlaps have non-negative days; tenure is non-negative; without resume text there are no stated years, and a reason appears iff tenure is below 0.25 years; with resume text the duration reason appears iff the stated years differ from the tenure by more than 1.5, and the very-low reason never appears |
| Nlp.TaxonomyTokensMembers | services/nlp.py:47-51 | a token is kept exactly when it is non-empty and a taxonomy entry |
| Nlp.CollectTokens | services/nlp.py:46-51 | the token loop adds the taxonomy tokens to the set, first occurrences only |
| Nlp.AddPhrases | services/nlp.py:53-59 | the phrase loop adds the occurring phrases to the set |
| Nlp.SkillsFacts | services/nlp.py:45-59 | the skills are sorted, distinct, and exactly the taxonomy tokens of the lowered text and the multi-word phrases occurring in it |
| Nlp.CollectEducation | services/nlp.py:62-68 | the line loop computes `EducationUpTo` |
| Nlp.EducationFacts | services/nlp.py:62-68 | each education entry is a non-empty stripped line of the text matching the degree pattern; no more entries than lines |
| Nlp.NextSection | services/nlp.py:86-89 | the experience heading wins over the projects heading; a line with neither keeps the section |
| Nlp.SectionAfterFacts | services/nlp.py:80-89 | the section is none before any heading, and is set by the last heading line; experience when that line matched the experience heading |
| Nlp.RangeAtFacts | services/nlp.py:92-102 | a range is recorded for a line iff: the line is non-blank and dated; its window holds a full range; the section is not projects; and the section is experience or the window has employment words and no project words |
| Nlp.RangeStep | services/nlp.py:81-102 | one pass updates the section and yields the range recorded for the line |
| Nlp.CollectRanges | services/nlp.py:78-102 | the range loop computes `RangesUpTo` |
| Nlp.RangesFacts | services/nlp.py:78-102 | every recorded range is the one recorded for some line, and there are no more ranges than lines |
| Nlp.ExtractProfile | services/nlp.py:41-108 | `extract_profile` computes `ProfileOf` |
| Nlp.ProfileFacts | services/nlp.py:104-108 | at most ten education lines and ten ranges; each a prefix of the full lists; skills sorted and distinct |
| Scoring.LowerSet | services/scoring.py:57-58 | `_lower_set` is duplicate-free and holds exactly the lowered items |
| Scoring.TrendTotal | services/scoring.py:50 | the total is at least 1e-6 and at least the weight sum |
| Scoring.DetectTrendSkills | services/scoring.py:61-69 | the loop returns the sorted hit keys and the trend score |
| Scoring.TrendHitsMembers | services/scoring.py:64-66 | a key is reported exactly when some entry with it is hit in the text or the skills |
| Scoring.TrendHitsDistinct | services/scoring.py:64-66 | with distinct keys no key is reported twice |
| Scoring.HitWeightBounds | services/scoring.py:64-67 | the summed hit weight lies between 0 and the total weight |
| Scoring.TrendFacts | services/scoring.py:61-69 | the matched list is sorted and is exactly the hit keys; the score lies in [0, 1], the plain ratio once the total exceeds its floor |
| Scoring.TrendScoreBounds | services/scoring.py:68 | the trend score lies in [0, 1] |
| Scoring.ShownMembers | services/scoring.py:102-103 | the shown, not-shown and corroborated selections hold exactly the items with the stated property |
| Scoring.ShownSplit | services/scoring.py:102-103 | every item is shown or not, and corroborated items are among the shown |
| Scoring.Coverage | services/scoring.py:105-106 | coverage is 0 with no items, else a fraction in [0, 1] |
| Scoring.KeywordScore | services/scoring.py:108 | the keyword blend of two coverages lies in [0, 1] |
| Scoring.BaseOverall | services/scoring.py:116 | the base blend of three [0, 1] signals lies in [0, 1] |
| Scoring.JdTags | services/scoring.py:76-81 | each emphasis tag is present iff its focus holds |
| Scoring.ContextOf | services/scoring.py:72-93 | the foci are the job-text tests, and the lowered skill sets are duplicate-free |
| Scoring.CertBonus | services/scoring.py:120-122 | the bonus is 0.03 per certification up to the cap, 0.08 under certification emphasis and otherwise 0.06 |
| Scoring.HighestLevel | services/scoring.py:124-131 | the education loop computes `Highest` |
| Scoring.EducationBonusFacts | services/scoring.py:124-132 | the bonus is that of the best level present, 0 without one, at most 0.06 |
| Scoring.ContactBonus | services/scoring.py:134-142 | the bonus lies in [0, 0.02]; it is 0 iff nothing is present and 0.02 iff everything is |
| Scoring.AccumulatePenalty | services/scoring.py:145-156 | the flag loop computes the capped penalty sum |
| Scoring.PenaltyFacts | services/scoring.py:145-156 | the penalty lies in [0, 0.10] and is 0 iff no penalised flag is present |
| Scoring.RawPenaltyFacts | services/scoring.py:153-155 | the uncapped sum is non-negative and 0 iff no penalised flag is present |
| Scoring.Overall | services/scoring.py:159-160 | the clamped score lies in [0, 1] and equals the unclamped sum when that does |
| Scoring.Consistency | services/scoring.py:166-168 | consistency lies in [0, 1] |
| Scoring.ConsistencyTier | services/scoring.py:169-173 | 0.02 iff at least one half, 0.01 iff at least a quarter but below one half, 0 below a quarter |
| Scoring.ConsistencyBonus | services/scoring.py:174-176 | the bonus never exceeds its tier, is the full tier when it fits below 1, is exactly the headroom `1 - overall` when it does not, and never lifts the score above 1 |
| Scoring.FinalOverall | services/scoring.py:177 | the final score lies in [0, 1] and is the score plus the capped bonus, never below the score, and exactly 1 when the full tier would overflow |
| Scoring.Confidence | services/scoring.py:180-182 | confidence lies in [0, 1] and equals the unclamped agreement-coverage-penalty blend on in-range signals |
| Scoring.RiskReasons | services/scoring.py:185-198 | each risk reason is present iff its evidence is |
| Scoring.RiskSumConcat | services/scoring.py:187-198 | the risk weights add over concatenation |
| Scoring.LabelOf | services/scoring.py:199-205 | High iff risk >= 0.6, Medium iff 0.3 <= risk < 0.6, Low iff risk < 0.3 |
| Scoring.Explain | services/scoring.py:209-224 | the three blend lines come first, with their weighted shares; each of the certification, education, contact, penalty and consistency lines appears iff its value exceeds 1e-6; the emphasis lines are exactly the tags |
| Scoring.ExplainTail | services/scoring.py:214-224 | the lines after the shares: each optional line present iff its value exceeds 1e-6, the emphasis lines exactly the tags, and nothing else |
| Scoring.AdjustmentLines | services/scoring.py:214-223 | at most five optional lines, each present iff its value exceeds 1e-6 |
| Scoring.AdjustmentOrder | services/scoring.py:214-223 | the optional lines come in the order certification, education, contact, penalty, consistency |
| Scoring.ExplainOrder | services/scoring.py:209-224 | every kind of line appears at most once and in the source's order, with the emphasis lines after all others |
| Scoring.EmphasisLines | services/scoring.py:224 | one emphasis line per tag, exactly the tags |
| Scoring.AssessRisk | services/scoring.py:185-198 | the risk checks compute the reasons and the clamped sum of their weights |
| Scoring.AddContactBonus | services/scoring.py:134-142 | the contact accumulation computes `ContactBonus` |
| Scoring.CapConsistencyBonus | services/scoring.py:169-176 | the bonus computation computes `ConsistencyBonus` |
| Scoring.ScoreOne | services/scoring.py:97-243 | the loop body computes `ScoreOf` for the candidate |
| Scoring.ScoreAllAt | services/scoring.py:96-110 | entry i is candidate i scored with the i-th similarity, or 0 beyond the list |
| Scoring.ScoreNext | services/scoring.py:96-244 | one pass appends the entry of the next candidate |
| Scoring.ScoreCandidates | services/scoring.py:71-247 | the loop and the sort compute `Ranked` |
| Scoring.RankingFacts | services/scoring.py:246 | the ranking is by overall score descending, then fewer flags, then fewer gaps; it is a permutation and stable |
| Scoring.RankedFacts | services/scoring.py:71-247 | one entry per candidate, a permutation of the scored entries |
| Scoring.SignalsFacts | services/scoring.py:97-168 | coverages, keyword score and consistency lie in [0, 1]; the penalty lies in [0, 0.10]; the missing list is sorted and holds exactly the hard skills found neither in the text nor in the skills |
| Scoring.ScoreFacts | services/scoring.py:97-243 | all scores lie in [0, 1]; the label follows the thresholds; the trend skills are exactly the table keys shown; the risk reasons follow their evidence |
| Scoring.ScoredMissingNarrowsAnalysis | services/scoring.py:162 | the scorer's missing list is the analysis's list minus the skills mentioned in the text |
| Scoring.MissingSkillsDisagree | services/analysis.py:249-251 | a resume mentioning its only hard skill in the text but not in its skills: the analysis reports it missing, the scorer does not |
| App.StrippedPiecesMembers | app.py:60-61 | the skill list holds exactly the non-empty stripped pieces |
| App.SkillListFacts | app.py:60-61 | an empty field gives no skills; every skill is non-empty, stripped and comma-free, and is the strip of some comma piece |
| App.RequestOf | app.py:52-61 | the job text and session id are stripped |
| App.Validate | app.py:63-68 | no rejection iff the job text is non-empty and files or a session id exist; the job text is checked first |
| App.PreparedBucket | app.py:71-93 | the bucket has the request's context; its entries are kept iff the old bucket had the same context, else emptied |
| App.AccumulationFacts | app.py:71-135 | after persisting, the same context finds the persisted entries, a changed context finds none, and other sessions are untouched |
| App.SessionStore.constructor | app.py:26 | the store starts empty |
| App.SessionStore.Prepare | app.py:71-95 | the session's bucket is created or reset, and its entries are returned |
| App.SessionStore.Persist | app.py:134-135 | the session's bucket gets the new entries and nothing else changes |
| App.EntryOf | app.py:97-129 | the entry keeps the filename; it is an error entry iff extraction failed; the texts are capped at 20000 characters |
| App.BuildEntry | app.py:99-114 | extraction, profile, enrichment and analysis compute `EntryOf` |
| App.FirstNamed | app.py:116-120 | the index of the first entry with the filename, or the length when none has it |
| App.ReplaceOrAppend | app.py:115-126 | the loop computes `Upserted` |
| App.UpsertedFacts | app.py:115-126 | the length is unchanged iff the filename is present; the first entry with that name becomes the new entry; other entries are unchanged; distinct names stay distinct |
| App.AfterUploadsFacts | app.py:97-129 | every upload's filename is present afterwards; a failed last upload is the last entry; entries no successful upload names keep their place |
| App.ProcessUploads | app.py:97-129 | the file loop computes `AfterUploads` |
| App.RoundSqrtNearest | app.py:286 | `round(sqrt(n))` is the integer nearest the square root |
| App.ClusterCount | app.py:286-287 | for n >= 2, k is the rounded square root clamped to 2..6, the cap at n never applying, so 2 <= k <= 6 and k <= n |
| App.OtherScoresMembers | app.py:301 | the candidate list holds every other index with its similarity, once |
| App.TopPairsFacts | app.py:299-303 | `min(5, n-1)` neighbours, none the entry itself, sorted by similarity descending; each left-out index scores no higher than any kept one |
| App.TopNeighborsFacts | app.py:303-307 | each neighbour names the filename of its index, with its similarity |
| App.NearestNeighbors | app.py:295-309 | the neighbour loop computes `NeighborsAll` |
| App.NeighborCounts | app.py:295-309 | with a similarity matrix each list has `min(5, n-1)` entries, else none |
| App.AttachAnalytics | app.py:311-315 | the attach loop computes `AttachAll` |
| App.DefaultAnalytics | app.py:267-315 | below two entries, or when vectorising fails, every entry gets (0, 0), cluster 0 and no neighbours |
| App.PenaltyIndicator | app.py:325-327 | the indicator lies in [0, 0.70] and is 0 iff there are no gaps, no overlaps and no exaggeration flag |
| App.SuccessScore | app.py:321-330 | the success score lies in [0, 1] |
| App.SuccessFacts | app.py:321-330 | with in-range scores success is at most 0.95, at most 0.035 below the raw blend, and monotone in the overall score |
| App.AddSuccessScores | app.py:320-332 | the loop pairs every ranked entry with its success score |
| App.Process | app.py:49-142 | a rejection leaves the store untouched; otherwise the response is the ranking of the accumulated entries, and the store holds them |
| App.Analytics | app.py:172-333 | as for `/api/process`; analytics are attached before scoring; success scores follow; the store holds the attached entries |

## Left out

- Regular expressions are not modelled as regular expressions. Each search the source runs is an uninterpreted function in `Analysis.Patterns` or `Nlp.NlpPatterns`. Pure literal alternations (`JD_CERT_KEYS`, `JD_COMPLIANCE_KEYS`) are modelled as substring tests.
- `_parse_date` and `dateutil` fuzzy parsing are left out. The parser is the function parameter `Parser`.
- `datetime.now()` is the parameter `now`.
- Text extraction from files (`extract_text_from_file`) and file reading are left out. An upload carries the extracted text or the message of the exception extraction raised.
- Exceptions raised later in the file loop are left out.
- `redact_sensitive` is the function `Env.redact`. `redaction_notes` is not part of an entry.
- The spaCy pipeline (`load_nlp`) is left out; `extract_profile` never uses it.
- The scikit-learn parts are left out. These are TF-IDF vectorising, PCA, KMeans and cosine similarity. Both are results of `Env` functions:
  - `Env.semantic` supplies the similarity scores `score_candidates` computes;
  - `Env.vectorize` supplies the projection coordinates, cluster labels and similarity matrix, or `None` when vectorising raised.
- Loading `skills_master.json` and the trend-weight JSON is left out. The taxonomy and the trend table are inputs.
- Flask routing, `jsonify`, HTTP status codes and `request.environ` are left out. The responses are the datatype `App.Response`.
- The CSV export (`app.py:145-171`) is left out.
- Concurrent access to `SESSIONS` is left out, because requests are modelled one at a time.
- Rounding (`round(x, 2)`, `round(x, 3)`) and the `%.3f` formatting of explanation lines are left out. Scores are exact reals. Two consequences:
  - `total_years` is rounded to two decimals before the 0.25 and 1.5 comparisons (services/analysis.py:223), so the thresholds shift by up to 0.005 years: 0.246 years is very low in the model but rounds to 0.25, which is not below 0.25, in the source;
  - the success score reads `hard_skill_coverage` (app.py:324) after it was rounded to three decimals (services/scoring.py:233), so the source's success score can differ slightly from the model's.
- `success_explain` strings are left out.
- `Text.Lower` lowers ASCII letters only. Python's Unicode case mapping is not modelled.
- `Text.SplitLines` treats the usual ASCII and Unicode line breaks as boundaries.
- `filename` is a string. A missing filename (`None`) is an empty string. This differs from the source in one case: app.py:119 compares `(c.get("filename") or "")` with `None`, which is never equal, so an upload without a filename is always appended, while the model's empty name replaces an existing entry with an empty or missing name.
- `Analysis.ExtractContacts`: it states only the link cap and the prefix property. The e-mail and phone values are whatever the patterns return.
- `App.SuccessScore`: it states only the bounds. The relation to the blend is in `App.SuccessFacts`.
- `App.RoundSqrtNearest`: it is exact integer arithmetic, where the source uses floating point (`n ** 0.5`, `round`). The two agree because no positive integer lies exactly half-way between two squares.

## Notes on code and design

- The two `missing_hard_skills` computations disagree, and the model keeps both as written:
  - `analyze_profile_vs_job` (services/analysis.py:249-251) excludes only the skills in the enriched skill list;
  - `score_candidates` (services/scoring.py:162) also excludes skills that appear in the resume text;
  - `Scoring.ScoredMissingNarrowsAnalysis` states the exact relation, and `Scoring.MissingSkillsDisagree` gives a resume on which they differ;
  - the scored entry's list overrides the analysis list in the merged dict.
- Two of the synonym keys (`"scikit learn"`, `"natural language processing"`) contain a space. Tokens never do, so these keys never fire (`Analysis.SpacedSynonymKeysUnused`). The phrase `"natural language processing"` still enters through `MULTI_SKILLS`.
- Supplemental ranges are compared only with the ranges present before enrichment. A range found on two lines is therefore appended twice, as in the source.
- In `/api/analytics` the session bucket is persisted before the analytics are attached. The bucket holds the same dict objects the attach loop writes into, so the stored entries carry the analytics. The model stores the attached entries.
