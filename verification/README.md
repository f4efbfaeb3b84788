# Wellness location analyzer — Dafny model of the scoring and aggregation core

The program records "wellness" scores for places. It has two parts with real logic, and this project models both:

- **Score formulas.** Five pure functions turn raw measurements into sub-scores. These cover healthcare rank, beds and doctors; climate sunshine, temperature and rain; food organic farms, tradition and safety; cost of living monthly cost, purchasing power and housing ratio; and beach distance, quality and facilities. Each formula sums three components and rounds the sum to one decimal.
- **Factor schema, location record and analyzer.** There are seven categories of three factors each, and the flattened list of all 21 factors. A location holds a sparse, validated map from factor to score, plus notes. It computes category averages and an overall average. The analyzer keeps locations by name in insertion order and builds comparison tables.

The model is functional. Records are immutable datatypes, and updates return new records. An operation that can raise returns a `Result`: `Success(value)` or `Failure(error)`. Python's insertion-ordered `dict` is modelled by `OrderedDict.Dict`, an association list with distinct keys. Writing an existing key replaces it in place; writing a new key appends it.

Files and modules:

- `wrappers.dfy`: `Wrappers`, with `Option` and `Result`.
- `rounding.dfy`: `Rounding`, which rounds a real to one decimal.
- `scoring_metrics.dfy`: `ScoringMetrics`, the five formulas and their components.
- `ordered_dict.dfy`: `OrderedDict`, the insertion-ordered dictionary.
- `schema.dfy`: `Schema`, the category catalog and `AllFactors`.
- `averages.dfy`: `Averages`, with sum, positive count, mean, minimum and maximum.
- `wellness_errors.dfy`: `WellnessErrors`, the refusal cases.
- `locations.dfy`: `Locations`, the location record.
- `analyzer.dfy`: `Analyzer`, the analyzer and its comparison tables.

Modelling conventions:

- Numbers are Dafny `real`. A numeric input counts as "missing" exactly when it is `0.0`, which is how the formulas' truthiness tests treat numbers.
- Only organic farms and beach distance are compared with `None` in the source. Those two are `Option<real>`.
- A note, or a comparison selector, counts as given when it is `Some(s)` with `s != ""`.
- The program raises `ValueError` in every refusal case. The model names each case: `UnknownFactor`, `InvalidScore`, `UnknownCategory` and `AmbiguousSelector`.

Three behaviours of the code are worth stating outright:

- Only `None` gets the default beach-distance score. Every recorded distance is banded, so a negative distance scores 4: see `ScoringMetrics.DistanceComponent`.
- Each formula rounds only the sum of its three components, never a component on its own.
- A category average divides the sum of the looked-up values, with 0 for an unscored factor, by the count of positive ones. That divisor is 0 only on a record whose scores break the [1, 10] rule. The model keeps that case as the `DivisionByZero` error rather than a precondition, and `Locations.CategoryAverage` proves that no valid record reaches it.

## Model

| member | source | states |
|---|---|---|
| `Rounding.Round1` | scripts/scoring_metrics.py:22 | the result is a whole number of tenths, and the input lies in the result's half-open window [r-0.05, r+0.05), so halves round up |
| `Rounding.RoundCharacterised` | scripts/scoring_metrics.py:22 | for a tenth y, rounding gives y exactly when the input lies in [y-0.05, y+0.05) |
| `Rounding.RoundFixesTenths` | scripts/scoring_metrics.py:22 | a value already in tenths is unchanged by rounding |
| `Rounding.RoundMonotone` | scripts/scoring_metrics.py:22 | rounding preserves order |
| `Rounding.RoundKeepsTenthsBounds` | scripts/scoring_metrics.py:22 | a lower or upper bound that is a whole number of tenths still holds after rounding |
| `ScoringMetrics.RankComponent` | scripts/scoring_metrics.py:13 | the rank component is at least 0, and at most 5 for a nonnegative rank; rank 0 gives the default 2.5; otherwise it is 0 exactly when the rank is at least 200 |
| `ScoringMetrics.RankComponentNonIncreasing` | scripts/scoring_metrics.py:13 | for positive ranks, a worse rank never scores more |
| `ScoringMetrics.BedsComponent` | scripts/scoring_metrics.py:16 | the beds component is at most 3; 0 beds gives 1.5; positive beds score above 0; it saturates at 3 exactly from 4.5 beds |
| `ScoringMetrics.DoctorsComponent` | scripts/scoring_metrics.py:19 | the doctors component is at most 2; 0 doctors gives 1; it saturates at 2 exactly from 2 doctors |
| `ScoringMetrics.HealthcareScore` | scripts/scoring_metrics.py:3-22 | the result is in tenths; it is at most 10 for a nonnegative rank; it is at least 0 for nonnegative beds and doctors; all-zero inputs give 5 |
| `ScoringMetrics.HealthcareCanFallBelowOne` | scripts/scoring_metrics.py:22 | the formula does not clamp into [1, 10]: rank 200 with 0.1 beds and 0.1 doctors scores below 1 |
| `ScoringMetrics.HealthcareExample` | scripts/scoring_metrics.py:3-22 | rank 12, 3 beds and 2 doctors score 8.7 |
| `ScoringMetrics.SunnyComponent` | scripts/scoring_metrics.py:34 | the sunny component is at most 4; 0 days gives 2; it saturates at 4 exactly from 365 days |
| `ScoringMetrics.TemperatureBand` | scripts/scoring_metrics.py:38-45 | every temperature falls in one band, valued between 1 and 4 |
| `ScoringMetrics.TemperatureBandByComfortGap` | scripts/scoring_metrics.py:38-45 | the band is max(1, 4 - ceil(gap/5)), where gap is the distance outside [20, 25]; this gives 4 on [20,25], 3 on [15,20) and (25,30], 2 on [10,15) and (30,35], and 1 elsewhere |
| `ScoringMetrics.ComfortGap` | scripts/scoring_metrics.py:38 | the gap is at least 0, and it is 0 exactly on [20, 25] |
| `ScoringMetrics.TemperatureBandUnimodal` | scripts/scoring_metrics.py:38-45 | the band never falls as temperature rises up to 25, and never rises as it increases from 20 |
| `ScoringMetrics.TemperatureComponent` | scripts/scoring_metrics.py:37-47 | the temperature component lies in [1, 4], and equals the band for every nonzero temperature |
| `ScoringMetrics.ZeroDegreesScoresAsMissing` | scripts/scoring_metrics.py:37-47 | 0 degrees counts as missing and scores 2, while every other temperature strictly between -10 and 10 scores 1 |
| `ScoringMetrics.RainfallBand` | scripts/scoring_metrics.py:51-56 | the rainfall band lies in [1, 2] |
| `ScoringMetrics.RainfallBandUnimodal` | scripts/scoring_metrics.py:51-56 | the band never falls as rain rises up to 1200 mm, and never rises as it increases from 500 mm |
| `ScoringMetrics.RainfallComponent` | scripts/scoring_metrics.py:50-58 | 0 mm of rain gives the default 1 |
| `ScoringMetrics.RainfallDefaultIsBand` | scripts/scoring_metrics.py:50-58 | the missing-value default equals the band everywhere, including at 0 |
| `ScoringMetrics.ClimateScore` | scripts/scoring_metrics.py:24-60 | the result is in tenths and at most 10 for any inputs; it is at least 2 for nonnegative sunny days; all-zero inputs give 5 |
| `ScoringMetrics.ClimateExample` | scripts/scoring_metrics.py:24-60 | 180 sunny days, 22 degrees and 800 mm score 8.0 |
| `ScoringMetrics.OrganicComponent` | scripts/scoring_metrics.py:72 | the organic component is at most 3; only `None` gets the default 1.5; a recorded 0 scores 0 |
| `ScoringMetrics.TraditionComponent` | scripts/scoring_metrics.py:75 | the tradition component is at most 4; 0 gives 2; it saturates exactly from a rating of 10 |
| `ScoringMetrics.SafetyComponent` | scripts/scoring_metrics.py:78 | the safety component is at most 3; 0 gives 1.5; it saturates exactly from a rating of 10 |
| `ScoringMetrics.FoodQualityScore` | scripts/scoring_metrics.py:62-80 | the result is in tenths and at most 10 for any inputs; it is at least 0 for nonnegative inputs; `None`, 0, 0 give 5; `Some(0)`, 0, 0 give 3.5 |
| `ScoringMetrics.MonthlyCostBand` | scripts/scoring_metrics.py:93-100 | the monthly-cost band lies in [1, 4] |
| `ScoringMetrics.MonthlyCostBandNonIncreasing` | scripts/scoring_metrics.py:93-100 | a higher monthly cost never scores more |
| `ScoringMetrics.MonthlyCostComponent` | scripts/scoring_metrics.py:92-102 | the cost component lies in [1, 4]; 0 gives 2; it equals the band for every nonzero cost |
| `ScoringMetrics.PurchasingPowerComponent` | scripts/scoring_metrics.py:105 | the purchasing-power component is at most 3; 0 gives 1.5; it saturates exactly from 99.99 |
| `ScoringMetrics.HousingBand` | scripts/scoring_metrics.py:109-116 | the housing band lies in [0.5, 3] |
| `ScoringMetrics.HousingBandNonIncreasing` | scripts/scoring_metrics.py:109-116 | a higher price-to-income ratio never scores more |
| `ScoringMetrics.HousingComponent` | scripts/scoring_metrics.py:108-118 | the housing component lies in [0.5, 3]; 0 gives 1.5; it equals the band for every nonzero ratio |
| `ScoringMetrics.CostOfLivingScore` | scripts/scoring_metrics.py:82-120 | the result is in tenths and at most 10 for any inputs; it is at least 1.5 for nonnegative purchasing power; all-zero inputs give 5 |
| `ScoringMetrics.DistanceBand` | scripts/scoring_metrics.py:133-142 | the distance band lies in [0, 4], and any distance of at most 1 km scores 4 |
| `ScoringMetrics.DistanceBandNonIncreasing` | scripts/scoring_metrics.py:133-142 | a farther beach never scores more |
| `ScoringMetrics.DistanceComponent` | scripts/scoring_metrics.py:132-144 | only `None` gets the default 2; every recorded distance is banded, so any negative distance scores 4 |
| `ScoringMetrics.BeachQualityComponent` | scripts/scoring_metrics.py:147 | the beach-quality component is at most 4; 0 gives 2; it saturates exactly from a rating of 10 |
| `ScoringMetrics.FacilitiesComponent` | scripts/scoring_metrics.py:150 | the facilities component is at most 2; 0 gives 1; it saturates exactly from a rating of 10 |
| `ScoringMetrics.BeachAccessScore` | scripts/scoring_metrics.py:122-152 | the result is in tenths and at most 10 for any inputs; it is at least 0 for nonnegative ratings; `None`, 0, 0 give 5 |
| `ScoringMetrics.NegativeDistanceScoresAsAdjacent` | scripts/scoring_metrics.py:132-144 | a distance of -1 scores the same as a beach 0.5 km away |
| `ScoringMetrics.BeachAccessExample` | scripts/scoring_metrics.py:122-152 | 0.5 km, quality 8 and facilities 5 score 8.2 |
| `OrderedDict.Get` | scripts/location_analyzer.py:131 | a lookup finds a value exactly when the key is present, and the value found is stored under that key |
| `OrderedDict.Put` | scripts/location_analyzer.py:127 | after `d[k] = v`, k finds v and every other key finds what it found before; an existing key keeps its position and a new key is appended; keys stay distinct |
| `OrderedDict.PutIdempotent` | scripts/location_analyzer.py:84 | writing the same key and value twice is the same as writing them once |
| `Schema.FlattenMembership` | scripts/location_analyzer.py:46-48 | a name is in the flattened list exactly when some category lists it |
| `Schema.AllFactorsInOrder` | scripts/location_analyzer.py:7-48 | the flattened list is exactly the 21 factor names written out in category order, then in order within each category |
| `Schema.AllFactorsDistinct` | scripts/location_analyzer.py:7-48 | `AllFactors` has 21 pairwise-distinct names |
| `Schema.FlattenDistinctDisjoint` | scripts/location_analyzer.py:46-48 | when the flattened list has no repeats, no name is listed under two categories |
| `Schema.FactorHasOneCategory` | scripts/location_analyzer.py:7-48 | every factor belongs to exactly one category |
| `Schema.CategoryNamesDistinct` | scripts/location_analyzer.py:7-43 | the seven category names are distinct |
| `Schema.FactorsOf` | scripts/location_analyzer.py:94-97 | a category's factor list exists exactly for known categories, and holds only known factors |
| `Schema.ShortNamesAreNotFactors` | scripts/location_analyzer.py:78 | a name shorter than 14 characters is not a factor |
| `Locations.NewLocation` | scripts/location_analyzer.py:54-67 | a new location keeps its identity, satisfies the record invariant, and has no scores |
| `Locations.AddScore` | scripts/location_analyzer.py:69-86 | an unknown factor is refused first, then a score outside [1, 10]; otherwise the call succeeds; the factor gets the score; the note is written only when truthy, so a falsy note keeps the old one; identity and all other scores are unchanged; the record invariant is preserved |
| `Locations.AddScoreIdempotent` | scripts/location_analyzer.py:84-86 | repeating an identical successful call changes nothing |
| `Locations.AddScoreBoundaries` | scripts/location_analyzer.py:78-82 | scores 1 and 10 are accepted; 0.5 and 10.1 are refused as out of range; "Weather" is refused as an unknown factor |
| `Locations.AddScoreExample` | scripts/location_analyzer.py:69-86 | scoring a new location stores exactly that one score and its note |
| `Locations.GetScore` | scripts/location_analyzer.py:88-90 | the lookup finds a score exactly when the factor is scored, and on a valid record the score lies in [1, 10] |
| `Locations.Recorded` | scripts/location_analyzer.py:98 | it holds no more scores than there are factors, and when every stored score lies in [1, 10] so does every score it holds |
| `Locations.LookupsAgreeWithRecorded` | scripts/location_analyzer.py:98-103 | when every stored score lies in [1, 10], the looked-up list has the same sum as the recorded scores; its positive count is their number; it is all zero exactly when none is recorded |
| `Locations.AverageOfValidLookups` | scripts/location_analyzer.py:98-103 | on a valid record the average of a factor list is 0 when none is scored and otherwise the mean of the recorded scores, in [1, 10]; the division by zero never happens |
| `Locations.AverageOfLookups` | scripts/location_analyzer.py:100-103 | an all-zero list averages to 0, and the division fails exactly when some value is nonzero but none is positive |
| `Locations.CategoryAverage` | scripts/location_analyzer.py:92-103 | an unknown category is refused; on a valid record a known category gives 0 when no factor of it is scored, and otherwise the mean of the recorded scores, which lies in [1, 10] |
| `Locations.CategoryAverageExample` | scripts/location_analyzer.py:92-103 | a single score of 6 among three factors averages 6, not 2 |
| `Locations.OverallScore` | scripts/location_analyzer.py:105-110 | no scores give 0; otherwise the result lies between the smallest and the largest stored score, so in [1, 10] on a valid record |
| `Locations.OverallScoreExample` | scripts/location_analyzer.py:105-110 | no scores give 0; one score of 7 gives 7; scores 7 and 3 give 5 |
| `Averages.MeanBetweenExtremes` | scripts/location_analyzer.py:110 | a mean lies between the smallest and the largest entry |
| `Analyzer.NewAnalyzer` | scripts/location_analyzer.py:121-123 | a new analyzer holds no locations |
| `Analyzer.GetLocation` | scripts/location_analyzer.py:129-131 | a lookup finds a location exactly when the name is present, and on a well-keyed analyzer the location found carries that name |
| `Analyzer.AddLocation` | scripts/location_analyzer.py:125-127 | afterwards the name finds the location; an earlier entry with that name is replaced at its original position; a new name goes last; other names are unaffected; keying and validity are preserved |
| `Analyzer.RowValue` | scripts/location_analyzer.py:160-200 | a row's value is the factor score or 0, the category average, or the overall score; on a valid record it is 0 or lies in [1, 10] |
| `Analyzer.Tabulate` | scripts/location_analyzer.py:160-166 | a table builds exactly when every value succeeds, and then holds one row per entry, in order, with that entry's name, country, type and value |
| `Analyzer.BuildRows` | scripts/location_analyzer.py:160-202 | the table builds exactly when every location's value can be computed, and then has one row per entry, in order, with that entry's name, country, type and value |
| `Analyzer.BuildRowsAppend` | scripts/location_analyzer.py:196-200 | the overall table of a list with one more entry is the old table with that entry's row appended |
| `Analyzer.CompareLocations` | scripts/location_analyzer.py:133-202 | an empty analyzer gives an empty table before any selector check; then both selectors together are refused; then an unknown factor or category is refused; otherwise there is one row per location in insertion order, with the factor score or 0, the category average, or the overall score; valid inputs always succeed, with values 0 or in [1, 10] |
| `Analyzer.CompareAfterAddingNewName` | scripts/location_analyzer.py:125-202 | adding a location under a new name appends its row to the overall comparison and leaves the earlier rows unchanged |
| `Analyzer.CompareByFactorExample` | scripts/location_analyzer.py:146-166 | rows follow insertion order; a location without the factor reports 0; giving both a factor and a category is refused |

## Left out

- Plotting: `visualize_comparison` and `create_radar_chart` (scripts/location_analyzer.py:204-341) only draw charts. The pandas DataFrame returned by `compare_locations` is modelled as a sequence of `Row(location, country, type, value)`.
- `Location.__str__` (scripts/location_analyzer.py:112-114) only formats text.
- The demo data and the `__main__` block (scripts/location_analyzer.py:345-436) are sample data, with no logic of their own.
- scripts/add_location.py is terminal prompts, clearing the screen, JSON load and save, and menu dispatch by index, so it is not part of this model. Two of its habits show up in the model: it stores an empty beach distance as -1, which `ScoringMetrics.NegativeDistanceScoresAsAdjacent` shows scores 4; and it silently drops formula results that `add_score` refuses, such as the sub-1 score of `ScoringMetrics.HealthcareCanFallBelowOne`.
- scripts/hello_project.py is an environment check, with no logic.
- Floating point is not modelled. Inputs are exact reals, so 33.33 and 91.25 are exact decimals. Python's `round(x, 1)` breaks exact ties to even on binary floats; `Rounding.Round1` rounds exact real halves up. No contract of the five formulas depends on how a tie is broken.
- Rounding.Round1: its half-open window [r-0.05, r+0.05), and `Rounding.RoundCharacterised` with it, hold only for rounding halves up. Python's `round(0.25, 1)` gives 0.2 where `Round1(0.25)` gives 0.3, because 0.25 is an exact tie in binary and Python breaks ties to even.
- Python truthiness beyond zero is not modelled. NaN and non-numeric arguments are not inputs here.
- Object identity is not modelled. In Python, an analyzer entry is the caller's `Location` object, so later `add_score` calls on that object show through the analyzer. Renaming `location.name` after adding it would also leave a stale key. Records here are values: an updated location is added again to replace the old entry.
- Error messages are not modelled. All refusals are a single `ValueError` in the source; the model keeps only which case occurred.
