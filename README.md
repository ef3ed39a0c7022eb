# Aadhaar Pulse AI+ fraud engine, modelled in Dafny

This project models the scoring-and-classification engine of the Aadhaar Pulse AI+
dashboard (`dashboard.py`) and its region-name table (`state_mapper.py`). The engine
works on one frame of district rows and runs as a fixed sequence of steps:

1. It coerces the three indicator columns `rush_index`, `digital_literacy_score` and
   `migration_score` to numbers. Text that does not parse becomes NaN.
2. It maps `state` through `state_map`. States that are not keys become NaN, and
   `dropna(subset=["state"])` then removes those rows.
3. It adds `fraud_risk_score = 0.4·rush + 0.4·migration + 0.2·(1 − literacy)`.
4. It adds `fraud_category` with `classify_fraud`. This is a chain of four rules where
   the first match wins. The rules compare a row against thresholds taken over the whole
   frame: Q90 of the score, Q90 of migration and Q25 of literacy.
5. It adds `recommended_action` through the four-entry `action_map`.
6. It aggregates the indicators per state with `groupby("state").mean()`.

Modules, one per part of the program:

- `Wrappers` (`wrappers.dfy`): `Option`. `None` stands for a NaN cell.
- `StateMapper` (`state_mapper.dfy`): the `state_map` literal, its lookup, and entry-level
  lemmas covering merges, renames, idempotence and case sensitivity.
- `NumericCoercion` (`numeric_coercion.dfy`): a loaded cell (`Num`, `Empty` = NaN, or
  `Text`) and `pd.to_numeric(..., errors="coerce")` on it, through a decimal parser.
- `Stats` (`stats.dfy`): what the engine needs from pandas, defined from scratch:
  - skipping NaN;
  - an insertion sort;
  - the linear-interpolation quantile at position p·(n−1);
  - the arithmetic mean.
- `FraudEngine` (`fraud_engine.dfy`): the row record and each pipeline step as a pure
  function on a sequence of rows, with the lemmas about them.
- `Aggregation` (`aggregation.dfy`): the per-state mean.
- `Dashboard` (`dashboard.dfy`): the script as it runs. A `Frame` class holds the frame
  as a `seq<Row>`. Its methods update it in place, one script statement each, and each
  method is proved equal to the matching `FraudEngine` function. `RunPipeline` runs all
  the steps.

Behaviour of the code worth noting:

- Rows with missing indicators are not dropped. Only `dropna(subset=["state"])` removes
  rows. A NaN indicator makes the score NaN and makes every comparison that uses it false.
- A column with no value is not a fatal error. Its quantile is NaN, so every comparison
  against that threshold is false and the rule that uses it never fires
  (`MissingInputsFailTheirRules`).
- There is no second, region-level classification. The per-state aggregate holds only
  the means of the three indicators.
- `state_map` is not idempotent. `"Andaman and Nicobar Islands"` and
  `"Dadra and Nagar Haveli and Daman and Diu"` are outputs of the table but not keys of it
  (`NotIdempotentForMergedTerritories`).

## Model

| member | source | states |
|---|---|---|
| `StateMapper.Canon` | state_mapper.py:1-46 | a name gets a canonical value exactly when it is a key of `state_map`, and that value is one of the table's values; any other name gives NaN instead of an error |
| `StateMapper.StateMapRenamesExactly` | state_mapper.py:1-46 | the `state_map` table (the constant `StateMap`, its 39 entries in source order) renames exactly the five keys "Orissa", "Uttaranchal", "Andaman and Nicobar", "Dadra and Nagar Haveli" and "Daman and Diu", all of which are keys; every other entry maps a name to itself |
| `StateMapper.OrissaAndOdishaMerge` | state_mapper.py:21-22 | "Orissa" and "Odisha" both normalise to "Odisha" |
| `StateMapper.UttaranchalAndUttarakhandMerge` | state_mapper.py:32-33 | "Uttaranchal" and "Uttarakhand" both normalise to "Uttarakhand" |
| `StateMapper.DadraAndDamanMerge` | state_mapper.py:40-41 | "Dadra and Nagar Haveli" and "Daman and Diu" both normalise to "Dadra and Nagar Haveli and Daman and Diu" |
| `StateMapper.AndamanRenamedOutsideKeys` | state_mapper.py:38 | "Andaman and Nicobar" maps to "Andaman and Nicobar Islands", which is not itself a key |
| `StateMapper.IdentityOutsideRenamed` | state_mapper.py:2-45 | every key other than the five renamed ones maps to itself |
| `StateMapper.IdempotentExceptMergedTerritories` | state_mapper.py:1-46 | for every key whose value is a key, normalising twice equals normalising once; a value fails to be a key exactly when it is one of the two merged or renamed territory names |
| `StateMapper.NotIdempotentForMergedTerritories` | state_mapper.py:38-41 | normalising the outputs for Andaman and Nicobar, Dadra and Nagar Haveli, and Daman and Diu a second time gives NaN |
| `StateMapper.LookupIsCaseSensitive` | state_mapper.py:21 | lookup is case-sensitive: "Odisha" is a key, "odisha" and "ODISHA" are not |
| `StateMapper.LookupDoesNotTrim` | state_mapper.py:21 | lookup does not trim: " Odisha" and "Odisha " are not keys |
| `NumericCoercion.Coerce` | dashboard.py:22-24 | a coerced cell is never text; numbers are kept; the result is NaN exactly when the cell was NaN or its text does not parse, so NaN is never replaced by a number; text that parses becomes the parsed value |
| `NumericCoercion.ParseNumber` | dashboard.py:24 | the text parser behind `errors="coerce"`: an optional sign, digits and an optional decimal point; no ensures of its own — `ParseShowNat` proves it reads back every printed natural and its negation, `UnparseableBecomesMissing`, `ParseableBecomesNumber` and `NegativeBecomesNumber` pin its behaviour on concrete strings |
| `NumericCoercion.ParseShowNat` | dashboard.py:24 | parsing the decimal rendering of any natural number, with or without a minus sign, gives that number back |
| `NumericCoercion.UnparseableBecomesMissing` | dashboard.py:24 | "abc", "", "-", "." and "1.2.3" coerce to NaN rather than raising |
| `NumericCoercion.ParseableBecomesNumber` | dashboard.py:24 | "2.5" coerces to 2.5 |
| `NumericCoercion.NegativeBecomesNumber` | dashboard.py:24 | "-0.75" coerces to -0.75: a leading minus negates |
| `Stats.SortAscending` | dashboard.py:43 | the sort behind the quantile returns an ascending permutation of its input |
| `Stats.SortedUnique` | dashboard.py:43 | two ascending arrangements of the same multiset are equal, so the order statistics are well defined |
| `Stats.QuantileWithinRange` | dashboard.py:43-47 | a quantile is NaN exactly when the column has no value; otherwise it lies between some present value below it and some present value above it |
| `Stats.QuantileOfConstant` | dashboard.py:43 | a column whose present values all equal c has every quantile equal to c |
| `Stats.QuantileOfSingleton` | dashboard.py:43 | a single value, or a single NaN, is its own quantile |
| `Stats.QuantileOfPair` | dashboard.py:43 | for two values x ≤ y the quantile at any p in [0, 1] is x + (y − x)·p, which is linear interpolation at position p·(n−1) |
| `Stats.QuantileOfPermutation` | dashboard.py:43-47 | a quantile depends on the column's multiset of values and not on row order |
| `Stats.Interpolate` | dashboard.py:43-47 | linear interpolation between the order statistics at position p·(n−1); no ensures of its own — `InterpolateBounds` keeps it between the smallest and largest value, `InterpolateConstant` and `InterpolatePair` fix its value |
| `Stats.Quantile` | dashboard.py:43-47 | `Series.quantile(p)`: NaN cells skipped, the rest sorted and interpolated; no ensures of its own — `QuantileWithinRange`, `QuantileOfConstant`, `QuantileOfSingleton`, `QuantileOfPair` and `QuantileOfPermutation` state its properties |
| `Stats.Mean` | dashboard.py:76 | the mean of the present values is defined exactly when there is at least one; `MeanBetween` and `MeanOfTwo` fix its value |
| `Stats.MeanBetween` | dashboard.py:76 | the mean of values in [lo, hi] lies in [lo, hi] |
| `Stats.MeanOfTwo` | dashboard.py:76 | the mean of a and b is (a + b)/2; 2.0 and 4.0 give 3.0 |
| `Stats.MapSeqOfPermutation` | dashboard.py:43-47 | extracting a column from a reordered frame gives a reordering of the column |
| `FraudEngine.CoerceNumericEffect` | dashboard.py:22-24 | the loop over `num_cols` keeps every row and coerces exactly its three indicator cells, leaving no text |
| `FraudEngine.NormaliseIsKeepMappable` | dashboard.py:27-28 | mapping the state and then dropping NaN states equals keeping exactly the rows whose state is a key, renamed, in order |
| `FraudEngine.Normalise` | dashboard.py:27-28 | map the state through `state_map`, then drop the rows whose state is NaN; no ensures of its own — `NormaliseIsKeepMappable` proves it equal to `KeepMappable` |
| `FraudEngine.KeepMappable` | dashboard.py:27-28 | the reference filter: the rows whose state is a key, renamed, in order; no ensures of its own — `KeepMappableExactly` and `KeepMappableKeepsNumbers` state what survives |
| `FraudEngine.KeepMappableExactly` | dashboard.py:27-28 | every surviving state is a value of `state_map`; every row whose state is a key survives, renamed; no other row survives; the count is the number of mappable rows |
| `FraudEngine.RiskScore` | dashboard.py:35-39 | the score is NaN exactly when one of the three inputs is NaN |
| `FraudEngine.RiskScoreExample` | dashboard.py:35-39 | rush 10, migration 1, literacy 0.9 scores 4.42; rush 1, migration 1, literacy 0.1 scores 0.98 |
| `FraudEngine.RiskScoreWeights` | dashboard.py:35-39 | the score is affine with weights +0.4 on rush, +0.4 on migration and −0.2 on literacy; with the example this fixes the formula |
| `FraudEngine.RiskScoreUnitRange` | dashboard.py:35-39 | with all inputs in [0, 1] the score lies in [0, 1] |
| `FraudEngine.RiskScoreUnclamped` | dashboard.py:35-39 | there is no clamping: the score exceeds any bound for a large rush and is −1.0 for literacy 6 |
| `FraudEngine.ClassifyIsFirstMatch` | dashboard.py:42-50 | a row's category is the category of the first rule in the four-rule table whose condition holds, and every earlier rule fails; "Normal" is the fallback |
| `FraudEngine.LabelsDistinct` | dashboard.py:44-50 | the four category strings are pairwise distinct |
| `FraudEngine.HighRiskTakesPriority` | dashboard.py:43-46 | a score above Q90 is high-risk whatever the migration; migration fraud holds exactly when rule 1 fails and migration is above its Q90 |
| `FraudEngine.PopulationThresholds` | dashboard.py:43-47 | Q90 of the score, Q90 of migration and Q25 of literacy over the whole frame; no ensures of its own — `CategoryDependsOnRowAndPopulation` shows they depend only on the multiset of rows, `ScoreBelowThreshold` that some scored row is at or below the score cut |
| `FraudEngine.Classify` | dashboard.py:42-50 | `classify_fraud`: four rules, first match wins; no ensures of its own — `ClassifyIsFirstMatch` proves it equal to first-match over the rule table, `HighRiskTakesPriority`, `MissingInputsFailTheirRules` and `NoHighRiskWhenScoresEqual` state the rules |
| `FraudEngine.MissingInputsFailTheirRules` | dashboard.py:43-47 | a NaN value or a NaN threshold makes its own rule fail; a row with all inputs NaN is "Normal" |
| `FraudEngine.CategoryDependsOnRowAndPopulation` | dashboard.py:43-47 | the thresholds, and so a row's category, depend only on the row and the multiset of rows in the frame |
| `FraudEngine.NoHighRiskWhenScoresEqual` | dashboard.py:43-44 | when all present scores are equal (rows with a NaN score allowed), no row is "High-Risk Aadhaar Fraud" (strict comparison) |
| `FraudEngine.NoRowAboveConstantQuantile` | dashboard.py:43-44 | against any thresholds whose risk cut is the Q90 of equal present scores, no row, scored or NaN, passes the high-risk rule |
| `FraudEngine.ScoreBelowThreshold` | dashboard.py:43-44 | against any thresholds whose risk cut is the Q90 of the frame's scores, some scored row escapes the high-risk rule |
| `FraudEngine.SomeScoredRowIsNotHighRisk` | dashboard.py:43-44 | when some row has a score, some scored row is not high-risk |
| `FraudEngine.SingleRowIsNormal` | dashboard.py:42-50 | a frame of one row classifies that row as "Normal" |
| `FraudEngine.PopulationChangesCategory` | dashboard.py:42-52 | the same row, scored 0.9 by its own indicators, is "Normal" alone and "High-Risk Aadhaar Fraud" once a row scored 0.5 joins the frame (Q90 becomes 0.86) |
| `FraudEngine.ActionMapIsOneToOne` | dashboard.py:55-60 | `action_map` has exactly the four category strings as keys, and distinct categories have distinct actions |
| `FraudEngine.LookupAction` | dashboard.py:55-61 | `Series.map(action_map)` on one cell, NaN for NaN or an unknown label; no ensures of its own — `ActionMapIsOneToOne` states the table (the constant `ActionMap`), `ActionNeverMissing` that every classified row gets an action |
| `FraudEngine.ActionNeverMissing` | dashboard.py:52-61 | after the category and action columns are added, every row has its category's string and that category's action, never NaN |
| `FraudEngine.KeepMappableKeepsNumbers` | dashboard.py:27-28 | renaming and dropping rows never turns a numeric-or-NaN indicator cell into text |
| `FraudEngine.NormalisedRowsClean` | dashboard.py:22-28 | after coercion and normalisation, one row remains per mappable input row, with a canonical state and no text cells |
| `FraudEngine.PipelineOutput` | dashboard.py:22-61 | the output has one row per input row whose state is a key; each has a canonical state, numeric-or-NaN indicators, the score of its own indicators, and one of the four categories with its action |
| `FraudEngine.Pipeline` | dashboard.py:22-61 | the steps of lines 22-61 composed in script order; no ensures of its own — `PipelineOutput` states its output and `RunPipeline` is proved equal to it |
| `Aggregation.GroupColumnMembers` | dashboard.py:76 | a value in a state's group is exactly the indicator value of some row of that state |
| `Aggregation.AggregateKeys` | dashboard.py:76 | the aggregate has one entry per state in the frame |
| `Aggregation.GroupMeanWithinRowValues` | dashboard.py:76 | a state's mean of an indicator is defined when one of its rows has a value, and lies between the smallest and largest such value |
| `Aggregation.GroupMeanAllMissing` | dashboard.py:76 | a state with no value in a column has a NaN mean for that column |
| `Aggregation.GroupColumnMultiplicity` | dashboard.py:76 | each row counts once: a value occurs in a state's group exactly as many times as rows of that state carry it, so the mean is the unweighted mean over the state's rows |
| `Aggregation.GroupMean` | dashboard.py:76 | the skipna mean of one indicator over one state's rows; no ensures of its own — `GroupMeanWithinRowValues`, `GroupMeanAllMissing` and `GroupColumnMultiplicity` state it |
| `Aggregation.AggregateByState` | dashboard.py:76 | `groupby("state")[num_cols].mean()`: one entry per state, each the three group means; no ensures of its own — `AggregateKeys`, `AggregateExample` and `AggregatedStatesAreCanonical` state it |
| `Aggregation.AggregateExample` | dashboard.py:76 | two rows with rush 2.0 and 4.0 give mean rush 3.0, and a third row whose rush is NaN is skipped |
| `Aggregation.AggregatedStatesAreCanonical` | dashboard.py:27-28 | after the pipeline every aggregated state is a canonical name from `state_map` |
| `Dashboard.Frame.constructor` | dashboard.py:19 | the frame holds the loaded rows |
| `Dashboard.Frame.CoerceColumn` | dashboard.py:24 | in place, each row's cell in the given column is replaced by its coerced value and nothing else changes |
| `Dashboard.Frame.CoerceNumeric` | dashboard.py:22-24 | in place, the columns of `num_cols` are coerced one after another |
| `Dashboard.Frame.MapStates` | dashboard.py:27 | in place, each state becomes its lookup in `state_map` or NaN |
| `Dashboard.Frame.DropMissingStates` | dashboard.py:28 | in place, the rows with a NaN state are removed and the order is kept |
| `Dashboard.Frame.AddRiskScore` | dashboard.py:35-39 | in place, each row gets the score of its own indicators |
| `Dashboard.Frame.AddCategory` | dashboard.py:42-52 | in place, each row gets the category computed against thresholds of the frame before the column was added |
| `Dashboard.Frame.AddAction` | dashboard.py:55-61 | in place, each row gets the action of its category |
| `Dashboard.RunPipeline` | dashboard.py:19-76 | the in-place steps compute the pipeline. Every output row has a canonical state, a category and an action. The aggregate covers only canonical state names |

## Left out

- Streamlit page setup, the KPI metrics, the select boxes, the district drilldown table and
  the alert list (dashboard.py:13-14, 66-71, 104-129): these are user interface.
- Reading the CSV and GeoJSON files and drawing the choropleth (dashboard.py:19, 81-99):
  these are file I/O and rendering. The frame is a parameter of `RunPipeline`.
- The PDF report and its download button (dashboard.py:134-179): library calls, clock
  time and file I/O.
- The explanatory text block (dashboard.py:184-194).
- Floating point: indicators, weights and quantile levels are exact `real`s. 0.9, 0.4 and
  0.25 are taken as exact decimals, and IEEE-754 rounding is not modelled.
- NumericCoercion.Coerce: the parser accepts an optional sign, digits and an optional
  decimal point. It does not accept the surrounding whitespace, exponents or "inf"
  that `pd.to_numeric` also accepts.
- Aggregation.AggregateByState: the result is a map from state to means. The ordering of
  the result rows by state name that `groupby` produces is not modelled.
- Monotonicity of the classification when one row's score rises is not modelled. Raising a
  score also moves the population's Q90.
