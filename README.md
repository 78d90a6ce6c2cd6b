# Passing-decision evaluation engine, modelled in Dafny

This project models the engine that grades a football player's passing decisions. For every player
possession it compares the pass the player chose (the *targeted* option, with its expected threat
`xthreat` and its completion probability `xpass_completion`) with the other passing options available
at that moment. From that comparison it derives:

- per-event flags: safest pass, highest-threat pass, good opportunity, missed good opportunity;
- threat figures: threat available, threat missed, decision efficiency;
- per-player aggregates: rates, subset completion rates, sums, means, per-90 figures;
- a league summary;
- three filters: pitch third, page selections, minute bins.

It also models the small data-manager helpers that feed the engine:

- the `h:m:s` clock parser;
- the position-to-category table;
- the rule that attaches passing options to a possession;
- the played-player filter with its `total_time`.

Modules, one concern each:

| module | file | models |
|---|---|---|
| `Wrappers` | wrappers.dfy | `Option`, for every value the source leaves as None, NaN or an exception |
| `Seqs` | seqs.dfy | order-preserving filter, columns, sums, max, mean, percentages, and their lemmas |
| `Events` | events.dfy | possession events and passing options |
| `Comparator` | comparator.dfy | `process_passing_options`, `is_good_pass_opportunity` and `xthreat_available`, as the specification function `Evaluate` |
| `Evaluation` | passing_evaluation.dfy | the `PassingEvaluation` object: its threshold fields, the option loop and `compute_metrics` as methods proved equal to `Evaluate` and `EnrichAll` |
| `Players` | players.dfy | `group_by_players` |
| `League` | league.dfy | `get_metrics` |
| `Filters` | filters.dfy | `third_filter`, `page_filter` and `time_bins` |
| `DataManager` | datamanager.dfy | `time_to_seconds`, `add_position_category`, `add_pass_options` (the class `PossessionTable`), and the played-player filter of `load_player_data` |

Modelling conventions:

- Numbers are exact `real`s. Floating point, and `.round(3)`, are not modelled.
- Every division the source leaves unguarded yields `None` when its denominator is 0 (see "Left out").
- The good-threat threshold is an `Option<real>` field of the class. The upper quartile that
  `init_xthreat_threshold` would compute is passed in as a parameter.
- The minutes table is a map from player id to that player's minutes row.

## Model

| member | source | states |
|---|---|---|
| Evaluation.PassingEvaluation.constructor | src/data/passing_evaluation.py:128-131 | the completion threshold defaults to 0.8, the threat threshold is kept as given (possibly unset), and the realistic threshold is 0.4 |
| Evaluation.PassingEvaluation.InitXthreatThreshold | src/data/passing_evaluation.py:133-137 | the threshold is set to the upper quartile only when it was unset; a given or already computed threshold never changes |
| Evaluation.PassingEvaluation.ScanOptions | src/data/passing_evaluation.py:222-234 | the loop's three flags are exactly "some option completes more often", "some option threatens more" and "some option is a good opportunity" |
| Evaluation.PassingEvaluation.ProcessPassingOptions | src/data/passing_evaluation.py:210-269 | the method's result is the comparator's result: None for an empty option list, otherwise the full metrics record |
| Evaluation.PassingEvaluation.EnrichRows | src/data/passing_evaluation.py:151-186 | every row gets its metrics and decision efficiency in order, and the whole batch fails when a row has no options |
| Evaluation.PassingEvaluation.ComputeMetrics | src/data/passing_evaluation.py:139-188 | it keeps the eligible rows, fixes the threshold once and enriches every kept row; the result is `EnrichAll` over `EligibleRows` |
| Comparator.RealisticXthreats | src/data/passing_evaluation.py:203-207 | it holds exactly the threats of the options whose completion reaches the realistic threshold |
| Comparator.XthreatAvailable | src/data/passing_evaluation.py:194-208 | the result bounds every realistic option's threat and equals one of them; it is 0.0 when no option is realistic |
| Comparator.ExpectedThreats | src/data/passing_evaluation.py:243-244 | one product `xthreat * xpass_completion` per option, in order |
| Comparator.CountAbove | src/data/passing_evaluation.py:249-250 | the count is at most the length; it is 0 iff no product beats the bound, and the full length iff all do |
| Comparator.CountAboveExact | src/data/passing_evaluation.py:249-250 | the count is exactly the number of products strictly above the bound: the length of their order-preserving filter |
| Comparator.IsGoodPassOpportunity | src/data/passing_evaluation.py:190-192 | an option is good iff its completion reaches the completion threshold and its threat reaches the threat threshold (a predicate with no contract; `Comparator.GoodOpportunityFlags` states what the flags built from it mean) |
| Comparator.Assemble | src/data/passing_evaluation.py:252-269 | no contract of its own: it builds the result record from the loop's three flags; `SafestAndHighestFlags`, `GoodOpportunityFlags`, `AvailableAndMissedXthreat` and `ExpectedThreatBounds` state each field of the record it builds |
| Comparator.Evaluate | src/data/passing_evaluation.py:213-215 | a result exists exactly when there is at least one option |
| Comparator.SafestAndHighestFlags | src/data/passing_evaluation.py:226-231 | safest pass is 1 iff no option's completion is strictly above the target's (ties stay safest), 0 iff one is; the same holds for highest threat |
| Comparator.GoodOpportunityFlags | src/data/passing_evaluation.py:190-192 | good means completion ≥ threshold and threat ≥ threshold; has-good iff some option is good; missed-good iff has-good and the target is not good; good and missed-good are never both 1 |
| Comparator.AvailableAndMissedXthreat | src/data/passing_evaluation.py:260-261 | available threat = max(realistic maximum, targeted threat) ≥ targeted threat; missed threat ≥ 0; targeted + missed = available |
| Comparator.ExpectedThreatBounds | src/data/passing_evaluation.py:245-268 | the best product bounds every option's product and the mean; 0 ≤ better count ≤ option count = number of options; the better count is exactly the number of options whose product beats the target's, and it is 0 iff the best is not above the target's product |
| Comparator.SafestPassTie | src/data/passing_evaluation.py:227-228 | an option that only ties the target's completion keeps it safest, while a strictly better one removes that |
| Comparator.MissedXthreatExample | src/data/passing_evaluation.py:203-208 | an unrealistic option's threat does not count: options (0.5 at 0.9, 0.2 at 0.3) with target 0.2 give 0.5 available and 0.3 missed |
| Evaluation.EligibleRows | src/data/passing_evaluation.py:142-143 | every kept row has more than one option and a targeted threat |
| Evaluation.EligibleRowsExactly | src/data/passing_evaluation.py:141-143 | a row is kept iff it is in the input with `n_passing_options > 1` and a targeted threat, and the result is a sub-multiset of the input |
| Evaluation.EnrichAll | src/data/passing_evaluation.py:155-186 | it is defined iff every row has an option; then it has one enriched row per input row, in order |
| Evaluation.WithMetrics | src/data/passing_evaluation.py:151-186 | no contract of its own: the row written for one possession; `Evaluation.EnrichConsistent` states that it keeps the event and the targeted threat and that its metrics are consistent |
| Evaluation.Enrich | src/data/passing_evaluation.py:151-186 | no contract of its own: the comparator's result written onto the row; `Evaluation.EnrichConsistent` states what the row carries |
| Evaluation.EnrichConsistent | src/data/passing_evaluation.py:151-175 | an enriched row keeps its event and targeted threat and carries metrics consistent with them |
| Evaluation.EnrichAllConsistent | src/data/passing_evaluation.py:155-186 | every row of a successful batch is consistent |
| Evaluation.DecisionEfficiency | src/data/passing_evaluation.py:174-175 | no contract of its own: `T_t / available * 100`, None at zero available threat; `Evaluation.DecisionEfficiencyBounds` states when it is defined, its range and when it is 100 |
| Evaluation.DecisionEfficiencyBounds | src/data/passing_evaluation.py:174-175 | decision efficiency is undefined iff no threat was available; for a non-negative target it lies in [0, 100], and it is 100 iff nothing was missed |
| Evaluation.RatioBounds | src/data/passing_evaluation.py:174-175 | a part of a non-zero whole, as a percentage, lies in [0, 100] and is 100 iff the part is the whole |
| Players.Where | src/data/passing_evaluation.py:281-282 | the subset is empty iff no condition entry is 1, and each element comes from a row whose condition is 1 |
| Players.WhereMembers | src/data/passing_evaluation.py:281-282 | every row whose condition is 1 contributes its value to the subset |
| Players.WhereSum | src/data/passing_evaluation.py:281-283 | the subset's sum equals the sum of the column with the unselected rows set to 0 |
| Players.WhereSumBounds | src/data/passing_evaluation.py:286-291 | for 0/1 columns the subset's sum lies between 0 and the number of selected rows, which is at most the column's length |
| Players.Rate | src/data/passing_evaluation.py:294-299 | no contract of its own: `sum/len*100`; `Players.RateBounds` states its range |
| Players.SubsetRate | src/data/passing_evaluation.py:279-284 | no contract of its own; `Players.SubsetRateBounds` states its value on an empty subset, its formula otherwise, and its range |
| Players.RateBounds | src/data/passing_evaluation.py:294-299 | a `sum/len*100` rate of a 0/1 column lies in [0, 100] |
| Players.SubsetRateBounds | src/data/passing_evaluation.py:279-284 | a subset completion rate is 0 when the subset is empty, otherwise `sum/count*100` over the rows whose condition is 1; it always lies in [0, 100] |
| Players.WhereLength | src/data/passing_evaluation.py:281-283 | the subset's count equals the sum of the 0/1 condition column |
| Players.WhereComplement | src/data/passing_evaluation.py:297-298 | two columns that add up to 1 wherever the condition holds split the subset between them |
| Players.PercentAdd | src/data/passing_evaluation.py:297-298 | two parts of a positive whole, as percentages, add up to 100 |
| Players.Insert | src/data/passing_evaluation.py:293 | inserting a player id keeps the ids strictly ascending and adds exactly that id |
| Players.PlayerIds | src/data/passing_evaluation.py:293 | the group keys are strictly ascending and are exactly the player ids that occur in the rows |
| Players.PlayerRowOf | src/data/passing_evaluation.py:293-311 | a player's row carries that player's id and minutes, and counts the player's events, of which there is at least one |
| Players.JoinedIds | src/data/passing_evaluation.py:349-354 | a player is joined iff the player has events and a minutes entry |
| Players.AggregateRatesInRange | src/data/passing_evaluation.py:293-302 | over consistent rows, all nine rates of an aggregate lie in [0, 100], the event count is at least 1, and the safest and completed counts lie in [0, event count]; the other counts are bounded by `Players.AggregateCountsInRange` |
| Players.AggregateCountsInRange | src/data/passing_evaluation.py:293-302 | over consistent rows, all nine counts are bounded: the safest, highest-threat, has-good and completed counts lie in [0, event count]; good and missed-good lie in [0, has-good]; completed-safest lies in [0, safest]; completed-highest in [0, highest-threat]; completed-good in [0, event count] |
| Players.AggregateOpportunitySplit | src/data/passing_evaluation.py:297-298 | good + missed-good sums to has-good; their subset rates add up to 100, or are both 0 when no event had a good option |
| Players.AggregateThreatBalance | src/data/passing_evaluation.py:303-305 | available threat sum = created threat sum + missed threat sum, and the missed sum is ≥ 0 |
| Players.Aggregate | src/data/passing_evaluation.py:293-311 | no contract of its own: one player's aggregate row; `Players.AggregateWellFormed` and the four lemmas before it state its properties |
| Players.AggregateWellFormed | src/data/passing_evaluation.py:271-311 | over consistent rows the aggregate meets all four of the above: rates, counts, the opportunity split and the threat balance |
| Players.FilterIncreasing | src/data/passing_evaluation.py:349-354 | dropping ids keeps the ascending order |
| Players.GroupByPlayers | src/data/passing_evaluation.py:271-368 | no contract of its own; `Players.GroupByPlayersRows`, `GroupByPlayersKeys`, `GroupByPlayersSorted` and `GroupByPlayersWellFormed` state its rows, its keys, their order and their well-formedness |
| Players.GroupByPlayersRows | src/data/passing_evaluation.py:293-354 | each output row aggregates all and only one player's events (at least one), counts them, and carries that player's minutes entry |
| Players.GroupByPlayersKeys | src/data/passing_evaluation.py:349-354 | inner join: a player has a row iff the player has events and a minutes entry |
| Players.GroupByPlayersSorted | src/data/passing_evaluation.py:293 | the rows are in strictly ascending player id order, so no player appears twice |
| Players.GroupByPlayersWellFormed | src/data/passing_evaluation.py:271-368 | over consistent enriched rows every output row is well formed |
| Players.P90 | src/data/passing_evaluation.py:356-363 | no contract of its own: `sum * 90 / minutes`, None at zero minutes; `Players.P90Linear` states when it is defined and how it scales |
| Players.RatioP90 | src/data/passing_evaluation.py:365-366 | no contract of its own: created/available × 100 of two per-90 figures; `Players.DecisionEfficiencyP90` states it |
| Players.JoinRow | src/data/passing_evaluation.py:349-366 | no contract of its own: the joined row with its four per-90 columns; `Players.PlayerRowOf`, `P90Linear` and `DecisionEfficiencyP90` state its columns |
| Players.P90Linear | src/data/passing_evaluation.py:356-363 | a per-90 figure is undefined iff the minutes are 0; otherwise doubling the minutes halves it, and the figure times the minutes equals 90 times the sum |
| Players.DecisionEfficiencyP90 | src/data/passing_evaluation.py:365-366 | the minutes cancel: the per-90 efficiency is created/available × 100, defined iff the available sum is non-zero, and in [0, 100] for a well-formed row |
| League.PercColumn | src/data/passing_evaluation.py:379-390 | one value per player row, in order |
| League.PercMeanBounds | src/data/passing_evaluation.py:383-389 | the mean of a non-empty column of percentages is defined and lies in [0, 100] |
| League.GetMetrics | src/data/passing_evaluation.py:370-392 | no contract of its own; `League.GetMetricsBounds` and `League.GetMetricsUnweighted` state its means and sum |
| League.GetMetricsBounds | src/data/passing_evaluation.py:370-392 | over player rows whose rates are percentages and whose missed threat is ≥ 0 (as every well-formed row's are), the rate means are defined iff there are players and lie in [0, 100]; the league's missed threat sum is ≥ 0 |
| League.GetMetricsUnweighted | src/data/passing_evaluation.py:389 | each player counts once: when every player has the same completion rate, that rate is the league mean |
| Filters.Lower | src/data/passing_evaluation.py:415 | lower-casing keeps the length and lower-cases each letter |
| Filters.ThirdFilter | src/data/passing_evaluation.py:411-419 | "All" returns the rows unchanged; otherwise a row is kept iff its start or end third is `lower(third) + "_third"`; the result is a sub-multiset of the input |
| Filters.ThirdFilterKeepsMatches | src/data/passing_evaluation.py:416-417 | no matching row is dropped, and none is duplicated |
| Filters.ThirdAllRoundTrip | src/data/passing_evaluation.py:414 | grouping the "All" third's rows is grouping all rows |
| Filters.SelectStep | src/data/passing_evaluation.py:430-443 | no contract of its own: one selection step; `Filters.SelectStepIsFilter` states that it is a filter |
| Filters.SelectStepIsFilter | src/data/passing_evaluation.py:430-443 | each selection step filters by "the sentinel or empty selection, or the field is selected" |
| Filters.PageFilter | src/data/passing_evaluation.py:421-447 | no contract of its own; `Filters.PageFilterIsOneFilter`, `PageFilterKeeps` and `PageFilterSentinels` state which rows it keeps and in what order |
| Filters.PageFilterIsOneFilter | src/data/passing_evaluation.py:421-447 | the four steps are one order-preserving filter by the conjunction of team, category, position and the minimum passes |
| Filters.PageFilterKeeps | src/data/passing_evaluation.py:421-447 | the output is a sub-multiset of the input; every kept row has `event_id_count >= min_passes`; a row is kept iff it is in the input and meets every selection |
| Filters.PageFilterSentinels | src/data/passing_evaluation.py:430-443 | with sentinels or empty selections only the minimum-passes floor applies |
| Filters.BinFrom | src/data/passing_evaluation.py:402-407 | the bin found holds the minute, and none is found only when no later bin holds it |
| Filters.InBinUnique | src/data/passing_evaluation.py:396 | with increasing edges a value lies in at most one bin |
| Filters.BinIndexExactly | src/data/passing_evaluation.py:402-407 | the bin found is bin k iff the value lies in bin k; no bin is found iff the value is below the first edge or above the last |
| Filters.TimeBin | src/data/passing_evaluation.py:394-409 | no contract of its own: the `pd.cut` label of one minute; `Filters.TimeBinIntervals` states which minutes get which label |
| Filters.TimeBinIntervals | src/data/passing_evaluation.py:394-409 | "0-15" holds the minutes 0 to 15 inclusive; each later label holds (left edge, right edge]; "75-90+" holds (75, 120]; minutes below 0 or above 120 get no bin |
| Filters.TimeBins | src/data/passing_evaluation.py:401-409 | a copy of every row, in order, whose bin column is the label of that row's own minute |
| Filters.TimeBinsLabels | src/data/passing_evaluation.py:394-409 | row i is labelled "0-15" iff its minute is in [0, 15], each later label iff the minute is in (left edge, right edge], "75-90+" iff it is in (75, 120], and it has no label iff the minute is outside [0, 120] |
| Filters.TimeBinsDefined | src/data/passing_evaluation.py:401-409 | every row whose minute lies in [0, 120] gets one of the six labels |
| DataManager.Split | src/data/data_manager.py:23 | splitting gives at least one piece |
| DataManager.SplitPieces | src/data/data_manager.py:23 | no piece of a split contains the separator |
| DataManager.SplitFirst | src/data/data_manager.py:23 | a string splits at its first separator |
| DataManager.SplitClock | src/data/data_manager.py:23 | three colon-free pieces joined by colons split back into exactly those three pieces |
| DataManager.ParseInt | src/data/data_manager.py:23 | parsing succeeds iff the string is a non-empty run of ASCII digits or a sign followed by one; the value is the digits' decimal value, negated after `-` |
| DataManager.ParseDigits | src/data/data_manager.py:23 | a numeral parses to its decimal value |
| DataManager.NatToStringValue | src/data/data_manager.py:23 | reading back the decimal digits of n gives n |
| DataManager.TimeToSeconds | src/data/data_manager.py:20-24 | None is 5400 seconds, and a string without exactly three colon-separated parts fails |
| DataManager.TimeToSecondsOfParts | src/data/data_manager.py:20-24 | a string that splits into three parts parsing to h, m and s reads as h·3600 + m·60 + s |
| DataManager.ClockOfParts | src/data/data_manager.py:20-24 | any three colon-free parts that parse to h, m and s (signed ones included), joined by colons, read as h·3600 + m·60 + s |
| DataManager.TimeToSecondsDigits | src/data/data_manager.py:23-24 | any clock string of three ASCII numerals, with or without leading zeros, reads as h·3600 + m·60 + s of their values |
| DataManager.TimeToSecondsPadded | src/data/data_manager.py:23-24 | the zero-padded "00:45:00" reads as 2700 seconds |
| DataManager.TimeToSecondsFormat | src/data/data_manager.py:23-24 | the clock string `str(h):str(m):str(s)` of every time reads back as h·3600 + m·60 + s |
| DataManager.TimeToSecondsOfBadParts | src/data/data_manager.py:23 | a string that splits into three parts, one of which does not parse, fails |
| DataManager.TimeToSecondsBadPart | src/data/data_manager.py:23 | an hours, minutes or seconds part that is not an integer makes the parse fail |
| DataManager.PositionCategory | src/data/data_manager.py:250-260 | the category is Keeper, Defender, Midfielder, Attacker or Unknown |
| DataManager.PositionCategoryTable | src/data/data_manager.py:250-260 | each category is exactly its positions in the table (GK; LB/RB/LCB/RCB/CB/LWB/RWB; LM/RM/LDM/RDM/DM/AM; LW/RW/LF/RF/CF), and every other position is Unknown |
| DataManager.MatchingAppend | src/data/data_manager.py:238-239 | reading one more event adds it to a possession's matches iff it is a passing option of that match carrying that possession's event id |
| DataManager.OptionsFor | src/data/data_manager.py:238-245 | no contract of its own: the options copied out of one possession's matching events; `DataManager.OptionsForAppend` and `OptionsForMembers` state its order and contents |
| DataManager.OptionsForAppend | src/data/data_manager.py:238-245 | the options grow along the events table by exactly the matching events, in order |
| DataManager.OptionsForMembers | src/data/data_manager.py:238-245 | an option is attached iff some matching event carries it |
| DataManager.PossessionTable.AddPassOptions | src/data/data_manager.py:228-245 | each possession's `passing_options` becomes its matching options; no other field and no other row changes |
| DataManager.PossessionTable.AddPositionCategory | src/data/data_manager.py:247-260 | each row's `position_category` becomes the category of its position; nothing else changes |
| DataManager.TotalTime | src/data/data_manager.py:91-93 | `total_time` is defined iff both clock strings parse |
| DataManager.TotalTimes | src/data/data_manager.py:91-93 | the column is defined iff every row parses; then there is one row per player, in order, each with that player's end minus start |
| DataManager.PlayedPlayers | src/data/data_manager.py:88-93 | no contract of its own; `DataManager.PlayedPlayersExactly` states which players it keeps and their `total_time` |
| DataManager.PlayedPlayersExactly | src/data/data_manager.py:88-93 | a player is kept iff a clock string is present, and each kept player has its `total_time` |
| DataManager.TotalTimeToFinalWhistle | src/data/data_manager.py:21-24 | a player with no end time played until second 5400: `total_time` = 5400 − start |

## Left out

- Streamlit pages, charts, logging, and all network, JSON and parquet I/O are not part of this model: `load_tracking_data`, the download part of `load_player_data`, `load_match_events`, the caching of `load_enriched_tracking_data` and `get_data_with_passing_options`, and `src/data/data_loader.py`.
- Evaluation.PassingEvaluation.InitXthreatThreshold: the pandas `describe()['75%']` quantile is not computed; the upper quartile is a parameter. On an empty population pandas yields NaN rather than an error; the model takes whatever value is passed.
- `.round(3)` on the player aggregates, and floating-point rounding in general: all arithmetic is exact `real` arithmetic.
- Division by zero (NaN or infinity in the source) is `None` in the model. This covers `decision_efficiency` at zero available threat, the `_p90` columns at zero minutes, and their ratio. pandas' `mean` skips NaN; `League.ColumnMean` skips `None` the same way. It also skips infinities, which pandas would not.
- Evaluation.EnrichRows: a row with `n_passing_options > 1` but an empty option list makes `process_passing_options` return None, and `compute_metrics` then fails on it. The model fails the whole batch (`None`) instead of raising.
- DataManager.ParseInt: Python's `int` also accepts surrounding whitespace, `_` between digits and non-ASCII digits; the model accepts only an optional sign and ASCII digits.
- Filters.Lower: only ASCII letters are lower-cased; Unicode case mapping is not modelled.
- Players.Aggregate: the `completed*` columns `group_by_players` writes onto the caller's frame are not kept. pandas' `'first'` skips nulls, while the model takes the first row's value. The minutes table is a map, so a minutes table with two rows for one player, which pandas would join twice, is not modelled.
- Players.GroupByPlayers: it is modelled as a value (a sequence of rows), not as the in-place column writes on the pandas frame.
- DataManager.PlayedPlayers: only the played-player filter and `total_time` of `load_player_data` are modelled; the other derived columns (goalkeeper flag, match name, home/away, sides) are not.
- The `passing_options` column is first reset to None by `add_pass_options`; every row is then overwritten, so the model assigns the final lists directly.

Where the code and its description differ, the model follows the code:

- `time_bins` uses `pd.cut` with right-closed bins `[0,15], (15,30], …, (75,120]`, not `[0,15), [15,30), …`.
- `time_to_seconds(None)` returns `90 * 60 = 5400` seconds, although its comment says 7200.
- Zero denominators are not flagged by the source; they become `None` here.
