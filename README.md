# Football feature builder, corners betting rule and ratio columns

This project models the computational core of a football prediction pipeline.

- **Feature builder.** The model starts from a table of matches already left-joined with their statistics. From it the builder derives four things for each team:
  - its match history;
  - its latest matches by date;
  - role-selected averages of corners, shots, yellow cards and expected goals (xG), taking the `_home` column when the team played at home and the `_away` column otherwise;
  - a 3/1/0 points form over its latest five matches.

  These combine into a fixed-shape feature record for a fixture, with signed deltas between the two teams. Two drivers map the record over the training table and over a list of next-round fixtures.
- **Betting signal.** The corners rule compares a prediction's total corners with a market line widened by 1.0 on each side. The result is over, under or no suggestion.
- **Ratio columns.** Pass accuracy and shots-on-target ratio are added for each side of a statistics frame. Each is added only when both of its input columns exist, and a zero denominator is read as 1.

Modules:
- `Schemas` (`schemas.dfy`): the records. These are a joined match row, a fixture, the 19-field `MatchFeatures` record and the `MatchPrediction` record.
- `FeatureBuilding` (`feature_builder.dfy`):
  - The pure parts are functions over the row sequence: history, latest-n, averages, form and the feature record.
  - The `FeatureBuilder` class holds the joined table in a `const` field. The table is set once at construction and never reassigned.
  - The loops of the source are methods of that class: the averaging loop, the form loop and the drivers' loop. Each method is proved equal to the corresponding function. The two drivers run the same loop over different rows, so both call one method, `BuildForFixtures`, with the table's own fixtures or with the next-round fixtures.
- `FeatureProperties` (`feature_properties.dfy`): facts that relate several calls.
  - Role symmetry.
  - Fixture swap.
  - Cold start.
  - Which sides the averages read.
  - A training row's own match counts towards its own features.
- `BusinessRules` (`business_rules.dfy`): the corners signal.
- `Transforms` (`transforms.dfy`): the ratio columns. A frame is a row count plus a map from column name to a sequence of reals.
- `Join` (`join.dfy`): the column header of the constructor's merge of the matches file with the statistics file. See "## Findings".

Modelling choices:
- A date is an integer day number, so its order is the order of the ISO date strings.
- Statistics and averages are `real`.
- A score is `Option<int>`, because the matches table also lists fixtures that have not been played. In the source every score comparison with a missing score is false, so such a match is worth 0 points. The model does the same.
- The source sorts by date with an unstable sort. The model sorts by insertion, which keeps table order among rows with equal dates. The computed form, and the `==` contracts of the methods that reach it, therefore fix one order among ties. The source may pick another when a team's fifth and sixth latest matches share a date. When a team's matches all have different dates, any date-descending order gives the same latest-n rows (`LastNUnderAnySort`). The form also does not depend on the order inside the window (`FormIgnoresWindowOrder`).
- The role selection of src/features/feature_builder.py:44-48 is defined by the functions `RoleValue` (one match) and `RoleValues` (a history, in order), which carry no contract of their own. Their properties are stated by `AveragesReadOwnAndOpponentSides`, `RoleValueMirror`, `TeamAverageRerecorded` and the loop invariant of `FeatureBuilder.TeamAvg`.

## Model

| member | source | states |
|---|---|---|
| FeatureBuilding.History | src/features/feature_builder.py:30-32 | the history is no longer than the table |
| FeatureBuilding.HistoryMembers | src/features/feature_builder.py:30-32 | a row is in the team's history exactly when it is in the table and the team played home or away in it |
| FeatureBuilding.HistoryAppend | src/features/feature_builder.py:30-32 | the history of a concatenated table is the concatenation of the histories, so selection keeps table order and judges each row on its own |
| FeatureBuilding.HistoryOfOwnMatches | src/features/feature_builder.py:30-32 | a table whose every row involves the team is its own history, in the same order |
| FeatureBuilding.InsertByDate | src/features/feature_builder.py:37 | insertion adds exactly one row |
| FeatureBuilding.InsertByDateSorted | src/features/feature_builder.py:37 | insertion keeps a date-descending sequence date-descending and brings in no other row |
| FeatureBuilding.InsertByDatePermutes | src/features/feature_builder.py:37 | insertion adds the new row to the multiset and loses nothing |
| FeatureBuilding.SortByDateDesc | src/features/feature_builder.py:37 | sorting by date (latest first) keeps the length and yields a date-descending sequence |
| FeatureBuilding.SortByDateDescPermutes | src/features/feature_builder.py:37 | sorting is a permutation of its input |
| FeatureBuilding.LastN | src/features/feature_builder.py:34-37 | the latest-n rows number min(n, history length), are all drawn from the history and are date-descending |
| FeatureBuilding.SortedPrefixIsLatest | src/features/feature_builder.py:37 | cutting a date-descending permutation of the history keeps only history rows and omits nothing later than a kept row |
| FeatureBuilding.LastNIsLatest | src/features/feature_builder.py:34-37 | the latest-n rows are a sub-multiset of the history, and no history row left out is later than any row kept |
| FeatureBuilding.SortedPermutationUnique | src/features/feature_builder.py:37 | two date-descending orderings of the same rows with distinct dates are equal: with distinct dates the sort has one result |
| FeatureBuilding.LastNUnderAnySort | src/features/feature_builder.py:34-37 | when the history's dates are distinct, the latest-n rows are the first n of any date-descending permutation of the history, so the tie-breaking of the sort does not matter |
| FeatureBuilding.SumPermutation | src/features/feature_builder.py:50 | the sum of a series does not depend on the order of its values |
| FeatureBuilding.MeanPermutation | src/features/feature_builder.py:50 | the mean of a series does not depend on the order of its values |
| FeatureBuilding.SumWithin | src/features/feature_builder.py:50 | per-value bounds bound the sum by count times the bounds |
| FeatureBuilding.MeanWithin | src/features/feature_builder.py:50 | a mean lies between any bounds of its values |
| FeatureBuilding.TeamAverage | src/features/feature_builder.py:50 | the average is 0.0 when the team has no matches |
| FeatureBuilding.TeamAverageOverHistory | src/features/feature_builder.py:42-50 | with a non-empty history, the average is the sum of the role-selected values divided by the history length: one value per match |
| FeatureBuilding.TeamAverageWithin | src/features/feature_builder.py:42-50 | bounds on every role-selected value bound the average (for an empty history, whose average is 0.0, the bounds must admit 0.0) |
| FeatureBuilding.Points | src/features/feature_builder.py:57-71 | points are 0, 1 or 3; 3 exactly when the team's side scored more, 1 exactly when the scores are level (a missing score gives neither) |
| FeatureBuilding.PointsOf | src/features/feature_builder.py:55-71 | one points value per match, in order, each the match's points and so between 0 and 3 |
| FeatureBuilding.PointsTotalPermutation | src/features/feature_builder.py:55-71 | the total points of a set of matches does not depend on their order |
| FeatureBuilding.FormLast5 | src/features/feature_builder.py:52-73 | the form lies in [0, 3] and is 0.0 for an empty history |
| FeatureBuilding.FormLast5OverWindow | src/features/feature_builder.py:54-73 | with a non-empty history the form is taken over between one and five matches and is their total points divided by their number |
| FeatureBuilding.FormIgnoresWindowOrder | src/features/feature_builder.py:52-73 | averaging the points of any rearrangement of the latest five matches gives the form, so it depends on which matches are latest and not on their order |
| FeatureBuilding.FeaturesFor | src/features/feature_builder.py:79-130 | ids and team names are copied; every delta is home average minus away average; home_home_performance equals home_avg_shots; both forms lie in [0, 3] |
| FeatureBuilding.FeatureBuilder.constructor | src/features/feature_builder.py:14-24 | the builder holds exactly the joined rows it is given |
| FeatureBuilding.FeatureBuilder.TeamAvg | src/features/feature_builder.py:39-50 | the loop that collects role-selected values and averages them computes TeamAverage of the stored table |
| FeatureBuilding.FeatureBuilder.TeamFormLast5 | src/features/feature_builder.py:52-73 | the loop that scores the latest five matches with the if/elif/else ladder computes FormLast5 of the stored table |
| FeatureBuilding.FeatureBuilder.BuildFeaturesForMatch | src/features/feature_builder.py:79-130 | the twelve helper calls assemble exactly FeaturesFor of the stored table and the fixture |
| FeatureBuilding.FeatureBuilder.BuildForFixtures | src/features/feature_builder.py:139-141 | the drivers' loop yields one feature record per fixture, in the given order, each FeaturesFor of the stored table and that fixture |
| FeatureBuilding.FeatureBuilder.BuildAllFeatures | src/features/feature_builder.py:136-141 | one feature record per table row, in table order, each built from that row's own fixture |
| FeatureBuilding.FeatureBuilder.BuildNextRoundFeatures | src/features/feature_builder.py:151-156 | one feature record per upcoming fixture, in the given order, by the same builder |
| FeatureProperties.StatMirror | src/features/feature_builder.py:44-48 | reading a column of mirrored statistics reads the other side's column |
| FeatureProperties.HistoryMirror | src/features/feature_builder.py:30-32 | the history of the mirrored table is the mirrored history |
| FeatureProperties.RoleValueMirror | src/features/feature_builder.py:44-48 | a match gives a team the same role-selected value whichever way round it is recorded |
| FeatureProperties.TeamAverageMirror | src/features/feature_builder.py:39-50 | mirroring every match of a table without self-matches leaves a metric's average for a team unchanged |
| FeatureProperties.InsertByDateMirror | src/features/feature_builder.py:37 | inserting commutes with mirroring |
| FeatureProperties.SortByDateDescMirror | src/features/feature_builder.py:37 | sorting by date commutes with mirroring |
| FeatureProperties.LastNMirror | src/features/feature_builder.py:34-37 | the latest-n rows of the mirrored table are the mirrored latest-n rows |
| FeatureProperties.PointsMirror | src/features/feature_builder.py:57-71 | a match earns a team the same points whichever way round it is recorded |
| FeatureProperties.FormLast5Mirror | src/features/feature_builder.py:52-73 | mirroring every match of a table without self-matches leaves the form score unchanged |
| FeatureProperties.HistoryRerecorded | src/features/feature_builder.py:30-32 | re-recording any selection of matches the other way round re-records the history in place: same positions, same matches |
| FeatureProperties.InsertByDateRerecorded | src/features/feature_builder.py:37 | insertion by date treats a match and its other-way-round recording alike |
| FeatureProperties.SortByDateDescRerecorded | src/features/feature_builder.py:37 | the date sort of a re-recorded sequence puts the same matches in the same positions |
| FeatureProperties.LastNRerecorded | src/features/feature_builder.py:34-37 | the latest-n rows of a re-recorded table are the same matches, each re-recorded |
| FeatureProperties.TeamAverageRerecorded | src/features/feature_builder.py:39-50 | role symmetry of the average, match by match: on a table without self-matches, a metric's average for a team does not depend on which way round each of its matches is recorded |
| FeatureProperties.FormLast5Rerecorded | src/features/feature_builder.py:52-73 | role symmetry of the form, match by match: on a table without self-matches, the form does not depend on which way round each match is recorded |
| FeatureProperties.FeaturesRerecorded | src/features/feature_builder.py:79-130 | role symmetry of the whole record, match by match: on a table without self-matches, re-recording any selection of matches changes no feature of any fixture |
| FeatureProperties.FeaturesMirror | src/features/feature_builder.py:79-130 | role symmetry of the whole record: on a table without self-matches, mirroring every match of the table changes no feature of any fixture |
| FeatureProperties.FixtureSwap | src/features/feature_builder.py:84-108 | swapping a fixture's teams negates every delta and exchanges the paired averages and forms, while the new home performance is the old away team's shots average |
| FeatureProperties.FeaturesIgnoreMatchId | src/features/feature_builder.py:79-81 | the numbers depend on the two team names and the table only, not on the match id |
| FeatureProperties.HistoryOfAbsentTeam | src/features/feature_builder.py:30-32 | a team in no row has an empty history |
| FeatureProperties.ColdStartFeatures | src/features/feature_builder.py:50 | two teams absent from the table get 0.0 in every average, form, performance and delta |
| FeatureProperties.AveragesReadOwnAndOpponentSides | src/features/feature_builder.py:101-102 | the standard averages read the team's own side of each match, and the swapped columns of away_away_performance read the opponent's side |
| FeatureProperties.OwnMatchInHistories | src/features/feature_builder.py:30-32 | a training row's match is in the histories of both its teams, since the history is not cut at the match date |
| FeatureProperties.OwnMatchFeatures | src/features/feature_builder.py:79-130 | for a one-match table, the match's own corners are its averages and its own result is its form |
| FeatureProperties.PointsComplementary | src/features/feature_builder.py:57-71 | with both scores known, the two sides' points sum to 3 for a decided match and 2 for a draw, and one side wins exactly when the other loses |
| FeatureProperties.MissingScoreGivesNoPoints | src/features/feature_builder.py:57-71 | a match with a missing score is worth 0 points to either team |
| BusinessRules.TotalCorners | src/domain/business_rules.py:24 | the sum of the two predictions, which the signal's thresholds compare (its ensures adds only that, for non-negative predictions, the total is at least either side's share) |
| BusinessRules.DeriveCornersSignal | src/domain/business_rules.py:17-44 | over iff total > line + 1.0, under iff total < line - 1.0, none iff the total is in the closed band, so exactly one holds; ids and team names are copied and the market line is the given line |
| BusinessRules.SignalMonotoneInTotal | src/domain/business_rules.py:27-35 | a larger total never moves the suggestion towards under |
| BusinessRules.SignalAntitoneInLine | src/domain/business_rules.py:27-35 | a higher line never moves the suggestion towards over |
| BusinessRules.DefaultLineBand | src/domain/business_rules.py:17-35 | with the default line 9.5, over means more than 10.5 and under fewer than 8.5 |
| BusinessRules.SignalIgnoresSides | src/domain/business_rules.py:24 | only the total matters: exchanging the two sides' predictions keeps the suggestion |
| Transforms.RatioColumnNames | src/features/transforms.py:12-20 | the ratio columns are pass_accuracy_home/away and shots_on_target_ratio_home/away |
| Transforms.SafeRatio | src/features/transforms.py:13 | row by row, the numerator where the denominator is 0, and numerator / denominator otherwise |
| Transforms.AddRatio | src/features/transforms.py:12-13 | one guarded assignment keeps the frame well formed with the same row count |
| Transforms.AddRatios | src/features/transforms.py:12-20 | the guarded assignments one after another keep the frame well formed with the same row count (AddRatiosCorrect states their effect on the columns) |
| Transforms.AddRatiosCorrect | src/features/transforms.py:10-22 | for ratios that read no column any of them writes, the result has exactly the input columns plus the targets whose inputs exist; each of those targets holds the safe ratio of its inputs; every other column is unchanged |
| Transforms.AddRatiosIdempotent | src/features/transforms.py:10-22 | running such ratios a second time changes nothing |
| Transforms.BasicRatiosSeparated | src/features/transforms.py:12-20 | the four ratios write none of the columns they read, and no two write the same column |
| Transforms.AddBasicRatios | src/features/transforms.py:4-22 | the row count is kept; a ratio is added exactly when both its inputs exist, and then holds the safe ratio; no other column changes; at most the four ratio columns are new |
| Transforms.AddBasicRatiosIdempotent | src/features/transforms.py:4-22 | adding the basic ratios twice is the same as adding them once |
| Join.SharedColumnHidden | src/features/feature_builder.py:24 | a non-key column carried by both frames, whose name does not itself end in `_x` or `_y`, is absent from the merged header under its own name |
| Join.AsWrittenJoinHidesMatchColumns | src/features/feature_builder.py:24 | with statistics rows that repeat the match columns, the merged header lacks home_team, away_team, date, home_score and away_score |
| Join.CorrectedMergeColumns | src/features/feature_builder.py:24 | after dropping the repeated columns from the statistics side, the merged header holds exactly the columns of both frames, each under its own name |
| Join.CorrectedJoinKeepsBuilderColumns | src/features/feature_builder.py:24 | the corrected header has every column the builder reads under its plain name |

## Left out

- Reading `matches.csv` and `match_stats.csv` is file I/O, as are `to_csv` and the progress message in both drivers. The drivers return their records.
- The left merge in the constructor is modelled on column names only (`Join`). The statistics file repeats all seven non-key match columns: season, round_number, date, home_team, away_team, home_score and away_score. As written, the merge therefore renames them with `_x`/`_y`, and the builder's reads of `home_team`, `date` and the scores would fail (see "## Findings"). The constructor takes rows of the corrected join, one unsuffixed column each. Which matches get statistics (rows of the left merge without a statistics row) is not modelled.
- pandas NaN: the model does not represent a missing statistic. It assumes every metric used is present. `Series.mean` would skip a NaN, and the code has no missing-as-zero policy, so the model has none either. Missing scores are modelled (see above).
- Floating point: all arithmetic is on exact reals, with no rounding and no NaN or infinity from a 0/0.
- FeatureBuilding.SortByDateDesc: the order among rows with equal dates is the insertion order of this model, which keeps table order. The source's unstable sort may choose another, and then the latest five can differ when the fifth and sixth latest matches share a date. `LastNUnderAnySort` covers histories with distinct dates only.
- FeatureBuilding.LastN: `n` is a natural number. A negative `n` passed to `head` (all but the last rows) is not modelled, and the source only ever passes 5.
- The record's `extra` field (always `None`) and the prediction's `confidence_low`/`confidence_high` fields are not modelled.
- Statistics columns other than the eight read by the builder are not modelled.
- BusinessRules.DeriveCornersSignal: the `market` string is kept as the line value it is formatted from. The `rationale` text with its two-decimal formatting is not modelled.
- The frame copy in the ratio transform is modelled by value semantics: the caller's frame cannot change. Column order is not modelled, and neither are new columns appended at the end.
- The code averages shots over the team's whole history for home_home_performance, and with the columns swapped for away_away_performance. It does not restrict either to home-only or away-only matches, and the model follows the code. `home_home_performance` therefore always equals `home_avg_shots`.

## Findings

| source | as written | input that shows it | evidently intended | confidence | as-written member | corrected member |
|---|---|---|---|---|---|---|
| src/features/feature_builder.py:24 | the matches file is merged on match_id with a statistics file that carries the same seven non-key match columns, so pandas renames them to `home_team_x`, `home_team_y` and so on | the two files written by src/data_ingestion/update_pipeline.py:40-60, whose statistics rows start with all eight match fields; `self.df["home_team"]` at :32 then has no such column | one unsuffixed column per match field, as the builder reads them at :32, :37, :45 and :59-69 | high, not executed | Join.AsWrittenJoinHidesMatchColumns | Join.CorrectedJoinKeepsBuilderColumns |
