# Quarterback projection pipeline, modelled in Dafny

This project models the scoring pipeline of `fantasy_optimizer.py`, a script that ranks NFL
quarterbacks for the 2025 season. The script reads 2022–2024 season statistics and
normalises five season totals to per-game values. It then averages fifteen statistics per
player into an "advanced profile". It scores every historical season with a fixed linear
formula and measures how far that score overestimates the player's realized fantasy points
(the per-player bias). Finally it left-merges the profile and the bias onto externally
published projections, rescores each projected player, adds the bias, and ranks the players
by the adjusted score.

Modules:

- `Wrappers` (`wrappers.dfy`): `Option`. `None` stands for a NaN cell.
- `Scoring` (`scoring.dfy`): the fifteen statistic columns (`Field`, `StatLine`), the
  coefficient table `Coef`, and `Score`, which is `calculate_custom_fantasy_score`.
- `Tables` (`tables.dfy`): the pandas operations the script uses, on tables modelled as
  sequences of rows. These are group-by with an aggregate (`GroupBy`), the arithmetic
  `Mean`, and the left merge (`LeftJoin`). The merge is modelled in general: a repeated
  right key duplicates the left row. A lemma then proves it one-to-one when the right keys
  are unique.
- `Historical` (`historical.dfy`): the season table. It covers the in-place per-game
  normalisation (a method over an `array`), `expected_fantasy`, `fantasy_actual` and
  `diff`, the advanced profile, and the bias table.
- `Projection` (`projection.dfy`): the projection table after numeric coercion. It covers
  `calculate_custom_score_proj`, both merges with their zero fills, the adjusted score, the
  three exported columns, and the descending sort.
- `Pipeline` (`pipeline.dfy`): the script's statements in order (`Run`). They are proved
  against a per-row reference (`ExpectedRow`) that looks each projected player up in the
  historical tables. The module also holds the end-to-end examples.

Choices the code makes, which the model keeps:

- The projected score takes five counting stats from the projection: pass TDs, pass yards,
  interceptions, rush TDs and rush yards (fantasy_optimizer.py:110-114). The other ten
  terms come from the `_adv` averages.
- `sort_values` runs with its default algorithm, which is not stable. So the model claims
  only a ranked permutation, not any order among equal scores.
- The division by `G` has no guard (fantasy_optimizer.py:27). The model makes `G > 0` a
  precondition of normalisation.
- An unparseable counting stat becomes NaN (fantasy_optimizer.py:95), and nothing fills
  it. The custom and adjusted scores of that row are then NaN, and the row sorts after
  every number. The model does the same with `None`.

## Model

| member | source | states |
|---|---|---|
| Scoring.ScoreLinear | fantasy_optimizer.py:44-61 | Changing one of the fifteen inputs by `d`, with the rest fixed, changes the score by that column's coefficient times `d`. The coefficients are 2, 1/40, -2, 3, 1/20, 1/10, 10, 25, 5, -12, -5, -3, -15, -8 and 4. |
| Scoring.ScoreZero | fantasy_optimizer.py:44-61 | An all-zero row scores 0. |
| Historical.DivideColsSpec | fantasy_optimizer.py:26-27 | After the loop has handled a list of distinct columns, each listed column holds its value divided by `G`, and every other column is unchanged. |
| Historical.NormalizeRowSpec | fantasy_optimizer.py:25-27 | Normalisation divides exactly `Total Epa`, `Hrry`, `Blitz`, `Poor` and `Drop` by `G`. It leaves the other ten statistics, the name, the season, `G` and `Fpts/G` unchanged. |
| Historical.NormalizeOneGame | fantasy_optimizer.py:25-27 | A row with `G = 1` comes out of normalisation identical. |
| Historical.NormalizePerGame | fantasy_optimizer.py:25-27 | The in-place loop over the per-game columns leaves the table holding every row normalised. The row count is unchanged. |
| Tables.Distinct | fantasy_optimizer.py:37 | The group keys have no duplicates, and they are exactly the values present in the key column. |
| Tables.Where | fantasy_optimizer.py:37 | A group holds only rows of the table with that key. It is non-empty exactly when the key occurs. |
| Tables.WhereKeepsGroup | fantasy_optimizer.py:37 | A group holds every row of its key, as many times as the table does, and no row of another key. |
| Tables.GroupBy | fantasy_optimizer.py:37 | A group-by result has unique keys, exactly the keys of the input. Each key maps to the aggregate of exactly that key's rows. |
| Tables.MeanConstant | fantasy_optimizer.py:67 | The mean of a column whose entries all equal `c` is `c`. |
| Historical.AdvancedProfileSpec | fantasy_optimizer.py:30-38 | The advanced profile has one row per distinct player of the historical table, and none for anyone else. Each `<col>_adv` is the arithmetic mean of `<col>` over that player's seasons. |
| Historical.SingleSeasonProfile | fantasy_optimizer.py:30-38 | A player with a single season gets that season's fifteen values as the profile. |
| Historical.BiasTableSpec | fantasy_optimizer.py:63-68 | The bias table has one row per distinct player. Its value is the mean, over that player's seasons, of `expected_fantasy - Fpts/G * G`. |
| Historical.BiasZeroWhenExact | fantasy_optimizer.py:63-68 | If every season of a player has an expected score equal to its realized score, that player's bias is 0. A player with no seasons has no bias row. |
| Historical.BiasTwoSeasons | fantasy_optimizer.py:63-68 | Two seasons of player "A" with diffs 10 and 15 give "A" a bias of 12.5. |
| Projection.Blend | fantasy_optimizer.py:108-125 | The line the projected score reads takes the five counting columns from the projection. Every other column comes from the `_adv` profile. |
| Projection.CustomScoreProj | fantasy_optimizer.py:94-95 | The projected score is defined (not NaN) exactly when all five coerced counting stats are numbers. |
| Projection.ProjScoreIsScore | fantasy_optimizer.py:108-125 | The projected formula equals the historical formula, with the same coefficients, applied to the blended line. |
| Projection.NoHistoryScore | fantasy_optimizer.py:102-125 | With an all-zero profile, the projected score is just the five counting-stat terms. |
| Projection.AddBias | fantasy_optimizer.py:135 | The adjusted score minus the bias is the custom score. It is NaN exactly when the custom score is. |
| Tables.LeftJoin | fantasy_optimizer.py:101 | A left merge has at least as many rows as the left table. |
| Tables.LeftJoinKeepsLeft | fantasy_optimizer.py:101 | A left merge never drops a left row: every left row appears in some merged row, and every merged row carries a left row. |
| Tables.LeftJoinOneToOne | fantasy_optimizer.py:133 | With unique right keys, the left merge keeps every left row exactly once, in input order. Each row is paired with the value for its key, or with None when the key is absent. |
| Projection.MergeSpec | fantasy_optimizer.py:101-135 | After both merges, with fills and new columns, there is one row per projection row, in order. Each row has the player's profile (zero if absent), the projected score over it, and the player's bias (zero if absent). `Adjusted_Custom_2025 = custom_expected_2025 + avg_diff_per_season`. |
| Projection.SelectColumns | fantasy_optimizer.py:141 | The export keeps one row per row, with exactly "Player Name", "Projected_FPTS" and "Adjusted_Custom_2025". |
| Projection.Insert | fantasy_optimizer.py:142 | Inserting a row into a ranked table gives a ranked table, and the result is the old rows plus the new one. |
| Projection.SortDesc | fantasy_optimizer.py:142 | The sort returns a permutation of its input that does not increase in `Adjusted_Custom_2025`, with NaN rows last. |
| Pipeline.Run | fantasy_optimizer.py:25-142 | The script leaves the season table normalised. Its export has one row per projection row and is a permutation of the per-row reference results. The export is ranked by the adjusted score. |
| Pipeline.TwoSeasonExample | fantasy_optimizer.py:133-135 | Player "A" has seasons with diffs 10 and 15, so the adjusted score is the custom 2025 score plus 12.5. A custom score of 200 gives 212.5. |
| Pipeline.NoHistoryPlayer | fantasy_optimizer.py:101-135 | A projected player with no history gets zero profile and zero bias. The adjusted score is just the five counting-stat terms. |
| Pipeline.IncompleteHasNoScore | fantasy_optimizer.py:94-135 | A projection with any counting stat unparseable has a NaN adjusted score, whatever its history. |

## Left out

- Loading the season sheets from Excel (fantasy_optimizer.py:10-19) is file I/O. The model starts from the concatenated table, each row's `season` standing for the sheet label, and models only the columns the pipeline reads.
- The HTTP fetch and HTML table parsing (fantasy_optimizer.py:74-76) are network I/O inside libraries that are not part of this model.
- The flattening and renaming of the projection table's column names (fantasy_optimizer.py:78-92) is a schema mapping onto a third-party page's headers. The model's `ProjRow` is the renamed table.
- Projection.CustomScoreProj: the string-to-number parsing inside `pd.to_numeric` (fantasy_optimizer.py:95) is not modelled, only its outcome. Each counting stat is a number or `None`. "Projected_FPTS" is not coerced by the source and is modelled as a number.
- Floating point is modelled as exact `real` arithmetic. Rounding, infinities and NaN arising from arithmetic are not modelled.
- Historical.NormalizePerGame: division by `G = 0` (an infinity or NaN in the source) is excluded by the precondition `G > 0`. Games played is an integer.
- Missing values inside the historical sheets, and pandas' skipping of NaN in `mean()`, are not modelled. Every historical cell is a number.
- Tables.GroupBy: pandas sorts the group keys; the model lists them in order of first appearance. Both later merges look players up by key, so this order does not reach the output.
- Projection.SortDesc: the insertion sort stands in for pandas' quicksort. Only sortedness and permutation are claimed, not the order among equal scores.
- The vectorised column writes and `fillna` calls on the DataFrames (fantasy_optimizer.py:63-65, 102, 127, 134-135) are modelled as new row sequences. No intermediate state of those writes is observable.
- The Excel export and the completion message (fantasy_optimizer.py:142-145) are output I/O.
