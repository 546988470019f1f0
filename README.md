# JBS fantasy football league: data pipeline and championship history, verified in Dafny

This project models the data logic behind the JBS fantasy football league
website and proves properties of that model. The logic lives in four places:

- **`scripts/process_data.py`** (modules `Matchups`, `Reconcile`, `League`,
  `HeadToHead`, `AllTime`). The ESPN feed returns several records per team
  pair per week. The week cascade reduces them to at most five canonical
  games:
  - strategy 1: the period filter;
  - strategy 2: the `SCHEDULED` tag filter;
  - the first-occurrence pass and the ordered pass;
  - the greedy team-disjoint pick, with its first-five fall-back.

  Both copies of the cascade are modelled: the one in `calculate_head_to_head`
  and the one in `get_valid_regular_season_matchups`. The selected games are
  then folded into:
  - the head-to-head tally, its record strings and its sorted result list;
  - the season totals and games-played counts;
  - the all-time statistics and the four top-5 record categories.
- **`scripts/calculate_power_rankings.py`** (modules `PowerRankings`,
  `WeeklyRankings`):
  - the valid regular-season matchups of a week;
  - `calculate_rank_with_ties` with its inverted, tie-averaged scale;
  - the season loop with its running win, loss, tie and point counters, the
    cumulative all-play ("theoretical") record, the three rankings and the
    per-week sort by total rank.
- **`scripts/compare_championships.py`** (module `Playoffs`):
  - first-name normalisation and the handle-to-name mapping;
  - playoff extraction: the deduplication keeping the best-scoring record,
    the championship week, the semifinal sets, and the one-, two- and
    many-game final weeks with their third-place fall-backs;
  - the case-insensitive field comparison of one season.
- **`data/champions.js`** (module `Champions`): the championship history
  helpers:
  - newest-first history;
  - the unique champions;
  - per-manager titles and counts;
  - the leaderboard;
  - back-to-back streaks.

`Core` holds shared helpers: `Option`, ASCII letter case, substring search,
filters, and an insertion-ordered dictionary standing in for Python's `dict`.
`Sorting` is a stable insertion sort standing in for `sorted` and `list.sort`.

The source here is imperative, so the loops are Dafny `method`s with loop
invariants. Each method is proved equal to a specification function, and the
properties the code promises are proved about those functions as lemmas.

The model follows the code as written, including the two defects listed
under "## Findings": the ordered pass of the cascade uses its weak guard
(`Reconcile.ResolveWeek`), and a two-game final week takes third place from
`min` (`Playoffs.FinalWeek`). Everything built on them (the league's games,
head-to-head, all-time statistics, the playoff extraction and the season
comparison) inherits that behaviour. The corrected cascade
(`Reconcile.ResolveWeekIntended`) and final week (`Playoffs.FinalWeekIntended`)
are defined beside them, with the intended properties proved about them and
lemmas saying when the two agree.

Scores are `real`. A manager's handle and first name are `string`s, and an
empty string plays the part of Python's falsy `""`/`None` name. Team ids
and winner ids are `Option<int>`; a winner id of `None` or `Some(0)` is falsy.

## Model

| member | source | states |
|---|---|---|
| Matchups.OfWeek | scripts/process_data.py:62-66 | The records of one week, in received order, are records of that week drawn from the input. |
| Matchups.ByWeekGroups | scripts/process_data.py:62-66 | The week grouping has a key for exactly the positive weeks that occur, and each key's list is that week's records in received order. |
| Matchups.GroupByWeek | scripts/process_data.py:62-66 | The grouping loop builds exactly that grouping (the twins at lines 474-478 and 529-534 are the same loop). |
| Sorting.Insert | scripts/process_data.py:320 | Inserting adds exactly the one element: the result is the list plus the element, as a multiset. |
| Sorting.InsertSorted | scripts/process_data.py:320 | Inserting into a sorted list keeps it sorted. |
| Sorting.SortBy | scripts/process_data.py:320 | The sort result is a permutation of its input. |
| Sorting.SortByIsSorted | scripts/process_data.py:320 | The sort result is sorted: no element strictly precedes one placed before it. |
| Sorting.SortedTailDominated | scripts/process_data.py:625-626 | In a sorted list, no later element strictly precedes an earlier one, so a top-k prefix dominates what it leaves out. |
| Reconcile.PairOf | scripts/process_data.py:198 | The team-pair key holds the two ids in increasing order, the same set of ids whichever side was at home. |
| Reconcile.TagStage | scripts/process_data.py:138-151 | Without types the list is unchanged. With types the result is the list unchanged, or a non-empty list of records from it whose type upper-cases to contain `SCHEDULED`, holding every such record. |
| Reconcile.PeriodStageAccepted | scripts/process_data.py:79-136 | When strategy 1 is accepted, the carried list holds only records of the week's period from the week's list, and its validated games number exactly five over ten distinct teams. |
| Reconcile.PeriodStageFallsBack | scripts/process_data.py:79-136 | Strategy 1 leaves the week's list unchanged unless the period ids are present in the first five records and the validated subset passes. |
| Reconcile.EachTeamOnceIsPairing | scripts/process_data.py:112-125 | "Each team exactly once" makes the validated games a pairing: no game pits a team against itself and no two games share a team. |
| Reconcile.PairingTeamCount | scripts/process_data.py:122 | Disjoint two-team games cover twice as many distinct teams as there are games (five games, ten teams). |
| Reconcile.TeamsAppearOnce | scripts/process_data.py:115-123 | The `team_counts` loop answers true exactly when every team of the validated games appears once. |
| Reconcile.ApplyPeriodStage | scripts/process_data.py:77-136 | The strategy 1 code, with its nested fall-backs, computes the period stage. |
| Reconcile.ApplyTagStage | scripts/process_data.py:138-151 | The strategy 2 loop computes the tag stage. |
| Reconcile.FirstOccurrenceIsEarliest | scripts/process_data.py:169-204 | Every pair kept maps to the earliest record of that pair that passes the filter, and every filtered record's pair is kept. The filter covers: both ids present, not a bye, named managers without `Team None` (head-to-head copy only), not 0-0, not both under 50, a winner or a positive tie. |
| Reconcile.CollectFirstOccurrences | scripts/process_data.py:153-204 | The loop with its `seen_pairs` set computes the first-occurrence map. |
| Reconcile.OrderedAgreesWithFirstOccurrence | scripts/process_data.py:211-231 | With the intended guard (the first-occurrence filter), the ordered pass lists every first-occurrence pair exactly once, with its first-occurrence record. |
| Reconcile.OrderedPassWellFormed | scripts/process_data.py:211-231 | For any guard that implies both ids, the ordered pass keeps each pair at most once, only pairs known to the first-occurrence map, each with a guarded record of that pair from the week's list. |
| Reconcile.OrderFirstOccurrences | scripts/process_data.py:210-231 | The loop with its `seen_in_order` set, with the weak guard of lines 222-224 as written, computes the ordered pass the cascade uses. |
| Reconcile.OrderedAsWrittenKeepsRejectedRecord | scripts/process_data.py:214-231 | Counterexample: as written, the ordered pass keeps a 40-30 record that the first-occurrence filter rejected, in place of the pair's real game. |
| Reconcile.GreedyWellFormed | scripts/process_data.py:234-248 | The greedy pass takes at most five entries of the ordered list, no two sharing a team. |
| Reconcile.GreedyStops | scripts/process_data.py:238-239 | Once five games are picked, the rest of the list changes nothing. |
| Reconcile.SelectGamesShape | scripts/process_data.py:234-253 | At most five games are selected, all from the ordered list. If the greedy pass reached five they are team-disjoint; otherwise they are the first five ordered entries. |
| Reconcile.SelectWeekGames | scripts/process_data.py:233-253 | The loop with its `used_teams` set and the first-five fall-back computes the selection. |
| Reconcile.ResolveWeekSound | scripts/process_data.py:72-253 | As written: a resolved week holds at most five entries with distinct pairs. Each holds a record of the week's list that passes the written guard of the ordered pass (both ids, a winner or a positive tie, and not a playoff game in the regular-season copy), under its own pair key, and some record of that pair in the week's list passes the full first-occurrence filter. |
| Reconcile.ResolveWeekGames | scripts/process_data.py:72-253 | The whole cascade of either copy, with the ordered pass as written, computes the resolved week: at most five entries with distinct pairs, each a record of the week's list passing the written guard of the ordered pass (both ids, a winner or a positive tie, and not a playoff game in the regular-season copy). |
| Reconcile.StagedFromInput | scripts/process_data.py:77-151 | Strategies 1 and 2 only drop records: every record they pass on is one of the week's records. |
| Reconcile.SelectedFromPass | scripts/process_data.py:211-253 | For any guard that implies both ids, the greedy selection over the ordered pass picks at most five entries with distinct pairs, each a guarded record of the list under its own pair key, a pair known to the first-occurrence map. |
| Reconcile.ResolveWeekIntendedSound | scripts/process_data.py:153-253 | With the intended guard: at most five entries with distinct pairs, each the first-occurrence record of its pair and a record of the week's list passing the full filter. |
| Reconcile.OrderedPassGuardsAgree | scripts/process_data.py:214-231 | Two guards that agree on every record of the list give the same ordered pass. |
| Reconcile.ResolveWeekAgrees | scripts/process_data.py:169-231 | When every record of the week that passes the written guard also passes the first-occurrence filter, the written and the intended cascade select the same games. |
| League.FirstNameIgnoresCase | scripts/process_data.py:29-31 | A display name is looked up in lower case: names equal up to case map to the same table name, and an unknown name is kept as it is. |
| League.ResolvedSound | scripts/process_data.py:234-253 | The cascade as written, as a resolver: any week's resolved matchups are at most five records of that week's list, each passing the written guard of the ordered pass (both ids, a winner or a positive tie, and not a playoff game in the regular-season copy). |
| League.WeekSound | scripts/process_data.py:69-253 | One week's selected matchups, as written, are at most five records of that week, with a positive week, each passing the written guard. |
| League.WeeksGamesPerWeek | scripts/process_data.py:69 | Within a season's games, as selected by the written cascade, no week contributes more than five. |
| League.SeasonGamesSound | scripts/process_data.py:55-253 | A season's games, as selected by the written cascade, are records of that season with a positive week passing the written guard, at most five per week. |
| League.LeagueGamesSound | scripts/process_data.py:55-253 | Every league game, as selected by the written cascade, is a record of its season with a positive week passing the written guard, tagged with the year of its season. |
| League.LeagueGamesPerWeek | scripts/process_data.py:55-253 | Every season contributes at most five league games per week under the written cascade. |
| League.WeekMatchups | scripts/process_data.py:463 | `[matchup for _, matchup in selected_games]` lists the records of the written cascade's selection in order. |
| League.SeasonMatchups | scripts/process_data.py:61-253 | One season's week loop (grouping, the written cascade per week, collection) computes that season's games. |
| League.CollectLeagueGames | scripts/process_data.py:55-253 | The season loop computes the league's games under the written cascade, each tagged with its season. |
| HeadToHead.NamePairSymmetric | scripts/process_data.py:275 | The head-to-head key does not depend on which manager was at home. |
| HeadToHead.CountStep | scripts/process_data.py:270-285 | One game adds one to exactly the counters of pair `p` it concerns: a win for one manager, or a tie for both; the pair becomes a key iff the game is between its managers. |
| HeadToHead.TallyCounts | scripts/process_data.py:257-285 | Each pair's tally counts exactly the games between its managers: each one's wins and the ties, credited to both. A pair is a key iff they met. |
| HeadToHead.TiesAgree | scripts/process_data.py:302-303 | Both managers of a pair carry the same number of ties, so `max(ties1, ties2)` is that number. |
| HeadToHead.TalliedPairsPlayed | scripts/process_data.py:305 | Every tallied pair has played at least once, so the `> 0` test drops none. |
| HeadToHead.CountGame | scripts/process_data.py:263-285 | One pass of the tally loop updates the win and tie dictionaries exactly as the tally specification does. |
| HeadToHead.TallyGames | scripts/process_data.py:257-285 | The tally loop computes the tally of the selected games. |
| HeadToHead.EmitRecords | scripts/process_data.py:292-318 | Over a tally, in any order of the pair set, the result loop emits one row per played pair with its counts and record string, and nothing else. |
| HeadToHead.SortKeepsRows | scripts/process_data.py:320 | Sorting keeps the rows, one per pair. |
| HeadToHead.RecordsOf | scripts/process_data.py:287-322 | The rows are sorted by total games, non-increasing, with distinct pairs, one row for every played pair. |
| HeadToHead.CalculateHeadToHead | scripts/process_data.py:46-324 | Over a league, with the cascade as written: one row per pair of managers who met in a selected game, with its counts, most games first. |
| HeadToHead.ParseShortRecord | scripts/process_data.py:308-309 | `W-L` with digit fields reads back as its two numbers and no ties. |
| HeadToHead.ParseLongRecord | scripts/process_data.py:306-307 | `W-L-T` with digit fields reads back as its three numbers. |
| HeadToHead.RecordRoundTrip | scripts/process_data.py:305-309 | Round trip: a record string reads back as the wins and ties it was made from (`W-L` when there are no ties, `W-L-T` otherwise). |
| AllTime.SeasonTotalsMeaning | scripts/process_data.py:485-500 | Each `(season, manager)` total is the points that manager scored that season in counted games; only managers who played are keys. |
| AllTime.TotalGamesMeaning | scripts/process_data.py:485-504 | Each manager's games-played count is the number of counted games they took part in. |
| AllTime.AddPoints | scripts/process_data.py:499-500 | `season_totals[(season, manager)] += score` adds one side to the season totals. |
| AllTime.AddGame | scripts/process_data.py:503-504 | `total_games[manager] += 1` adds one side to the games-played counts. |
| AllTime.AddGameTotals | scripts/process_data.py:486-504 | A counted game adds both its sides, home first, to both tallies. |
| AllTime.CalculateSeasonTotals | scripts/process_data.py:465-506 | The season-totals loop computes both tallies over the league's selected games. |
| AllTime.SinglesSound | scripts/process_data.py:555-577 | The single-game entries are pairwise distinct `(season, week, manager, score)` entries, exactly the positive-score sides. |
| AllTime.AddSingle | scripts/process_data.py:556-565 | Offering one side keeps the entries equal to the deduplicated positive sides so far, and the seen set equal to the set of entries. |
| AllTime.AddGameSingles | scripts/process_data.py:541-577 | A counted game offers its home score, then its away score. |
| AllTime.CollectSingles | scripts/process_data.py:537-577 | One season's single-game loop, with its own `seen_games` set, computes its entries. |
| AllTime.SeasonTotalEntriesMeaning | scripts/process_data.py:601-607 | The season-total entries are exactly the keyed `(season, manager)` totals that are positive. |
| AllTime.CollectedSingles | scripts/process_data.py:522-577 | The collected single games are exactly the positive-score sides of the games the written cascade selects. |
| AllTime.AddRowRecord | scripts/process_data.py:585-591 | A standings row becomes a season record exactly when wins + losses > 0. |
| AllTime.AddRowPoints | scripts/process_data.py:595-596 | A standings row adds the manager's matchup-based season points, zero when absent, to the all-time points. |
| AllTime.AddRowWins | scripts/process_data.py:597 | A standings row adds the manager's wins to the all-time wins. |
| AllTime.AddRowLosses | scripts/process_data.py:598 | A standings row adds the manager's losses to the all-time losses. |
| AllTime.CollectStandings | scripts/process_data.py:580-598 | One season's standings loop computes its season records and its contribution to the three all-time tallies. |
| AllTime.CollectSeasonTotals | scripts/process_data.py:601-607 | The loop over `season_totals.items()` computes the season-total entries. |
| AllTime.CalculateAllTimeStats | scripts/process_data.py:508-613 | The whole statistics pass, over the games the written cascade selects, computes the statistics whose meaning the lemmas above state. |
| AllTime.AveragesMeaning | scripts/process_data.py:690-700 | A manager has an average exactly when they have all-time points and a positive number of games; the average is points divided by games. |
| AllTime.ComputeAverages | scripts/process_data.py:692-700 | The averages loop computes those averages. |
| AllTime.AveragesNeedTallies | scripts/process_data.py:689 | Averages exist only when both tallies are non-empty, so the guard on the dictionaries changes nothing. |
| AllTime.Ranks | scripts/process_data.py:629 | `enumerate(s, 1)` ranks the entries 1, 2, … in order. |
| AllTime.TopFiveSound | scripts/process_data.py:625-635 | A top-5 list has min(5, n) entries taken from distinct positions of the statistics (as a multiset it is contained in them, so no entry is listed more often than it occurs), ranked 1..k and in key order, and nothing left out is strictly better than anything ranked. |
| AllTime.RecordOrders | scripts/process_data.py:665-669 | The four sort keys are strict orders: score, points and average descending, records by (−win%, −wins). |
| AllTime.BlockShapes | scripts/process_data.py:623-719 | Each category block holds at most one entry, of its own category, and is present exactly when its list is non-empty. |
| AllTime.SingleGameListed | scripts/process_data.py:623-641 | The single-game category, when listed, is a top-5 list of the single games; it is listed exactly when there are some. |
| AllTime.SeasonPointsListed | scripts/process_data.py:643-661 | The season-points category, when listed, is a top-5 list of the season totals; it is listed exactly when there are some. |
| AllTime.SeasonRecordListed | scripts/process_data.py:663-686 | The season-record category, when listed, is a top-5 list of the season records by (−win%, −wins); it is listed exactly when there are some. |
| AllTime.AverageListed | scripts/process_data.py:688-719 | The average category, when listed, is a top-5 list of the averages; it is listed exactly when some manager has games. |
| AllTime.AllTimeRecordsSound | scripts/process_data.py:615-721 | Every category listed is a top-5 list of its statistics, and a category is listed exactly when its list is non-empty. |
| AllTime.BuildRecords | scripts/process_data.py:623-719 | The four category blocks, in order, compute the records list. |
| AllTime.GenerateAllTimeRecords | scripts/process_data.py:615-721 | The whole pass computes the records list of the league's statistics, over the games the written cascade selects. |
| PowerRankings.RegularPeriod | scripts/calculate_power_rankings.py:53-59 | The week's records whose period is the week and that are not playoff games, in order. |
| PowerRankings.OccurMeaning | scripts/calculate_power_rankings.py:63-89 | The pass keeps only records that pass the filter, one per team pair, each the earliest such record of its pair; a pair is kept exactly when such a record exists. |
| PowerRankings.ValidMatchupsMeaning | scripts/calculate_power_rankings.py:50-91 | The valid matchups are non-playoff records of the week's period that pass the null-id, 0-0, under-50 and decision filters, one per pair, each its pair's earliest; none when no record is in the period. |
| PowerRankings.FirstWithPairKept | scripts/calculate_power_rankings.py:84-87 | A kept pair's earliest record is the one kept. |
| PowerRankings.CollectRegularPeriod | scripts/calculate_power_rankings.py:53-59 | The first loop computes the period's non-playoff records. |
| PowerRankings.KeepFirstOccurrences | scripts/calculate_power_rankings.py:63-89 | The second loop, with its `seen_pairs` set, computes the first valid record of each pair. |
| PowerRankings.GetValidRegularSeasonMatchups | scripts/calculate_power_rankings.py:50-91 | Both loops and the early return compute the valid matchups. |
| PowerRankings.RunStart | scripts/calculate_power_rankings.py:105-112 | The first position of the run of equal values holding a position: every position between it and the position has the same value, and the one before differs. |
| PowerRankings.RunEnd | scripts/calculate_power_rankings.py:109-112 | One past the last position of that run, with the same two properties at its end. |
| PowerRankings.RunIs | scripts/calculate_power_rankings.py:105-125 | A maximal stretch of equal values is the run of each of its positions. |
| PowerRankings.TieGroup | scripts/calculate_power_rankings.py:108-112 | The inner loop collects the names of the run starting at `i`, and stops where it ends. |
| PowerRankings.AssignGroup | scripts/calculate_power_rankings.py:122-123 | Each name of the tie group gets the run's averaged rank, and every other name keeps its rank. |
| PowerRankings.RankWithTies | scripts/calculate_power_rankings.py:101-127 | The nested loops give every name of the sorted values the averaged rank its last occurrence's run determines. |
| PowerRankings.RankWithinScale | scripts/calculate_power_rankings.py:114-119 | With as many teams as entries, every position's rank lies in [1, total_teams]. |
| PowerRankings.TiedRanksEqual | scripts/calculate_power_rankings.py:105-123 | In non-increasing order, equal values share their run and so their rank: the average of `total_teams - j + 1` and `total_teams - i`. |
| PowerRankings.HigherRanksHigher | scripts/calculate_power_rankings.py:114-119 | In non-increasing order, a strictly higher value has a strictly higher rank. |
| PowerRankings.RankSum | scripts/calculate_power_rankings.py:114-123 | With as many teams as entries, the ranks of all positions add up to n(n+1)/2. |
| PowerRankings.RanksWithinScale | scripts/calculate_power_rankings.py:93-127 | Every manager gets a rank, on the scale 1 to n when ranked against as many teams as there are entries. |
| PowerRankings.TiesShareRank | scripts/calculate_power_rankings.py:105-123 | Managers with equal values get the same rank. |
| PowerRankings.HigherValueHigherRank | scripts/calculate_power_rankings.py:96-118 | A manager with a strictly higher value gets a strictly higher rank: best is total_teams, worst is 1. |
| PowerRankings.RanksSum | scripts/calculate_power_rankings.py:114-123 | With distinct managers and total_teams equal to their number, the managers' ranks add up to n(n+1)/2. |
| WeeklyRankings.Bump | scripts/calculate_power_rankings.py:205-213 | `d[x] += 1` on a defaultdict: x's count grows by one, the others stay, and x becomes a key. |
| WeeklyRankings.AddPoints | scripts/calculate_power_rankings.py:199-200 | `d[x] += v` on a defaultdict: x's total grows by v, the others stay, and x becomes a key. |
| WeeklyRankings.GameCounters | scripts/calculate_power_rankings.py:177-213 | A game between named managers adds each score to its manager's points. A positive-score tie adds a tie to both; otherwise a game with a winner adds exactly one win and one loss; otherwise no record changes. |
| WeeklyRankings.UnnamedGameSkipped | scripts/calculate_power_rankings.py:184-187 | A game with an empty or `Team None` manager changes nothing. |
| WeeklyRankings.RecordGrows | scripts/calculate_power_rankings.py:198-213 | One game's updates never lower a counter. |
| WeeklyRankings.PlayGamesGrows | scripts/calculate_power_rankings.py:177-213 | Across a week's games no counter decreases and a counted manager stays counted. |
| WeeklyRankings.ProcessGames | scripts/calculate_power_rankings.py:177-213 | The game loop computes the counters and the week's score dictionaries. |
| WeeklyRankings.AllPlayPartition | scripts/calculate_power_rankings.py:245-254 | Over any list of opponents, all-play wins, losses and ties together count every opponent other than the manager. |
| WeeklyRankings.AllPlayAddsUp | scripts/calculate_power_rankings.py:243-254 | In a week a manager played, their all-play wins + losses + ties equal the number of other managers that week. |
| WeeklyRankings.CumAddsUp | scripts/calculate_power_rankings.py:240-254 | Cumulatively, all-play wins + losses + ties equal the opponents met across weeks 1..w. |
| WeeklyRankings.CumCountGrows | scripts/calculate_power_rankings.py:240-254 | The cumulative all-play counts never decrease from one week to a later one. |
| WeeklyRankings.CountOpponents | scripts/calculate_power_rankings.py:245-254 | The innermost loop counts, for one manager, the other managers of the week scoring less, more and the same. |
| WeeklyRankings.CountWeek | scripts/calculate_power_rankings.py:243-254 | The middle loop adds every manager's all-play outcomes for week w. |
| WeeklyRankings.CumulativeAllPlay | scripts/calculate_power_rankings.py:236-254 | The outer loop over `range(1, week + 1)` computes the all-play counts of all weeks so far. |
| WeeklyRankings.BuildRows | scripts/calculate_power_rankings.py:284-306 | The row loop builds one row per manager of the enumeration, reading missing ranks as 1. |
| WeeklyRankings.RankWeek | scripts/calculate_power_rankings.py:265-311 | The three rankings and the sorted rows compute the week's report. |
| WeeklyRankings.RankedWeekSorted | scripts/calculate_power_rankings.py:309 | The week's rows are sorted by total rank, non-increasing. |
| WeeklyRankings.RankedWeekRows | scripts/calculate_power_rankings.py:284-309 | With distinct managers, the week's rows hold one row per manager. Each row reports that manager's counters, and ranks computed from them by `calculate_rank_with_ties`; `total_rank` is the sum of the three. |
| WeeklyRankings.RankedWeekCovers | scripts/calculate_power_rankings.py:284-309 | Every manager has a row in the sorted week, and with distinct managers only one. |
| WeeklyRankings.WeekReportSorted | scripts/calculate_power_rankings.py:256-311 | A week's report holds rows of that week only, by non-increasing total rank. |
| WeeklyRankings.SortedWeeksIncrease | scripts/calculate_power_rankings.py:170 | The weeks are visited in strictly increasing order. |
| WeeklyRankings.SeasonCountersGrow | scripts/calculate_power_rankings.py:158-213 | Week after week, the win, loss and tie counters never decrease and a counted manager stays counted. |
| WeeklyRankings.SeasonRowsOrdered | scripts/calculate_power_rankings.py:170-311 | The result lists the rows week by week, in increasing week order, each week's rows by non-increasing total rank. |
| WeeklyRankings.PlayWeek | scripts/calculate_power_rankings.py:171-311 | One pass of the season loop computes the week step. |
| WeeklyRankings.RunSeason | scripts/calculate_power_rankings.py:170-311 | The loop over the sorted weeks computes the season's rows. |
| WeeklyRankings.CalculatePowerRankings | scripts/calculate_power_rankings.py:148-313 | The season's body, from the season's matchups, computes the power rankings. |
| WeeklyRankings.PowerRankingsOrdered | scripts/calculate_power_rankings.py:148-313 | The season's rows are grouped by week in increasing order and ranked by total within each week. |
| WeeklyRankings.RankedOneRowEach | scripts/calculate_power_rankings.py:284-309 | With an enumeration that lists each manager once, the sorted week has exactly one row per manager, each with ranks between 1 and the number of managers, the manager's counters, and total ranks that follow the counters. |
| WeeklyRankings.WeekReportRows | scripts/calculate_power_rankings.py:256-311 | When the enumeration of a set lists each member once, a week's report has one row per manager of `all_managers`, ranked on the scale of their number. |
| WeeklyRankings.RowsBeforeLastWeek | scripts/calculate_power_rankings.py:170-311 | Every row produced before a week is visited belongs to an earlier week. |
| WeeklyRankings.SeasonLastWeekRows | scripts/calculate_power_rankings.py:170-311 | After the loop over increasing weeks, the rows of the last week are exactly that week's report. |
| WeeklyRankings.SeasonWeekRows | scripts/calculate_power_rankings.py:170-311 | Over increasing weeks, the rows of the season tagged with week k are exactly the report computed when k was visited; later weeks add none. |
| WeeklyRankings.PowerRankingsWeeks | scripts/calculate_power_rankings.py:148-313 | With an enumeration that lists each member once, each week's rows of the season hold exactly one row per manager of that week's `all_managers` (every manager counted so far), each reporting its counters, with ranks between 1 and their number. |
| Playoffs.StrippedEmpty | scripts/compare_championships.py:120-123 | Nothing is left of a handle once its digits are removed exactly when it is all digits. |
| Playoffs.ExtractFirstNameMeaning | scripts/compare_championships.py:96-127 | Three outcomes: a known handle (matched in lower case) gives the table's name; an all-digit handle gives itself; otherwise the lower-cased, digit-free handle with its first letter upper-cased. |
| Playoffs.ExtractFirstNameIgnoresCase | scripts/compare_championships.py:115-118 | Handles that differ only in letter case get the same first name. |
| Playoffs.AddHandlesMeaning | scripts/compare_championships.py:136-141 | Adding one season's teams keeps every earlier entry and adds exactly the new handles, each with its first name. |
| Playoffs.AddSeasonHandles | scripts/compare_championships.py:136-141 | The inner loop computes one season's additions. |
| Playoffs.ManagerMappingMeaning | scripts/compare_championships.py:130-143 | The mapping holds exactly the team handles of all seasons, each with the first name derived from it; an entry, once made, is never overwritten. |
| Playoffs.BuildManagerMapping | scripts/compare_championships.py:130-143 | The season loop computes the mapping. |
| Playoffs.PairOfSymmetric | scripts/compare_championships.py:229 | The deduplication key forgets which manager was at home. |
| Playoffs.KeepBestKeys | scripts/compare_championships.py:222-243 | After deduplication there is one record per key, for exactly the keys that occur, each a record of that key. |
| Playoffs.KeepBestScores | scripts/compare_championships.py:231-243 | Each kept record has the highest combined score of its key, and is the earliest record of its key with that score. |
| Playoffs.KeepBestOrder | scripts/compare_championships.py:239-243 | A replacement keeps the original list position: keys stay in order of first appearance. |
| Playoffs.KeepBestDistinct | scripts/compare_championships.py:222-243 | Records whose keys are already distinct come through unchanged. |
| Playoffs.IndexOfKept | scripts/compare_championships.py:241 | `unique_matchups.index(existing)` finds the kept record at its key's position. |
| Playoffs.DedupPlayoffStep | scripts/compare_championships.py:224-243 | One pass of the loop keeps `seen_matchups` and `unique_matchups` in step with the deduplication of the prefix. |
| Playoffs.DedupPlayoffMatchups | scripts/compare_championships.py:222-243 | The loop computes the deduplication by week and manager pair. |
| Playoffs.DedupWeekStep | scripts/compare_championships.py:273-285 | One game of the week loop keeps the dictionary in step with the per-pair deduplication. |
| Playoffs.DictValues | scripts/compare_championships.py:287 | `list(d.values())` lists the stored records in the order their keys were first inserted. |
| Playoffs.DedupWeekGames | scripts/compare_championships.py:272-287 | One week's games deduplicated by manager pair, read back in key order. |
| Playoffs.FirstMax | scripts/compare_championships.py:357 | `max(s, key=f)` is the first position with the largest key. |
| Playoffs.FirstMin | scripts/compare_championships.py:358 | `min(s, key=f)` is the first position with the smallest key. |
| Playoffs.PlayoffMatchupsChoice | scripts/compare_championships.py:186-213 | The playoff records are the `is_playoff` ones if any, else those after the regular season: the record-count fallback never adds anything, since every record it could take lies after the regular season. |
| Playoffs.WeekMax | scripts/compare_championships.py:268 | The largest week of an accepted record, when one exists. |
| Playoffs.WeekMin | scripts/compare_championships.py:300 | The smallest week of an accepted record, when one exists. |
| Playoffs.ChampWeek | scripts/compare_championships.py:256-268 | The championship week is the largest valid playoff week: at most ten games, or any week when none qualifies. |
| Playoffs.FirstWeek | scripts/compare_championships.py:300 | `min(valid_weeks.keys())` is the smallest valid week. |
| Playoffs.SemifinalsMeaning | scripts/compare_championships.py:329-337 | A manager is a semifinal winner (loser) exactly when they won (lost) one of the games outright; a tie adds to neither set. |
| Playoffs.SemifinalSets | scripts/compare_championships.py:298-337 | The loop over the previous week's games computes the two sets. |
| Playoffs.OneGameFinal | scripts/compare_championships.py:339-341 | A one-game final week: that game decides champion and runner-up (neither on a tie), and there is no third place. |
| Playoffs.ChampionshipGameChoice | scripts/compare_championships.py:342-383 | The championship game is the first game between the two semifinal winners if they met; otherwise the first game with the highest combined score. |
| Playoffs.ChampionWonFinal | scripts/compare_championships.py:386-391 | The champion is set exactly when the championship game was not tied; the champion won it and the runner-up lost it. |
| Playoffs.TwoGameThirdIsOther | scripts/compare_championships.py:342-362 | Of two distinct games, the corrected third-place game is the one that is not the championship. |
| Playoffs.TwoGameThirdAgrees | scripts/compare_championships.py:357-362 | When the two games' combined scores differ, the corrected and the written third-place games agree. |
| Playoffs.TwoGameThirdAsWrittenRepeatsFinal | scripts/compare_championships.py:357-362 | As written, two games with equal combined scores and no game between two semifinal winners make `max` and `min` both pick the first game: the championship game is also the third-place game. |
| Playoffs.ChampionAlsoThirdAsWritten | scripts/compare_championships.py:357-369 | Counterexample: Ann beats Bea 100-90 and Cal ties Dee 95-95; the final week as written names Ann both champion and third, the corrected final week names Dee third. |
| Playoffs.ThirdPlaceFromAnotherGame | scripts/compare_championships.py:339-425 | For the corrected final week: with distinct games it fails only when no game is left, and a third place always comes from a game other than the championship. |
| Playoffs.ThirdPlaceFromWeekGame | scripts/compare_championships.py:339-425 | For the final week as written: with distinct games it fails exactly when no game is left, and a third place comes from some game of the week, possibly the championship game. |
| Playoffs.FinalWeekAgrees | scripts/compare_championships.py:357-362 | The written and the corrected final week agree unless the week holds exactly two games with equal combined scores. |
| Playoffs.WeekGamesFacts | scripts/compare_championships.py:269-295 | A week's deduplicated and trimmed games are distinct records of that week. |
| Playoffs.RaisesOnlyWithoutFinalGames | scripts/compare_championships.py:291-383 | The extraction raises exactly when the season exists, some playoff records survive deduplication, and the championship week's trimmed games are empty (more than five games, none over 50 combined). |
| Playoffs.ChampionWonLastWeek | scripts/compare_championships.py:268-425 | As written: a champion found implies the season exists with deduplicated playoff records, and the champion won outright, against the runner-up, a game among that season's trimmed championship-week games (the last valid playoff week); a third place is the third of some game among those same games, which may be the championship game. |
| Playoffs.CollectWeekGames | scripts/compare_championships.py:270-295 | One week's games, deduplicated by pair and trimmed. |
| Playoffs.CollectSemifinals | scripts/compare_championships.py:296-337 | The semifinal winners and losers of the week before the championship week, when there is one. |
| Playoffs.ResolveBracket | scripts/compare_championships.py:245-425 | The championship week, the semifinal sets and the final week as written (with `min` for third place) compute the bracket. |
| Playoffs.ExtractPlayoffResults | scripts/compare_championships.py:146-427 | The whole extraction as written, error path included, computes the extraction whose properties the lemmas above state. |
| Playoffs.FieldReportMeaning | scripts/compare_championships.py:508-544 | A field matches exactly when both sides have it and they agree up to letter case. A field on one side only is a discrepancy with the matching "Missing in …" note; a field on neither side gives nothing. |
| Playoffs.CompareFieldsCount | scripts/compare_championships.py:508-544 | Every field present on at least one side yields exactly one line, a match or a discrepancy; the others yield none. |
| Playoffs.CompareField | scripts/compare_championships.py:509-544 | One iteration of the field loop appends that field's report. |
| Playoffs.CompareFieldsLoop | scripts/compare_championships.py:508-544 | The field loop computes the matches and discrepancies. |
| Playoffs.ComparisonOutcome | scripts/compare_championships.py:499-500 | A season is skipped exactly when neither the history nor the league data has it; the comparison fails exactly when the extraction does; a compared season has data and at most one line per field. |
| Playoffs.CompareSeason | scripts/compare_championships.py:466-554 | The whole comparison of one season, over the extraction as written. |
| Champions.ChampionshipsByYearMeaning | data/champions.js:251-253 | Reversed, the history is the table back to front, newest season first on a chronological table, and reversing again restores it; otherwise it is the table itself. |
| Champions.GetAllChampions | data/champions.js:256-262 | The `forEach` into a `Set` lists the unique champions. |
| Champions.UniqueChampionsMembers | data/champions.js:256-262 | Every non-empty champion appears exactly once, and nothing else appears. |
| Champions.UniqueChampionsOrder | data/champions.js:256-262 | The champions come in the order of their first titles. |
| Champions.ChampionshipsForManager | data/champions.js:270-272 | The rows a manager won, and only those; the list is as long as the number of rows the manager won. |
| Champions.ChampionshipsInTableOrder | data/champions.js:270-272 | The `filter` keeps table order and multiplicity: the list reads the table at increasing positions, and those positions are exactly the rows the manager won. |
| Champions.ChampionshipCount | data/champions.js:265-267 | A manager's count is the length of their list of championships. |
| Champions.TallyCounts | data/champions.js:276-282 | The `counts` object holds exactly the champions, each with their number of titles. |
| Champions.TallySum | data/champions.js:276-282 | The tallied counts add up to the number of rows with a champion. |
| Champions.GetChampionshipLeaderboard | data/champions.js:275-293 | The counting loop, the entries and the sort compute the leaderboard. |
| Champions.LeaderboardEntries | data/champions.js:275-293 | Every entry is a champion with their number of titles, and every champion has an entry. |
| Champions.LeaderboardNames | data/champions.js:275-293 | Each champion has exactly one entry. |
| Champions.LeaderboardOrder | data/champions.js:286-292 | Entries are sorted by count descending, then by name ascending. |
| Champions.LeaderboardSum | data/champions.js:275-293 | The leaderboard's counts add up to the number of seasons with a champion. |
| Champions.CollectStreaks | data/champions.js:300-319 | The `for` loop over the sorted rows computes the streak list. |
| Champions.FixCounts | data/champions.js:322-324 | The `forEach` sets each streak's count to `endYear - startYear + 1`. |
| Champions.GetBackToBackChampions | data/champions.js:296-327 | Sort, loop, count fix and final sort compute the report. |
| Champions.SortedRowsChronological | data/champions.js:298 | A table without repeated seasons sorts into a chronological one. |
| Champions.StreaksAreRuns | data/champions.js:300-319 | On a chronological table the streak list mirrors the maximal runs: `find` picks up exactly the streak the previous row ended, so a run is extended in place, not split into pairs. |
| Champions.StreaksListRuns | data/champions.js:300-324 | The streaks before the final sort are the runs of the sorted table, one for one, in table order. |
| Champions.RunStreakMeaning | data/champions.js:304-323 | A reported streak names the champion of every season of its run, spans at least two seasons, and counts one per season when no year is skipped. |
| Champions.ConsecutiveYears | data/champions.js:323 | With every year between the first and last present, the year gap is the number of rows between them. |
| Champions.BackToBackAreRuns | data/champions.js:296-327 | Every reported streak is the streak of a maximal run (two or more rows) of one champion in the sorted table. |
| Champions.StreaksDistinct | data/champions.js:300-319 | No streak is listed twice: the runs start at different seasons. |
| Champions.BackToBackReportsEachRunOnce | data/champions.js:296-327 | Every maximal run of one champion over two or more seasons is reported exactly once. |
| Champions.BackToBackLongestFirst | data/champions.js:326 | The report lists longer streaks first. |

## Left out

- File and network I/O are not modelled: loading `espn_all_seasons.json`, the existence checks and early returns of `calculate_power_rankings` (lines 134-146), and `main`. The league's seasons, a season's matchups and the championship table are parameters.
- Output is not modelled: the JavaScript emission of `process_data.py`, `export_to_csv`, `export_weekly_summary`, and every `print`.
- `:.2f` and other string formatting of the top-5 lists are left out. The entries carry the numbers they would print.
- Scores, point totals, win percentages and averages are `real`. Floating-point rounding in sums and divisions is not modelled.
- The `MANAGER_MAPPING`/`name_mappings` tables are a `map<string, string>` parameter. No property depends on their contents.
- Letter case uses ASCII rules only. Python's `lower()`/`upper()` on other characters and JavaScript's `localeCompare` are not modelled. Names on the leaderboard are compared by code point.
- Python set iteration order is unspecified, so it is a parameter. This applies to `all_pairs` in `calculate_head_to_head` (the loop may pick any remaining pair) and to `all_managers` in `calculate_power_rankings` (an `enumerate` function from the set to a sequence).
- Dictionaries are insertion ordered, as in Python 3.7 and later. JavaScript's ordering of integer-like keys in `Object.entries` is not modelled. The leaderboard is sorted by count and then name, so the result does not depend on it, except for entries whose names compare equal.
- Reading a `defaultdict` with `[]` inserts a key. In `calculate_power_rankings` this happens only for managers already in `all_managers`, so it is not modelled.
- The per-week theoretical loop at `calculate_power_rankings.py:215-233` is not modelled. It computes counts that nothing reads; only the cumulative loop at 236-254 feeds the rankings.
- The `playoff_results` branch at `compare_championships.py:168-173` is not modelled because it does nothing (`pass`).
- `extract_playoff_results_debug` and the `debug_info` of `compare_season` are left out. They only feed diagnostics.
- `parse_champions_js` is not modelled; it parses the JavaScript file with regular expressions. The championship data is a parameter, and so is the table of `data/champions.js`.
- `Champions.BackToBackAreRuns`, `Champions.StreaksAreRuns` and the other streak theorems require distinct seasons. If the table repeats a year, the JavaScript sort may interleave rows in ways the theorems do not cover.
- `Playoffs.ExtractPlayoffResults`: the `max([])` raise at lines 380 and 383, reached when the trim at lines 293-294 empties the championship week, is modelled as an explicit failure result (`Raises`), not as a precondition.
- `Reconcile.ResolveWeekSound`: does not promise that a selected record passes the first-occurrence filter, only that some record of its pair does, because the ordered pass as written can keep a record the filter rejected (see "## Findings"). The league, head-to-head and all-time members inherit this weaker promise.
- `Playoffs.ChampionWonLastWeek`: does not promise that third place comes from a game other than the championship, because as written a two-game week with equal combined scores takes both from the same game (see "## Findings").
- `WeeklyRankings.PowerRankingsWeeks`: requires the enumeration to list each member of a set once, which Python's iteration over a `set` does; `WeeklyRankings.PowerRankingsOrdered` holds for any enumeration.
- `Champions.RunStreakMeaning`: the count equals the number of seasons only when no year is skipped. With a gap in the years, the count is `endYear - startYear + 1` as written.

## Findings

| source | as written | input that shows it | evidently intended | confidence | as-written member | corrected member |
|---|---|---|---|---|---|---|
| scripts/process_data.py:214-231 | The ordered pass admits every record with both ids and a winner or a positive tie. That guard is weaker than the first-occurrence filter of lines 169-195: it skips the bye, name, 0-0 and under-50 tests. So the record kept for a pair can be one the filter rejected, which then reaches the tally and differs from `first_occurrence[pair]`. | Week 1: a 40-30 record of teams 1 and 2 (winner 1), then their real 100-90 game. | The ordered pass lists each pair's `first_occurrence` record, in first-seen order. | not executed | Reconcile.OrderedAsWrittenKeepsRejectedRecord, Reconcile.ResolveWeekSound | Reconcile.ResolveWeekIntendedSound, Reconcile.OrderedAgreesWithFirstOccurrence |
| scripts/compare_championships.py:357-362 | In a two-game final week without a game between two semifinal winners, the championship is `max` and third place is `min` by combined score. With equal combined scores, both return the first game, so the champion's game also gives third place. | Final week: Ann beats Bea 100-90, Cal ties Dee 95-95. Ann is named champion and third. | Third place comes from the game that is not the championship: Dee, the away manager of the tied game. | not executed | Playoffs.ChampionAlsoThirdAsWritten, Playoffs.ThirdPlaceFromWeekGame | Playoffs.ThirdPlaceFromAnotherGame, Playoffs.FinalWeekAgrees |
