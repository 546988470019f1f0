/**
 * The all-time records of scripts/process_data.py: per-season point totals
 * and games played counted from the regular-season copy of the week cascade
 * (`calculate_season_totals_from_matchups`), the statistics gathered season
 * by season (`calculate_all_time_stats`) and the four top-5 lists built from
 * them (`generate_all_time_records`).
 */
module AllTime {
  import opened Core
  import opened Sorting
  import opened Matchups
  import opened Reconcile
  import opened League

  // ---------------------------------------------------------------------
  // Counted sides of the regular-season games
  // ---------------------------------------------------------------------

  /**
   * One manager's half of a counted game, under the manager's first name.
   * It is also the deduplication key `(season, week, manager, score)` of a
   * single-game entry, whose fields are the same four.
   */
  datatype Side = Side(season: int, week: int, manager: string, score: real)

  /** A game counts only when both managers are named and neither is "Team None"; home side first. */
  function GameSides(names: map<string, string>, g: Game): seq<Side> {
    var m := g.matchup;
    if NamedManagers(m) then
      [Side(g.season, m.week, FirstName(names, m.homeManager), m.homeScore),
       Side(g.season, m.week, FirstName(names, m.awayManager), m.awayScore)]
    else []
  }

  function SidesOf(names: map<string, string>, games: seq<Game>): seq<Side> {
    if games == [] then [] else SidesOf(names, games[..|games| - 1]) + GameSides(names, games[|games| - 1])
  }

  lemma CountedSides(names: map<string, string>, g: Game)
    requires NamedManagers(g.matchup)
    ensures GameSides(names, g) == [Side(g.season, g.matchup.week, FirstName(names, g.matchup.homeManager), g.matchup.homeScore)]
      + [Side(g.season, g.matchup.week, FirstName(names, g.matchup.awayManager), g.matchup.awayScore)]
  {
  }

  lemma UncountedSides(names: map<string, string>, g: Game)
    requires !NamedManagers(g.matchup)
    ensures GameSides(names, g) == []
  {
  }

  lemma SidesStep(names: map<string, string>, games: seq<Game>, i: nat)
    requires i < |games|
    ensures SidesOf(names, games[..i + 1]) == SidesOf(names, games[..i]) + GameSides(names, games[i])
  {
    assert games[..i + 1][..i] == games[..i];
  }

  lemma {:induction false} SidesOfAppend(names: map<string, string>, a: seq<Game>, b: seq<Game>)
    ensures SidesOf(names, a + b) == SidesOf(names, a) + SidesOf(names, b)
    decreases |b|
  {
    if b == [] {
      assert a + b == a;
    } else {
      var p, g := b[..|b| - 1], b[|b| - 1];
      assert SidesOf(names, a + b) == SidesOf(names, a + p) + GameSides(names, g) by {
        assert (a + b)[..|a + b| - 1] == a + p;
        assert (a + b)[|a + b| - 1] == g;
      }
      SidesOfAppend(names, a, p);
    }
  }

  // ---------------------------------------------------------------------
  // calculate_season_totals_from_matchups
  // ---------------------------------------------------------------------

  const AddReal: (real, real) -> real := (x: real, y: real) => x + y
  const AddInt: (int, int) -> int := (x: int, y: int) => x + y

  /** `season_totals[(season, manager)] += score`, one entry per side. */
  function PointEntries(sides: seq<Side>): seq<((int, string), real)> {
    MapSeq(sides, (x: Side) => ((x.season, x.manager), x.score))
  }

  /** `total_games[manager] += 1`, one entry per side. */
  function GameEntries(sides: seq<Side>): seq<(string, int)> {
    MapSeq(sides, (x: Side) => (x.manager, 1))
  }

  function SeasonTotals(sides: seq<Side>): Dict<(int, string), real> {
    Accumulate(EmptyDict(), PointEntries(sides), 0.0, AddReal)
  }

  function TotalGames(sides: seq<Side>): Dict<string, int> {
    Accumulate(EmptyDict(), GameEntries(sides), 0, AddInt)
  }

  /** Reference sum: the points manager `n` scored in season `s`. */
  function PointsScored(sides: seq<Side>, s: int, n: string): real {
    if sides == [] then 0.0
    else
      var x := sides[|sides| - 1];
      PointsScored(sides[..|sides| - 1], s, n) + (if x.season == s && x.manager == n then x.score else 0.0)
  }

  /** Reference count: the counted games manager `n` took part in. */
  function GamesPlayed(sides: seq<Side>, n: string): nat {
    if sides == [] then 0
    else GamesPlayed(sides[..|sides| - 1], n) + (if sides[|sides| - 1].manager == n then 1 else 0)
  }

  predicate PlayedIn(sides: seq<Side>, s: int, n: string) {
    exists i :: 0 <= i < |sides| && sides[i].season == s && sides[i].manager == n
  }

  lemma {:induction false} PointEntriesTotal(sides: seq<Side>, s: int, n: string)
    ensures KeyTotal(0.0, PointEntries(sides), (s, n), AddReal) == PointsScored(sides, s, n)
    ensures Listed(PointEntries(sides), (s, n)) <==> PlayedIn(sides, s, n)
  {
    var e := PointEntries(sides);
    if sides != [] {
      var p := sides[..|sides| - 1];
      assert e[..|e| - 1] == PointEntries(p);
      PointEntriesTotal(p, s, n);
    }
    if Listed(e, (s, n)) {
      var i :| 0 <= i < |e| && e[i].0 == (s, n);
      assert sides[i].season == s && sides[i].manager == n;
    }
    if PlayedIn(sides, s, n) {
      var i :| 0 <= i < |sides| && sides[i].season == s && sides[i].manager == n;
      assert e[i].0 == (s, n);
    }
  }

  lemma {:induction false} GameEntriesTotal(sides: seq<Side>, n: string)
    ensures KeyTotal(0, GameEntries(sides), n, AddInt) == GamesPlayed(sides, n)
    ensures Listed(GameEntries(sides), n) <==> GamesPlayed(sides, n) > 0
  {
    var e := GameEntries(sides);
    if sides != [] {
      var p := sides[..|sides| - 1];
      assert e[..|e| - 1] == GameEntries(p);
      GameEntriesTotal(p, n);
      if Listed(GameEntries(p), n) {
        var i :| 0 <= i < |p| && GameEntries(p)[i].0 == n;
        assert e[i].0 == n;
      }
      if Listed(e, n) && sides[|sides| - 1].manager != n {
        var i :| 0 <= i < |e| && e[i].0 == n;
        assert GameEntries(p)[i].0 == n;
      }
    }
  }

  /** Each `(season, manager)` total is the points that manager scored that season; only managers who played are keyed. */
  lemma SeasonTotalsMeaning(sides: seq<Side>, s: int, n: string)
    ensures SeasonTotals(sides).Get((s, n), 0.0) == PointsScored(sides, s, n)
    ensures (s, n) in SeasonTotals(sides).entries <==> PlayedIn(sides, s, n)
  {
    AccumulateByKey(EmptyDict(), PointEntries(sides), (s, n), 0.0, AddReal);
    PointEntriesTotal(sides, s, n);
  }

  /** Each manager's games-played count is the number of counted games they took part in. */
  lemma TotalGamesMeaning(sides: seq<Side>, n: string)
    ensures TotalGames(sides).Get(n, 0) == GamesPlayed(sides, n)
    ensures n in TotalGames(sides).entries <==> GamesPlayed(sides, n) > 0
  {
    AccumulateByKey(EmptyDict(), GameEntries(sides), n, 0, AddInt);
    GameEntriesTotal(sides, n);
  }

  /** Adding one side to the season totals. */
  lemma PointsStep(sides: seq<Side>, x: Side)
    ensures SeasonTotals(sides + [x])
      == SeasonTotals(sides).Put((x.season, x.manager), SeasonTotals(sides).Get((x.season, x.manager), 0.0) + x.score)
  {
    var e := PointEntries(sides);
    assert (sides + [x])[..|sides|] == sides;
    assert PointEntries(sides + [x]) == e + [((x.season, x.manager), x.score)];
    AccumulateSnoc(EmptyDict(), e, (x.season, x.manager), x.score, 0.0, AddReal);
  }

  /** Adding one side to the games-played counts. */
  lemma GamesStep(sides: seq<Side>, x: Side)
    ensures TotalGames(sides + [x]) == TotalGames(sides).Put(x.manager, TotalGames(sides).Get(x.manager, 0) + 1)
  {
    assert (sides + [x])[..|sides|] == sides;
    assert GameEntries(sides + [x]) == GameEntries(sides) + [(x.manager, 1)];
    AccumulateSnoc(EmptyDict(), GameEntries(sides), x.manager, 1, 0, AddInt);
  }

  /** `season_totals[(season, manager)] += score` for one side. */
  method AddPoints(ghost before: seq<Side>, seasonTotals: Dict<(int, string), real>, x: Side) returns (seasonTotals': Dict<(int, string), real>)
    requires seasonTotals == SeasonTotals(before)
    ensures seasonTotals' == SeasonTotals(before + [x])
  {
    PointsStep(before, x);
    seasonTotals' := seasonTotals.Put((x.season, x.manager), seasonTotals.Get((x.season, x.manager), 0.0) + x.score);
  }

  /** `total_games[manager] += 1` for one side. */
  method AddGame(ghost before: seq<Side>, totalGames: Dict<string, int>, x: Side) returns (totalGames': Dict<string, int>)
    requires totalGames == TotalGames(before)
    ensures totalGames' == TotalGames(before + [x])
  {
    GamesStep(before, x);
    totalGames' := totalGames.Put(x.manager, totalGames.Get(x.manager, 0) + 1);
  }

  /** The body of the game loop: a counted game adds both sides, home first, to both tallies. */
  method AddGameTotals(names: map<string, string>, ghost before: seq<Side>, seasonTotals: Dict<(int, string), real>, totalGames: Dict<string, int>, g: Game)
    returns (seasonTotals': Dict<(int, string), real>, totalGames': Dict<string, int>)
    requires seasonTotals == SeasonTotals(before) && totalGames == TotalGames(before)
    ensures seasonTotals' == SeasonTotals(before + GameSides(names, g))
    ensures totalGames' == TotalGames(before + GameSides(names, g))
  {
    var m := g.matchup;
    if !NamedManagers(m) {
      UncountedSides(names, g);
      assert before + GameSides(names, g) == before;
      return seasonTotals, totalGames;
    }
    var homeFirst := FirstName(names, m.homeManager);
    var awayFirst := FirstName(names, m.awayManager);
    var h := Side(g.season, m.week, homeFirst, m.homeScore);
    var a := Side(g.season, m.week, awayFirst, m.awayScore);
    assert before + GameSides(names, g) == before + [h] + [a] by { CountedSides(names, g); }
    seasonTotals' := AddPoints(before, seasonTotals, h);
    seasonTotals' := AddPoints(before + [h], seasonTotals', a);
    totalGames' := AddGame(before, totalGames, h);
    totalGames' := AddGame(before + [h], totalGames', a);
  }

  /**
   * `calculate_season_totals_from_matchups` over the regular-season games:
   * each counted game adds both scores to their `(season, manager)` totals
   * and one game to each manager's count.
   */
  method CalculateSeasonTotals(names: map<string, string>, games: seq<Game>) returns (seasonTotals: Dict<(int, string), real>, totalGames: Dict<string, int>)
    ensures seasonTotals == SeasonTotals(SidesOf(names, games))
    ensures totalGames == TotalGames(SidesOf(names, games))
  {
    seasonTotals := EmptyDict();
    totalGames := EmptyDict();
    var i := 0;
    while i < |games|
      invariant 0 <= i <= |games|
      invariant seasonTotals == SeasonTotals(SidesOf(names, games[..i]))
      invariant totalGames == TotalGames(SidesOf(names, games[..i]))
    {
      SidesStep(names, games, i);
      seasonTotals, totalGames := AddGameTotals(names, SidesOf(names, games[..i]), seasonTotals, totalGames, games[i]);
      i := i + 1;
    }
    assert games[..i] == games;
  }

  // ---------------------------------------------------------------------
  // Single-game scores
  // ---------------------------------------------------------------------

  /** One season's single-game entries: each positive-score side whose key was not seen before. */
  function Singles(sides: seq<Side>): seq<Side> {
    if sides == [] then []
    else
      var r := Singles(sides[..|sides| - 1]);
      var x := sides[|sides| - 1];
      if x.score > 0.0 && x !in r then r + [x] else r
  }

  /** The entries are pairwise distinct and are exactly the positive-score sides. */
  lemma {:induction false} SinglesSound(sides: seq<Side>)
    ensures Distinct(Singles(sides))
    ensures forall x :: x in Singles(sides) <==> x in sides && x.score > 0.0
  {
    if sides != [] {
      var p := sides[..|sides| - 1];
      SinglesSound(p);
      assert sides == p + [sides[|sides| - 1]];
    }
  }

  lemma SinglesStep(sides: seq<Side>, x: Side)
    ensures Singles(sides + [x]) == if x.score > 0.0 && x !in Singles(sides) then Singles(sides) + [x] else Singles(sides)
  {
    assert (sides + [x])[..|sides|] == sides;
  }

  /** A positive score whose key was not seen is added to both the seen set and the entries. */
  method AddSingle(ghost before: seq<Side>, singles: seq<Side>, seen: set<Side>, x: Side) returns (singles': seq<Side>, seen': set<Side>)
    requires singles == Singles(before) && seen == set y | y in singles
    ensures singles' == Singles(before + [x]) && seen' == set y | y in singles'
  {
    SinglesStep(before, x);
    singles', seen' := singles, seen;
    if x.score > 0.0 {
      if x !in seen {
        seen' := seen + {x};
        singles' := singles + [x];
      }
    }
  }

  /** The body of the game loop: a counted game offers its home score, then its away score. */
  method AddGameSingles(names: map<string, string>, ghost before: seq<Side>, singles: seq<Side>, seen: set<Side>, g: Game) returns (singles': seq<Side>, seen': set<Side>)
    requires singles == Singles(before) && seen == set y | y in singles
    ensures singles' == Singles(before + GameSides(names, g)) && seen' == set y | y in singles'
  {
    var m := g.matchup;
    if !NamedManagers(m) {
      UncountedSides(names, g);
      assert before + GameSides(names, g) == before;
      return singles, seen;
    }
    var h := Side(g.season, m.week, FirstName(names, m.homeManager), m.homeScore);
    var a := Side(g.season, m.week, FirstName(names, m.awayManager), m.awayScore);
    assert before + GameSides(names, g) == before + [h] + [a] by { CountedSides(names, g); }
    singles', seen' := AddSingle(before, singles, seen, h);
    singles', seen' := AddSingle(before + [h], singles', seen', a);
  }

  /** The single-game loop of one season, with its own `seen_games` set. */
  method CollectSingles(names: map<string, string>, games: seq<Game>) returns (singles: seq<Side>)
    ensures singles == Singles(SidesOf(names, games))
  {
    singles := [];
    var seen: set<Side> := {};
    var i := 0;
    while i < |games|
      invariant 0 <= i <= |games|
      invariant singles == Singles(SidesOf(names, games[..i]))
      invariant seen == set x | x in singles
    {
      SidesStep(names, games, i);
      singles, seen := AddGameSingles(names, SidesOf(names, games[..i]), singles, seen, games[i]);
      i := i + 1;
    }
    assert games[..i] == games;
  }

  // ---------------------------------------------------------------------
  // calculate_all_time_stats
  // ---------------------------------------------------------------------

  datatype SeasonRecord = SeasonRecord(wins: int, losses: int, manager: string, season: int)
  datatype SeasonTotal = SeasonTotal(points: real, manager: string, season: int)

  /** The regular-season games of one season, tagged with its year. */
  function SeasonGamesOf(s: Season): seq<Game> {
    Tagged(s.year, SeasonGames(Resolved(RegularSeasonCopy), s))
  }

  /** A standings row becomes a season record when at least one of its games was decided. */
  function RowRecord(names: map<string, string>, year: int, r: StandingsRow): seq<SeasonRecord> {
    if r.wins + r.losses > 0 then [SeasonRecord(r.wins, r.losses, FirstName(names, r.manager), year)] else []
  }

  /** The season records of a standings list. */
  function RecordsOf(names: map<string, string>, year: int, rows: seq<StandingsRow>): seq<SeasonRecord> {
    if rows == [] then [] else RecordsOf(names, year, rows[..|rows| - 1]) + RowRecord(names, year, rows[|rows| - 1])
  }

  /** The entries `most_points_all_time[manager] += season_totals.get((season, manager), 0)` adds, row by row. */
  function PointsOfRows(names: map<string, string>, totals: Dict<(int, string), real>, year: int, rows: seq<StandingsRow>): seq<(string, real)> {
    if rows == [] then []
    else
      var n := FirstName(names, rows[|rows| - 1].manager);
      PointsOfRows(names, totals, year, rows[..|rows| - 1]) + [(n, totals.Get((year, n), 0.0))]
  }

  /** The entries `total_wins[manager] += team['wins']` adds, row by row. */
  function WinsOfRows(names: map<string, string>, rows: seq<StandingsRow>): seq<(string, int)> {
    if rows == [] then []
    else WinsOfRows(names, rows[..|rows| - 1]) + [(FirstName(names, rows[|rows| - 1].manager), rows[|rows| - 1].wins)]
  }

  /** The entries `total_losses[manager] += team['losses']` adds, row by row. */
  function LossesOfRows(names: map<string, string>, rows: seq<StandingsRow>): seq<(string, int)> {
    if rows == [] then []
    else LossesOfRows(names, rows[..|rows| - 1]) + [(FirstName(names, rows[|rows| - 1].manager), rows[|rows| - 1].losses)]
  }

  /** What the season loop builds, season after season. */
  datatype Collected = Collected(
    singles: seq<Side>,
    records: seq<SeasonRecord>,
    mostPoints: Dict<string, real>,
    totalWins: Dict<string, int>,
    totalLosses: Dict<string, int>)
  {
  }

  function Collect(names: map<string, string>, totals: Dict<(int, string), real>, league: seq<Season>): Collected {
    if league == [] then Collected([], [], EmptyDict(), EmptyDict(), EmptyDict())
    else
      var c := Collect(names, totals, league[..|league| - 1]);
      var s := league[|league| - 1];
      Collected(
        c.singles + Singles(SidesOf(names, SeasonGamesOf(s))),
        c.records + RecordsOf(names, s.year, s.standings),
        Accumulate(c.mostPoints, PointsOfRows(names, totals, s.year, s.standings), 0.0, AddReal),
        Accumulate(c.totalWins, WinsOfRows(names, s.standings), 0, AddInt),
        Accumulate(c.totalLosses, LossesOfRows(names, s.standings), 0, AddInt))
  }

  /** `all_season_totals`: the positive season totals, in the order their keys were first added. */
  function TotalsList(keys: seq<(int, string)>, d: Dict<(int, string), real>): seq<SeasonTotal> {
    if keys == [] then []
    else
      var k := keys[|keys| - 1];
      TotalsList(keys[..|keys| - 1], d)
        + (if d.Get(k, 0.0) > 0.0 then [SeasonTotal(d.Get(k, 0.0), k.1, k.0)] else [])
  }

  function SeasonTotalEntries(d: Dict<(int, string), real>): seq<SeasonTotal> {
    TotalsList(d.keys, d)
  }

  lemma {:induction false} TotalsListMeaning(keys: seq<(int, string)>, d: Dict<(int, string), real>)
    ensures forall t :: t in TotalsList(keys, d) <==>
      (t.season, t.manager) in keys && d.Get((t.season, t.manager), 0.0) == t.points && t.points > 0.0
  {
    if keys != [] {
      var p := keys[..|keys| - 1];
      TotalsListMeaning(p, d);
      assert keys == p + [keys[|keys| - 1]];
    }
  }

  /** The season-total entries are exactly the keyed `(season, manager)` totals that are positive. */
  lemma SeasonTotalEntriesMeaning(d: Dict<(int, string), real>)
    requires d.Valid()
    ensures forall t :: t in SeasonTotalEntries(d) <==>
      (t.season, t.manager) in d.entries && d.entries[(t.season, t.manager)] == t.points && t.points > 0.0
  {
    TotalsListMeaning(d.keys, d);
    forall k ensures k in d.keys <==> k in d.entries {
      assert k in d.keys <==> k in (set x | x in d.keys);
    }
  }

  /** The statistics dictionary `calculate_all_time_stats` returns. */
  datatype Stats = Stats(
    singleGames: seq<Side>,
    seasonTotalsList: seq<SeasonTotal>,
    seasonRecords: seq<SeasonRecord>,
    mostPoints: Dict<string, real>,
    totalWins: Dict<string, int>,
    totalLosses: Dict<string, int>,
    seasonTotals: Dict<(int, string), real>,
    totalGames: Dict<string, int>)

  function AllTimeStats(names: map<string, string>, league: seq<Season>): Stats {
    var sides := SidesOf(names, LeagueGames(RegularSeasonCopy, league));
    var totals := SeasonTotals(sides);
    var c := Collect(names, totals, league);
    Stats(c.singles, SeasonTotalEntries(totals), c.records, c.mostPoints, c.totalWins, c.totalLosses,
      totals, TotalGames(sides))
  }

  /** The collected single games are exactly the positive-score sides of the league's regular-season games. */
  lemma {:induction false} CollectedSingles(names: map<string, string>, t: Dict<(int, string), real>, league: seq<Season>)
    ensures forall x :: x in Collect(names, t, league).singles <==> x in SidesOf(names, LeagueGames(RegularSeasonCopy, league)) && x.score > 0.0
  {
    if league != [] {
      var p := league[..|league| - 1];
      var s := league[|league| - 1];
      CollectedSingles(names, t, p);
      SinglesSound(SidesOf(names, SeasonGamesOf(s)));
      assert LeagueGames(RegularSeasonCopy, league) == LeagueGames(RegularSeasonCopy, p) + SeasonGamesOf(s);
      SidesOfAppend(names, LeagueGames(RegularSeasonCopy, p), SeasonGamesOf(s));
    }
  }

  lemma RecordsOfStep(names: map<string, string>, year: int, rows: seq<StandingsRow>, j: nat)
    requires j < |rows|
    ensures RecordsOf(names, year, rows[..j + 1]) == RecordsOf(names, year, rows[..j]) + RowRecord(names, year, rows[j])
  {
    assert rows[..j + 1][..j] == rows[..j];
  }

  /** `d[n] += v` on the all-time points, as one more accumulated entry. */
  lemma PointsSnoc(start: Dict<string, real>, e: seq<(string, real)>, e': seq<(string, real)>, n: string, v: real)
    requires e' == e + [(n, v)]
    ensures var d := Accumulate(start, e, 0.0, AddReal);
      Accumulate(start, e', 0.0, AddReal) == d.Put(n, d.Get(n, 0.0) + v)
  {
    var d := Accumulate(start, e, 0.0, AddReal);
    assert AddReal(d.Get(n, 0.0), v) == d.Get(n, 0.0) + v;
    AccumulateSnoc(start, e, n, v, 0.0, AddReal);
  }

  /** `d[n] += v` on an all-time count, as one more accumulated entry. */
  lemma CountSnoc(start: Dict<string, int>, e: seq<(string, int)>, e': seq<(string, int)>, n: string, v: int)
    requires e' == e + [(n, v)]
    ensures var d := Accumulate(start, e, 0, AddInt);
      Accumulate(start, e', 0, AddInt) == d.Put(n, d.Get(n, 0) + v)
  {
    var d := Accumulate(start, e, 0, AddInt);
    assert AddInt(d.Get(n, 0), v) == d.Get(n, 0) + v;
    AccumulateSnoc(start, e, n, v, 0, AddInt);
  }

  /** The entries of one more standings row. */
  lemma PointsOfRowsStep(names: map<string, string>, totals: Dict<(int, string), real>, year: int, rows: seq<StandingsRow>, j: nat)
    requires j < |rows|
    ensures var n := FirstName(names, rows[j].manager);
      PointsOfRows(names, totals, year, rows[..j + 1]) == PointsOfRows(names, totals, year, rows[..j]) + [(n, totals.Get((year, n), 0.0))]
  {
    assert rows[..j + 1][..j] == rows[..j];
  }

  lemma WinsOfRowsStep(names: map<string, string>, rows: seq<StandingsRow>, j: nat)
    requires j < |rows|
    ensures WinsOfRows(names, rows[..j + 1]) == WinsOfRows(names, rows[..j]) + [(FirstName(names, rows[j].manager), rows[j].wins)]
  {
    assert rows[..j + 1][..j] == rows[..j];
  }

  lemma LossesOfRowsStep(names: map<string, string>, rows: seq<StandingsRow>, j: nat)
    requires j < |rows|
    ensures LossesOfRows(names, rows[..j + 1]) == LossesOfRows(names, rows[..j]) + [(FirstName(names, rows[j].manager), rows[j].losses)]
  {
    assert rows[..j + 1][..j] == rows[..j];
  }

  /** `most_points_all_time[manager] += points` */
  method AddPointsTo(ghost start: Dict<string, real>, ghost entries: seq<(string, real)>, mostPoints: Dict<string, real>, manager: string, points: real)
    returns (mostPoints': Dict<string, real>)
    requires mostPoints == Accumulate(start, entries, 0.0, AddReal)
    ensures mostPoints' == Accumulate(start, entries + [(manager, points)], 0.0, AddReal)
  {
    PointsSnoc(start, entries, entries + [(manager, points)], manager, points);
    mostPoints' := mostPoints.Put(manager, mostPoints.Get(manager, 0.0) + points);
  }

  /** `tally[manager] += count` */
  method AddCountTo(ghost start: Dict<string, int>, ghost entries: seq<(string, int)>, tally: Dict<string, int>, manager: string, count: int)
    returns (tally': Dict<string, int>)
    requires tally == Accumulate(start, entries, 0, AddInt)
    ensures tally' == Accumulate(start, entries + [(manager, count)], 0, AddInt)
  {
    CountSnoc(start, entries, entries + [(manager, count)], manager, count);
    tally' := tally.Put(manager, tally.Get(manager, 0) + count);
  }

  /** Row `j` becomes a season record when at least one of its games was decided. */
  method AddRowRecord(names: map<string, string>, year: int, rows: seq<StandingsRow>, j: nat,
    ghost start: seq<SeasonRecord>, records: seq<SeasonRecord>)
    returns (records': seq<SeasonRecord>)
    requires j < |rows|
    requires records == start + RecordsOf(names, year, rows[..j])
    ensures records' == start + RecordsOf(names, year, rows[..j + 1])
  {
    var team := rows[j];
    RecordsOfStep(names, year, rows, j);
    if team.wins + team.losses > 0 {
      records' := records + [SeasonRecord(team.wins, team.losses, FirstName(names, team.manager), year)];
    } else {
      records' := records;
    }
  }

  /** Row `j` adds the manager's season points to the all-time points. */
  method AddRowPoints(names: map<string, string>, seasonTotals: Dict<(int, string), real>, year: int, rows: seq<StandingsRow>, j: nat,
    ghost start: Dict<string, real>, mostPoints: Dict<string, real>)
    returns (mostPoints': Dict<string, real>)
    requires j < |rows|
    requires mostPoints == Accumulate(start, PointsOfRows(names, seasonTotals, year, rows[..j]), 0.0, AddReal)
    ensures mostPoints' == Accumulate(start, PointsOfRows(names, seasonTotals, year, rows[..j + 1]), 0.0, AddReal)
  {
    var manager := FirstName(names, rows[j].manager);
    PointsOfRowsStep(names, seasonTotals, year, rows, j);
    mostPoints' := AddPointsTo(start, PointsOfRows(names, seasonTotals, year, rows[..j]), mostPoints,
      manager, seasonTotals.Get((year, manager), 0.0));
  }

  /** Row `j` adds the manager's wins to the all-time wins. */
  method AddRowWins(names: map<string, string>, rows: seq<StandingsRow>, j: nat, ghost start: Dict<string, int>, totalWins: Dict<string, int>)
    returns (totalWins': Dict<string, int>)
    requires j < |rows|
    requires totalWins == Accumulate(start, WinsOfRows(names, rows[..j]), 0, AddInt)
    ensures totalWins' == Accumulate(start, WinsOfRows(names, rows[..j + 1]), 0, AddInt)
  {
    WinsOfRowsStep(names, rows, j);
    totalWins' := AddCountTo(start, WinsOfRows(names, rows[..j]), totalWins, FirstName(names, rows[j].manager), rows[j].wins);
  }

  /** Row `j` adds the manager's losses to the all-time losses. */
  method AddRowLosses(names: map<string, string>, rows: seq<StandingsRow>, j: nat, ghost start: Dict<string, int>, totalLosses: Dict<string, int>)
    returns (totalLosses': Dict<string, int>)
    requires j < |rows|
    requires totalLosses == Accumulate(start, LossesOfRows(names, rows[..j]), 0, AddInt)
    ensures totalLosses' == Accumulate(start, LossesOfRows(names, rows[..j + 1]), 0, AddInt)
  {
    LossesOfRowsStep(names, rows, j);
    totalLosses' := AddCountTo(start, LossesOfRows(names, rows[..j]), totalLosses, FirstName(names, rows[j].manager), rows[j].losses);
  }

  /**
   * The standings loop of one season: a decided row becomes a season
   * record, and every row adds the manager's matchup-based season points,
   * wins and losses to the all-time tallies.
   */
  method CollectStandings(names: map<string, string>, 
    seasonTotals: Dict<(int, string), real>, year: int, rows: seq<StandingsRow>,
    records: seq<SeasonRecord>, mostPoints: Dict<string, real>, totalWins: Dict<string, int>, totalLosses: Dict<string, int>)
    returns (records': seq<SeasonRecord>, mostPoints': Dict<string, real>, totalWins': Dict<string, int>, totalLosses': Dict<string, int>)
    ensures records' == records + RecordsOf(names, year, rows)
    ensures mostPoints' == Accumulate(mostPoints, PointsOfRows(names, seasonTotals, year, rows), 0.0, AddReal)
    ensures totalWins' == Accumulate(totalWins, WinsOfRows(names, rows), 0, AddInt)
    ensures totalLosses' == Accumulate(totalLosses, LossesOfRows(names, rows), 0, AddInt)
  {
    records', mostPoints', totalWins', totalLosses' := records, mostPoints, totalWins, totalLosses;
    var j := 0;
    while j < |rows|
      invariant 0 <= j <= |rows|
      invariant records' == records + RecordsOf(names, year, rows[..j])
      invariant mostPoints' == Accumulate(mostPoints, PointsOfRows(names, seasonTotals, year, rows[..j]), 0.0, AddReal)
      invariant totalWins' == Accumulate(totalWins, WinsOfRows(names, rows[..j]), 0, AddInt)
      invariant totalLosses' == Accumulate(totalLosses, LossesOfRows(names, rows[..j]), 0, AddInt)
    {
      records' := AddRowRecord(names, year, rows, j, records, records');
      mostPoints' := AddRowPoints(names, seasonTotals, year, rows, j, mostPoints, mostPoints');
      totalWins' := AddRowWins(names, rows, j, totalWins, totalWins');
      totalLosses' := AddRowLosses(names, rows, j, totalLosses, totalLosses');
      j := j + 1;
    }
    assert rows[..j] == rows;
  }

  /** The loop over `season_totals.items()` that keeps the positive totals. */
  method CollectSeasonTotals(d: Dict<(int, string), real>) returns (totals: seq<SeasonTotal>)
    ensures totals == SeasonTotalEntries(d)
  {
    totals := [];
    var i := 0;
    while i < |d.keys|
      invariant 0 <= i <= |d.keys|
      invariant totals == TotalsList(d.keys[..i], d)
    {
      assert d.keys[..i + 1][..i] == d.keys[..i];
      var key := d.keys[i];
      var points := d.Get(key, 0.0);
      if points > 0.0 {
        totals := totals + [SeasonTotal(points, key.1, key.0)];
      }
      i := i + 1;
    }
    assert d.keys[..i] == d.keys;
  }

  lemma CollectStep(names: map<string, string>, totals: Dict<(int, string), real>, league: seq<Season>, k: nat)
    requires k < |league|
    ensures Collect(names, totals, league[..k + 1]) == var c := Collect(names, totals, league[..k]); var s := league[k];
      Collected(
        c.singles + Singles(SidesOf(names, SeasonGamesOf(s))),
        c.records + RecordsOf(names, s.year, s.standings),
        Accumulate(c.mostPoints, PointsOfRows(names, totals, s.year, s.standings), 0.0, AddReal),
        Accumulate(c.totalWins, WinsOfRows(names, s.standings), 0, AddInt),
        Accumulate(c.totalLosses, LossesOfRows(names, s.standings), 0, AddInt))
  {
    assert league[..k + 1][..k] == league[..k];
  }

  /** `calculate_all_time_stats`: the season totals first, then each season's single games and standings. */
  method CalculateAllTimeStats(names: map<string, string>, league: seq<Season>) returns (stats: Stats)
    ensures stats == AllTimeStats(names, league)
  {
    var games := CollectLeagueGames(RegularSeasonCopy, league);
    var seasonTotals, totalGames := CalculateSeasonTotals(names, games);
    var singles: seq<Side> := [];
    var records: seq<SeasonRecord> := [];
    var mostPoints: Dict<string, real> := EmptyDict();
    var totalWins: Dict<string, int> := EmptyDict();
    var totalLosses: Dict<string, int> := EmptyDict();
    var k := 0;
    while k < |league|
      invariant 0 <= k <= |league|
      invariant Collected(singles, records, mostPoints, totalWins, totalLosses) == Collect(names, seasonTotals, league[..k])
    {
      CollectStep(names, seasonTotals, league, k);
      var s := league[k];
      var seasonGames := SeasonMatchups(RegularSeasonCopy, s);
      var seasonSingles := CollectSingles(names, Tagged(s.year, seasonGames));
      singles := singles + seasonSingles;
      records, mostPoints, totalWins, totalLosses :=
        CollectStandings(names, seasonTotals, s.year, s.standings, records, mostPoints, totalWins, totalLosses);
      k := k + 1;
    }
    assert league[..k] == league;
    var totalsList := CollectSeasonTotals(seasonTotals);
    stats := Stats(singles, totalsList, records, mostPoints, totalWins, totalLosses, seasonTotals, totalGames);
  }

  // ---------------------------------------------------------------------
  // generate_all_time_records
  // ---------------------------------------------------------------------

  /** One manager's all-time points per game. */
  datatype Average = Average(manager: string, average: real, games: int)

  function AveragesOf(keys: seq<string>, points: Dict<string, real>, totalGames: Dict<string, int>): seq<Average> {
    if keys == [] then []
    else
      var k := keys[|keys| - 1];
      var games := totalGames.Get(k, 0);
      AveragesOf(keys[..|keys| - 1], points, totalGames)
        + (if games > 0 then [Average(k, points.Get(k, 0.0) / games as real, games)] else [])
  }

  /** The averages loop over `most_points_all_time.items()`. */
  function Averages(mostPoints: Dict<string, real>, totalGames: Dict<string, int>): seq<Average> {
    AveragesOf(mostPoints.keys, mostPoints, totalGames)
  }

  lemma {:induction false} AveragesOfMeaning(keys: seq<string>, points: Dict<string, real>, totalGames: Dict<string, int>)
    ensures forall a :: a in AveragesOf(keys, points, totalGames) <==>
      a.manager in keys && a.games == totalGames.Get(a.manager, 0) && a.games > 0 && a.average == points.Get(a.manager, 0.0) / a.games as real
  {
    if keys != [] {
      var p := keys[..|keys| - 1];
      AveragesOfMeaning(p, points, totalGames);
      assert keys == p + [keys[|keys| - 1]];
    }
  }

  /**
   * A manager has an average exactly when they have all-time points and a
   * positive number of games, and it is their points divided by their games.
   */
  lemma AveragesMeaning(mostPoints: Dict<string, real>, totalGames: Dict<string, int>)
    requires mostPoints.Valid()
    ensures forall a :: a in Averages(mostPoints, totalGames) <==>
      && a.manager in mostPoints.entries && a.games == totalGames.Get(a.manager, 0) && a.games > 0
      && a.average == mostPoints.entries[a.manager] / a.games as real
  {
    KeysPresent(mostPoints);
    AveragesOfMeaning(mostPoints.keys, mostPoints, totalGames);
    forall k ensures k in mostPoints.keys <==> k in mostPoints.entries {
      assert k in mostPoints.keys <==> k in (set x | x in mostPoints.keys);
    }
  }

  method ComputeAverages(mostPoints: Dict<string, real>, totalGames: Dict<string, int>) returns (averages: seq<Average>)
    ensures averages == Averages(mostPoints, totalGames)
  {
    averages := [];
    var i := 0;
    while i < |mostPoints.keys|
      invariant 0 <= i <= |mostPoints.keys|
      invariant averages == AveragesOf(mostPoints.keys[..i], mostPoints, totalGames)
    {
      assert mostPoints.keys[..i + 1][..i] == mostPoints.keys[..i];
      var manager := mostPoints.keys[i];
      var totalPoints := mostPoints.Get(manager, 0.0);
      var games := totalGames.Get(manager, 0);
      if games > 0 {
        averages := averages + [Average(manager, totalPoints / games as real, games)];
      }
      i := i + 1;
    }
    assert mostPoints.keys[..i] == mostPoints.keys;
  }

  /** An entry of a top-5 list with its 1-based rank. */
  datatype Ranked<T> = Ranked(rank: nat, entry: T)

  /** `enumerate(s, 1)` */
  function Ranks<T>(s: seq<T>): (r: seq<Ranked<T>>)
    ensures |r| == |s| && forall i :: 0 <= i < |s| ==> r[i] == Ranked(i + 1, s[i])
  {
    if s == [] then [] else Ranks(s[..|s| - 1]) + [Ranked(|s|, s[|s| - 1])]
  }

  /** The first five of the stably sorted list, ranked. */
  function TopFive<T(!new)>(s: seq<T>, before: (T, T) -> bool): seq<Ranked<T>> {
    var sorted := SortBy(s, before);
    Ranks(sorted[..Min(5, |sorted|)])
  }

  /** The entries of a ranked list, without their ranks. */
  function Entries<T>(top: seq<Ranked<T>>): seq<T> {
    MapSeq(top, (x: Ranked<T>) => x.entry)
  }

  /** Dropping the ranks of a ranked list gives the list back. */
  lemma EntriesOfRanks<T>(s: seq<T>)
    ensures Entries(Ranks(s)) == s
  {
  }

  predicate IsRanked<T(==)>(top: seq<Ranked<T>>, x: T) {
    exists i :: 0 <= i < |top| && top[i].entry == x
  }

  /**
   * A top-5 list of `all`: min(5, |all|) entries of `all`, distinct
   * positions of it (as a multiset, no entry listed more often than it
   * occurs), ranked 1..k, no entry strictly after one it comes before, and
   * nothing left out strictly better than anything ranked.
   */
  ghost predicate TopOf<T(!new)>(top: seq<Ranked<T>>, all: seq<T>, before: (T, T) -> bool) {
    && |top| == Min(5, |all|)
    && multiset(Entries(top)) <= multiset(all)
    && (forall i :: 0 <= i < |top| ==> top[i].rank == i + 1 && top[i].entry in all)
    && (forall i, j :: 0 <= i < j < |top| ==> !before(top[j].entry, top[i].entry))
    && (forall x :: x in all && !IsRanked(top, x) ==> forall i :: 0 <= i < |top| ==> !before(x, top[i].entry))
  }

  lemma TopFiveSound<T(!new)>(s: seq<T>, before: (T, T) -> bool)
    requires StrictOrder(before)
    ensures TopOf(TopFive(s, before), s, before)
  {
    var sorted := SortBy(s, before);
    SortByIsSorted(s, before);
    var k := Min(5, |sorted|);
    var top := TopFive(s, before);
    EntriesOfRanks(sorted[..k]);
    PrefixMultiset(sorted, k);
    forall i | 0 <= i < |top| ensures top[i].rank == i + 1 && top[i].entry in s {
      assert top[i].entry == sorted[i];
      assert sorted[i] in multiset(sorted);
    }
    forall x | x in s && !IsRanked(top, x) ensures forall i :: 0 <= i < |top| ==> !before(x, top[i].entry) {
      assert x in multiset(sorted);
      var j :| 0 <= j < |sorted| && sorted[j] == x;
      assert forall i :: 0 <= i < k ==> sorted[i] != x by {
        forall i | 0 <= i < k ensures sorted[i] != x {
          assert top[i].entry == sorted[i];
        }
      }
      forall i | 0 <= i < |top| ensures !before(x, top[i].entry) {
        assert top[i].entry == sorted[i];
      }
    }
  }

  /** `key=lambda x: x['score'], reverse=True` */
  function ScoreBefore(a: Side, b: Side): bool { a.score > b.score }

  /** `key=lambda x: x['points'], reverse=True` */
  function PointsBefore(a: SeasonTotal, b: SeasonTotal): bool { a.points > b.points }

  /** `wins / (wins + losses)`, or 0 for a record with no games. */
  function WinPct(r: SeasonRecord): real {
    if r.wins + r.losses > 0 then r.wins as real / (r.wins + r.losses) as real else 0.0
  }

  /** `record_sort_key` ascending: the key `(-win_pct, -wins)` compared as a tuple. */
  function RecordBefore(a: SeasonRecord, b: SeasonRecord): bool {
    -WinPct(a) < -WinPct(b) || (-WinPct(a) == -WinPct(b) && -a.wins < -b.wins)
  }

  /** `key=lambda x: x['average'], reverse=True` */
  function AverageBefore(a: Average, b: Average): bool { a.average > b.average }

  lemma RecordOrders()
    ensures StrictOrder(ScoreBefore) && StrictOrder(PointsBefore)
    ensures StrictOrder(RecordBefore) && StrictOrder(AverageBefore)
  {
  }

  /** One entry of the records list: the category and its top five. */
  datatype Category =
    | HighestSingleGameScore(games: seq<Ranked<Side>>)
    | MostPointsInSeason(seasons: seq<Ranked<SeasonTotal>>)
    | BestRegularSeasonRecord(records: seq<Ranked<SeasonRecord>>)
    | HighestAveragePointsPerGame(averages: seq<Ranked<Average>>)

  /** The highest-single-game-score block: present when there are single games. */
  function SingleGameBlock(stats: Stats): seq<Category> {
    if stats.singleGames != [] then [HighestSingleGameScore(TopFive(stats.singleGames, ScoreBefore))] else []
  }

  /** The most-points-in-a-season block: present when there are season totals. */
  function SeasonPointsBlock(stats: Stats): seq<Category> {
    if stats.seasonTotalsList != [] then [MostPointsInSeason(TopFive(stats.seasonTotalsList, PointsBefore))] else []
  }

  /** The best-regular-season-record block: present when there are season records. */
  function SeasonRecordBlock(stats: Stats): seq<Category> {
    if stats.seasonRecords != [] then [BestRegularSeasonRecord(TopFive(stats.seasonRecords, RecordBefore))] else []
  }

  /** The highest-average block: present when both tallies are non-empty and some average exists. */
  function AverageBlock(stats: Stats): seq<Category> {
    var averages := Averages(stats.mostPoints, stats.totalGames);
    if stats.mostPoints.entries != map[] && stats.totalGames.entries != map[] && averages != []
    then [HighestAveragePointsPerGame(TopFive(averages, AverageBefore))] else []
  }

  /** `generate_all_time_records`, each category present only when its list is non-empty. */
  function AllTimeRecords(stats: Stats): seq<Category> {
    SingleGameBlock(stats) + SeasonPointsBlock(stats) + SeasonRecordBlock(stats) + AverageBlock(stats)
  }

  /** Averages exist only when both tallies are non-empty, so the guard on the dictionaries changes nothing. */
  lemma AveragesNeedTallies(mostPoints: Dict<string, real>, totalGames: Dict<string, int>)
    requires mostPoints.Valid()
    ensures Averages(mostPoints, totalGames) != [] ==> mostPoints.entries != map[] && totalGames.entries != map[]
  {
    var averages := Averages(mostPoints, totalGames);
    if averages != [] {
      AveragesMeaning(mostPoints, totalGames);
      var a := averages[0];
      assert a in averages;
      assert a.manager in mostPoints.entries;
      assert a.manager in totalGames.entries;
    }
  }

  /** Each block holds at most one entry, of its own category, and is present exactly when its list is non-empty. */
  lemma BlockShapes(stats: Stats)
    requires stats.mostPoints.Valid()
    ensures forall c :: c in SingleGameBlock(stats) ==> c.HighestSingleGameScore?
    ensures forall c :: c in SeasonPointsBlock(stats) ==> c.MostPointsInSeason?
    ensures forall c :: c in SeasonRecordBlock(stats) ==> c.BestRegularSeasonRecord?
    ensures forall c :: c in AverageBlock(stats) ==> c.HighestAveragePointsPerGame?
    ensures SingleGameBlock(stats) != [] <==> stats.singleGames != []
    ensures SeasonPointsBlock(stats) != [] <==> stats.seasonTotalsList != []
    ensures SeasonRecordBlock(stats) != [] <==> stats.seasonRecords != []
    ensures AverageBlock(stats) != [] <==> Averages(stats.mostPoints, stats.totalGames) != []
  {
    AveragesNeedTallies(stats.mostPoints, stats.totalGames);
  }

  /** The single-game block ranks the single games. */
  lemma SingleGameBlockSound(stats: Stats)
    ensures forall c :: c in SingleGameBlock(stats) ==> c.HighestSingleGameScore? && TopOf(c.games, stats.singleGames, ScoreBefore)
  {
    RecordOrders();
    TopFiveSound(stats.singleGames, ScoreBefore);
  }

  /** The season-points block ranks the season totals. */
  lemma SeasonPointsBlockSound(stats: Stats)
    ensures forall c :: c in SeasonPointsBlock(stats) ==> c.MostPointsInSeason? && TopOf(c.seasons, stats.seasonTotalsList, PointsBefore)
  {
    RecordOrders();
    TopFiveSound(stats.seasonTotalsList, PointsBefore);
  }

  /** The season-record block ranks the season records. */
  lemma SeasonRecordBlockSound(stats: Stats)
    ensures forall c :: c in SeasonRecordBlock(stats) ==> c.BestRegularSeasonRecord? && TopOf(c.records, stats.seasonRecords, RecordBefore)
  {
    RecordOrders();
    TopFiveSound(stats.seasonRecords, RecordBefore);
  }

  /** The average block ranks the averages. */
  lemma AverageBlockSound(stats: Stats)
    ensures forall c :: c in AverageBlock(stats) ==>
      c.HighestAveragePointsPerGame? && TopOf(c.averages, Averages(stats.mostPoints, stats.totalGames), AverageBefore)
  {
    RecordOrders();
    TopFiveSound(Averages(stats.mostPoints, stats.totalGames), AverageBefore);
  }

  /** Membership in the records list is membership in one of its blocks. */
  lemma InRecords(stats: Stats, c: Category)
    ensures c in AllTimeRecords(stats) <==>
      c in SingleGameBlock(stats) || c in SeasonPointsBlock(stats) || c in SeasonRecordBlock(stats) || c in AverageBlock(stats)
  {
  }

  /** The single-game category, when listed, ranks the single games; it is listed exactly when there are some. */
  lemma SingleGameListed(stats: Stats)
    requires stats.mostPoints.Valid()
    ensures forall c :: c in AllTimeRecords(stats) && c.HighestSingleGameScore? ==> TopOf(c.games, stats.singleGames, ScoreBefore)
    ensures (exists c :: c in AllTimeRecords(stats) && c.HighestSingleGameScore?) <==> stats.singleGames != []
  {
    BlockShapes(stats);
    SingleGameBlockSound(stats);
    forall c | c in AllTimeRecords(stats) && c.HighestSingleGameScore? ensures c in SingleGameBlock(stats) {
      InRecords(stats, c);
    }
    if stats.singleGames != [] {
      assert SingleGameBlock(stats)[0] in SingleGameBlock(stats);
      InRecords(stats, SingleGameBlock(stats)[0]);
    }
  }

  /** The season-points category, when listed, ranks the season totals; it is listed exactly when there are some. */
  lemma SeasonPointsListed(stats: Stats)
    requires stats.mostPoints.Valid()
    ensures forall c :: c in AllTimeRecords(stats) && c.MostPointsInSeason? ==> TopOf(c.seasons, stats.seasonTotalsList, PointsBefore)
    ensures (exists c :: c in AllTimeRecords(stats) && c.MostPointsInSeason?) <==> stats.seasonTotalsList != []
  {
    BlockShapes(stats);
    SeasonPointsBlockSound(stats);
    forall c | c in AllTimeRecords(stats) && c.MostPointsInSeason? ensures c in SeasonPointsBlock(stats) {
      InRecords(stats, c);
    }
    if stats.seasonTotalsList != [] {
      assert SeasonPointsBlock(stats)[0] in SeasonPointsBlock(stats);
      InRecords(stats, SeasonPointsBlock(stats)[0]);
    }
  }

  /** The season-record category, when listed, ranks the season records; it is listed exactly when there are some. */
  lemma SeasonRecordListed(stats: Stats)
    requires stats.mostPoints.Valid()
    ensures forall c :: c in AllTimeRecords(stats) && c.BestRegularSeasonRecord? ==> TopOf(c.records, stats.seasonRecords, RecordBefore)
    ensures (exists c :: c in AllTimeRecords(stats) && c.BestRegularSeasonRecord?) <==> stats.seasonRecords != []
  {
    BlockShapes(stats);
    SeasonRecordBlockSound(stats);
    forall c | c in AllTimeRecords(stats) && c.BestRegularSeasonRecord? ensures c in SeasonRecordBlock(stats) {
      InRecords(stats, c);
    }
    if stats.seasonRecords != [] {
      assert SeasonRecordBlock(stats)[0] in SeasonRecordBlock(stats);
      InRecords(stats, SeasonRecordBlock(stats)[0]);
    }
  }

  /** The average category, when listed, ranks the averages; it is listed exactly when there are some. */
  lemma AverageListed(stats: Stats)
    requires stats.mostPoints.Valid()
    ensures forall c :: c in AllTimeRecords(stats) && c.HighestAveragePointsPerGame? ==> TopOf(c.averages, Averages(stats.mostPoints, stats.totalGames), AverageBefore)
    ensures (exists c :: c in AllTimeRecords(stats) && c.HighestAveragePointsPerGame?) <==> Averages(stats.mostPoints, stats.totalGames) != []
  {
    BlockShapes(stats);
    AverageBlockSound(stats);
    forall c | c in AllTimeRecords(stats) && c.HighestAveragePointsPerGame? ensures c in AverageBlock(stats) {
      InRecords(stats, c);
    }
    if Averages(stats.mostPoints, stats.totalGames) != [] {
      assert AverageBlock(stats)[0] in AverageBlock(stats);
      InRecords(stats, AverageBlock(stats)[0]);
    }
  }

  /**
   * Every category listed is a top-5 list of its statistics, and a category
   * is listed exactly when the list it ranks is non-empty.
   */
  lemma AllTimeRecordsSound(stats: Stats)
    requires stats.mostPoints.Valid()
    ensures forall c :: c in AllTimeRecords(stats) && c.HighestSingleGameScore? ==> TopOf(c.games, stats.singleGames, ScoreBefore)
    ensures forall c :: c in AllTimeRecords(stats) && c.MostPointsInSeason? ==> TopOf(c.seasons, stats.seasonTotalsList, PointsBefore)
    ensures forall c :: c in AllTimeRecords(stats) && c.BestRegularSeasonRecord? ==> TopOf(c.records, stats.seasonRecords, RecordBefore)
    ensures forall c :: c in AllTimeRecords(stats) && c.HighestAveragePointsPerGame? ==>
      TopOf(c.averages, Averages(stats.mostPoints, stats.totalGames), AverageBefore)
    ensures (exists c :: c in AllTimeRecords(stats) && c.HighestSingleGameScore?) <==> stats.singleGames != []
    ensures (exists c :: c in AllTimeRecords(stats) && c.MostPointsInSeason?) <==> stats.seasonTotalsList != []
    ensures (exists c :: c in AllTimeRecords(stats) && c.BestRegularSeasonRecord?) <==> stats.seasonRecords != []
    ensures (exists c :: c in AllTimeRecords(stats) && c.HighestAveragePointsPerGame?) <==> Averages(stats.mostPoints, stats.totalGames) != []
  {
    SingleGameListed(stats);
    SeasonPointsListed(stats);
    SeasonRecordListed(stats);
    AverageListed(stats);
  }

  /** The four category blocks of `generate_all_time_records`. */
  method BuildRecords(stats: Stats) returns (records: seq<Category>)
    ensures records == AllTimeRecords(stats)
  {
    records := [];
    if stats.singleGames != [] {
      records := records + [HighestSingleGameScore(TopFive(stats.singleGames, ScoreBefore))];
    }
    assert records == SingleGameBlock(stats);
    if stats.seasonTotalsList != [] {
      records := records + [MostPointsInSeason(TopFive(stats.seasonTotalsList, PointsBefore))];
    }
    assert records == SingleGameBlock(stats) + SeasonPointsBlock(stats);
    if stats.seasonRecords != [] {
      records := records + [BestRegularSeasonRecord(TopFive(stats.seasonRecords, RecordBefore))];
    }
    assert records == SingleGameBlock(stats) + SeasonPointsBlock(stats) + SeasonRecordBlock(stats);
    ghost var before := records;
    if stats.mostPoints.entries != map[] && stats.totalGames.entries != map[] {
      var averages := ComputeAverages(stats.mostPoints, stats.totalGames);
      if averages != [] {
        records := records + [HighestAveragePointsPerGame(TopFive(averages, AverageBefore))];
      }
    }
    assert records == before + AverageBlock(stats);
  }

  /** `generate_all_time_records` over a league's seasons. */
  method GenerateAllTimeRecords(names: map<string, string>, league: seq<Season>) returns (records: seq<Category>)
    ensures records == AllTimeRecords(AllTimeStats(names, league))
  {
    var stats := CalculateAllTimeStats(names, league);
    records := BuildRecords(stats);
  }
}
