/**
 * scripts/calculate_power_rankings.py, `calculate_power_rankings`: the week
 * loop over one season's matchups. Each week's valid matchups update the
 * running win / loss / tie / points counters and the week's scores; the
 * cumulative all-play ("theoretical") record is recounted from all weeks so
 * far; every manager seen so far is ranked three ways, and the week's rows,
 * sorted by the sum of the three ranks, are appended to the result.
 */
module WeeklyRankings {
  import opened Core
  import opened Sorting
  import opened Matchups
  import opened Reconcile
  import opened League
  import opened PowerRankings

  // ---------------------------------------------------------------------
  // The running counters (lines 159-162)
  // ---------------------------------------------------------------------

  /** A `defaultdict(int)` read: a manager not yet counted has 0. */
  function Tally(m: map<string, int>, x: string): int {
    if x in m then m[x] else 0
  }

  /** A `defaultdict(float)` read. */
  function PointsOf(m: map<string, real>, x: string): real {
    if x in m then m[x] else 0.0
  }

  /** `d[x] += 1` */
  function Bump(m: map<string, int>, x: string): (r: map<string, int>)
    ensures r.Keys == m.Keys + {x}
    ensures Tally(r, x) == Tally(m, x) + 1
    ensures forall y :: y != x ==> Tally(r, y) == Tally(m, y)
  {
    m[x := Tally(m, x) + 1]
  }

  /** `d[x] += v` */
  function AddPoints(m: map<string, real>, x: string, v: real): (r: map<string, real>)
    ensures r.Keys == m.Keys + {x}
    ensures PointsOf(r, x) == PointsOf(m, x) + v
    ensures forall y :: y != x ==> PointsOf(r, y) == PointsOf(m, y)
  {
    m[x := PointsOf(m, x) + v]
  }

  /** `wins`, `losses`, `ties` and `total_points`, keyed by first name. */
  datatype Standing = Standing(wins: map<string, int>, losses: map<string, int>, ties: map<string, int>, totalPoints: map<string, real>)

  const NoGames := Standing(map[], map[], map[], map[])

  // ---------------------------------------------------------------------
  // The matchup loop of one week (lines 177-213)
  // ---------------------------------------------------------------------

  /** The running counters and `weekly_scores[week]` during the matchup loop. */
  datatype WeekPass = WeekPass(standing: Standing, scores: Dict<string, real>)

  /** The record update of one game between `home` and `away`, after both point totals are raised. */
  function Record(st: Standing, m: Matchup, home: string, away: string): Standing {
    var points := AddPoints(AddPoints(st.totalPoints, home, m.homeScore), away, m.awayScore);
    if IsTie(m) then Standing(st.wins, st.losses, Bump(Bump(st.ties, home), away), points)
    else if HasWinner(m) then
      if m.winnerId == m.homeId then Standing(Bump(st.wins, home), Bump(st.losses, away), st.ties, points)
      else Standing(Bump(st.wins, away), Bump(st.losses, home), st.ties, points)
    else Standing(st.wins, st.losses, st.ties, points)
  }

  /** One pass of the matchup loop: a game without two named managers is skipped. */
  function PlayGame(names: map<string, string>, p: WeekPass, m: Matchup): WeekPass {
    if !NamedManagers(m) then p
    else
      var home, away := FirstName(names, m.homeManager), FirstName(names, m.awayManager);
      WeekPass(Record(p.standing, m, home, away), p.scores.Put(home, m.homeScore).Put(away, m.awayScore))
  }

  /** The matchup loop over `ms`. */
  function PlayGames(names: map<string, string>, p: WeekPass, ms: seq<Matchup>): WeekPass {
    if ms == [] then p else PlayGame(names, PlayGames(names, p, ms[..|ms| - 1]), ms[|ms| - 1])
  }

  /**
   * A game between two different named managers adds each side's score to
   * its manager's points; a positive-score tie adds a tie to both; otherwise
   * a game with a winner adds one win to the winner's manager and one loss
   * to the other (the home side wins iff `winner_id` is the home team's id);
   * a game with neither changes no record. Nobody else is touched.
   */
  lemma GameCounters(names: map<string, string>, p: WeekPass, m: Matchup)
    requires NamedManagers(m)
    requires FirstName(names, m.homeManager) != FirstName(names, m.awayManager)
    ensures var home, away, st, st' := FirstName(names, m.homeManager), FirstName(names, m.awayManager), p.standing, PlayGame(names, p, m).standing;
      && PointsOf(st'.totalPoints, home) == PointsOf(st.totalPoints, home) + m.homeScore
      && PointsOf(st'.totalPoints, away) == PointsOf(st.totalPoints, away) + m.awayScore
      && (forall x :: x != home && x != away ==> PointsOf(st'.totalPoints, x) == PointsOf(st.totalPoints, x))
      && (IsTie(m) ==>
            && Tally(st'.ties, home) == Tally(st.ties, home) + 1 && Tally(st'.ties, away) == Tally(st.ties, away) + 1
            && (forall x :: x != home && x != away ==> Tally(st'.ties, x) == Tally(st.ties, x))
            && st'.wins == st.wins && st'.losses == st.losses)
      && (!IsTie(m) && HasWinner(m) ==>
            var winner, loser := if m.winnerId == m.homeId then home else away, if m.winnerId == m.homeId then away else home;
            && Tally(st'.wins, winner) == Tally(st.wins, winner) + 1 && Tally(st'.losses, loser) == Tally(st.losses, loser) + 1
            && (forall x :: x != winner ==> Tally(st'.wins, x) == Tally(st.wins, x))
            && (forall x :: x != loser ==> Tally(st'.losses, x) == Tally(st.losses, x))
            && st'.ties == st.ties)
      && (!IsTie(m) && !HasWinner(m) ==> st'.wins == st.wins && st'.losses == st.losses && st'.ties == st.ties)
    ensures var home, away := FirstName(names, m.homeManager), FirstName(names, m.awayManager);
      PlayGame(names, p, m).scores == p.scores.Put(home, m.homeScore).Put(away, m.awayScore)
  {
  }

  /** A game whose managers lack a name changes nothing. */
  lemma UnnamedGameSkipped(names: map<string, string>, p: WeekPass, m: Matchup)
    requires !NamedManagers(m)
    ensures PlayGame(names, p, m) == p
  {
  }

  /** `b`'s win, loss and tie counts are at least `a`'s, manager by manager. */
  ghost predicate Dominates(b: Standing, a: Standing) {
    && (forall x :: Tally(b.wins, x) >= Tally(a.wins, x))
    && (forall x :: Tally(b.losses, x) >= Tally(a.losses, x))
    && (forall x :: Tally(b.ties, x) >= Tally(a.ties, x))
    && a.wins.Keys <= b.wins.Keys && a.losses.Keys <= b.losses.Keys && a.totalPoints.Keys <= b.totalPoints.Keys
  }

  lemma DominatesTransitive(c: Standing, b: Standing, a: Standing)
    requires Dominates(c, b) && Dominates(b, a)
    ensures Dominates(c, a)
  {
  }

  /** `d[x] += 1` never lowers a count and keeps every key. */
  lemma BumpGrows(m: map<string, int>, x: string)
    ensures forall y :: Tally(Bump(m, x), y) >= Tally(m, y)
    ensures m.Keys <= Bump(m, x).Keys
  {
  }

  /** One game's record update never lowers a count. */
  lemma RecordGrows(st: Standing, m: Matchup, home: string, away: string)
    ensures Dominates(Record(st, m, home, away), st)
  {
    var r := Record(st, m, home, away);
    if IsTie(m) {
      BumpGrows(st.ties, home);
      BumpGrows(Bump(st.ties, home), away);
      assert r == Standing(st.wins, st.losses, Bump(Bump(st.ties, home), away), r.totalPoints);
    } else if HasWinner(m) && m.winnerId == m.homeId {
      BumpGrows(st.wins, home);
      BumpGrows(st.losses, away);
      assert r == Standing(Bump(st.wins, home), Bump(st.losses, away), st.ties, r.totalPoints);
    } else if HasWinner(m) {
      BumpGrows(st.wins, away);
      BumpGrows(st.losses, home);
      assert r == Standing(Bump(st.wins, away), Bump(st.losses, home), st.ties, r.totalPoints);
    } else {
      assert r == Standing(st.wins, st.losses, st.ties, r.totalPoints);
    }
  }

  /** Counters that gain at most the two players of a game stay covered when both get a points total. */
  lemma CoveredAfter(st: Standing, r: Standing, home: string, away: string)
    requires PointsCoverRecords(st)
    requires r.totalPoints.Keys == st.totalPoints.Keys + {home} + {away}
    requires r.wins.Keys <= st.wins.Keys + {home} + {away} && r.losses.Keys <= st.losses.Keys + {home} + {away}
    requires r.ties.Keys <= st.ties.Keys + {home} + {away}
    ensures PointsCoverRecords(r)
  {
  }

  /** Both managers of a game get a points total, so the records stay covered. */
  lemma RecordCovers(st: Standing, m: Matchup, home: string, away: string)
    requires PointsCoverRecords(st)
    ensures PointsCoverRecords(Record(st, m, home, away))
  {
    var r := Record(st, m, home, away);
    if IsTie(m) {
      assert r.ties.Keys == st.ties.Keys + {home} + {away};
    } else if HasWinner(m) && m.winnerId == m.homeId {
      assert r.wins.Keys == st.wins.Keys + {home} && r.losses.Keys == st.losses.Keys + {away};
    } else if HasWinner(m) {
      assert r.wins.Keys == st.wins.Keys + {away} && r.losses.Keys == st.losses.Keys + {home};
    }
    CoveredAfter(st, r, home, away);
  }

  /** Across a list of games the counters never decrease, and a manager once counted stays counted. */
  lemma {:induction false} PlayGamesGrows(names: map<string, string>, p: WeekPass, ms: seq<Matchup>)
    ensures Dominates(PlayGames(names, p, ms).standing, p.standing)
    ensures PointsCoverRecords(p.standing) ==> PointsCoverRecords(PlayGames(names, p, ms).standing)
  {
    if ms != [] {
      PlayGamesGrows(names, p, ms[..|ms| - 1]);
      var q := PlayGames(names, p, ms[..|ms| - 1]);
      var m := ms[|ms| - 1];
      if NamedManagers(m) {
        RecordGrows(q.standing, m, FirstName(names, m.homeManager), FirstName(names, m.awayManager));
        if PointsCoverRecords(p.standing) {
          RecordCovers(q.standing, m, FirstName(names, m.homeManager), FirstName(names, m.awayManager));
        }
      }
      DominatesTransitive(PlayGame(names, q, m).standing, q.standing, p.standing);
    }
  }

  /** The scores keep their keys in step, as the week's dictionary. */
  lemma {:induction false} PlayGamesScoresValid(names: map<string, string>, p: WeekPass, ms: seq<Matchup>)
    requires p.scores.Valid()
    ensures PlayGames(names, p, ms).scores.Valid()
  {
    if ms != [] {
      PlayGamesScoresValid(names, p, ms[..|ms| - 1]);
      var q := PlayGames(names, p, ms[..|ms| - 1]);
      var m := ms[|ms| - 1];
      if NamedManagers(m) {
        var home, away := FirstName(names, m.homeManager), FirstName(names, m.awayManager);
        PutValid(q.scores, home, m.homeScore);
        PutValid(q.scores.Put(home, m.homeScore), away, m.awayScore);
      }
    }
  }

  /** Every manager who won or lost a game has a points total too. */
  predicate PointsCoverRecords(st: Standing) {
    st.wins.Keys <= st.totalPoints.Keys && st.losses.Keys <= st.totalPoints.Keys && st.ties.Keys <= st.totalPoints.Keys
  }

  /** The `for matchup in valid_matchups` loop. */
  method ProcessGames(names: map<string, string>, start: WeekPass, validMatchups: seq<Matchup>) returns (p: WeekPass)
    ensures p == PlayGames(names, start, validMatchups)
  {
    var wins, losses, ties, totalPoints := start.standing.wins, start.standing.losses, start.standing.ties, start.standing.totalPoints;
    var scores := start.scores;
    var i := 0;
    while i < |validMatchups|
      invariant 0 <= i <= |validMatchups|
      invariant WeekPass(Standing(wins, losses, ties, totalPoints), scores) == PlayGames(names, start, validMatchups[..i])
    {
      assert validMatchups[..i + 1][..i] == validMatchups[..i];
      var m := validMatchups[i];
      if m.homeManager != "" && m.awayManager != "" && !Contains(m.homeManager, "Team None") && !Contains(m.awayManager, "Team None") {
        var homeFirst := FirstName(names, m.homeManager);
        var awayFirst := FirstName(names, m.awayManager);
        scores := scores.Put(homeFirst, m.homeScore).Put(awayFirst, m.awayScore);
        totalPoints := AddPoints(totalPoints, homeFirst, m.homeScore);
        totalPoints := AddPoints(totalPoints, awayFirst, m.awayScore);
        var isTie := m.homeScore == m.awayScore && m.homeScore > 0.0;
        if isTie {
          ties := Bump(ties, homeFirst);
          ties := Bump(ties, awayFirst);
        } else if m.winnerId.Some? && m.winnerId.value != 0 {
          if m.winnerId == m.homeId {
            wins := Bump(wins, homeFirst);
            losses := Bump(losses, awayFirst);
          } else {
            wins := Bump(wins, awayFirst);
            losses := Bump(losses, homeFirst);
          }
        }
      }
      i := i + 1;
    }
    assert validMatchups[..i] == validMatchups;
    p := WeekPass(Standing(wins, losses, ties, totalPoints), scores);
  }

  // ---------------------------------------------------------------------
  // The cumulative all-play record (lines 235-254)
  // ---------------------------------------------------------------------

  /** How a manager's score compares with an opponent's. */
  datatype Outcome = Won | Lost | Drew

  function OutcomeOf(mine: real, theirs: real): Outcome {
    if mine > theirs then Won else if mine < theirs then Lost else Drew
  }

  /** The opponents among `opponents`, other than `x` itself, against whom `x`'s week score `d` has outcome `o`. */
  function AllPlayCount(d: Dict<string, real>, opponents: seq<string>, x: string, o: Outcome): nat {
    if opponents == [] then 0
    else
      var y := opponents[|opponents| - 1];
      AllPlayCount(d, opponents[..|opponents| - 1], x, o) + (if y != x && OutcomeOf(d.Get(x, 0.0), d.Get(y, 0.0)) == o then 1 else 0)
  }

  /** One week's all-play count of manager `x`: nothing if `x` did not play that week. */
  function WeekCount(d: Dict<string, real>, x: string, o: Outcome): nat {
    if x in d.keys then AllPlayCount(d, d.keys, x, o) else 0
  }

  /** `cum_theoretical_*[x]`: the week counts of weeks 1 to `week` that have scores. */
  function CumCount(weekly: map<int, Dict<string, real>>, week: int, x: string, o: Outcome): nat
    decreases week
  {
    if week < 1 then 0
    else CumCount(weekly, week - 1, x, o) + (if week in weekly then WeekCount(weekly[week], x, o) else 0)
  }

  /** Across any list of opponents, the three outcomes together count every opponent other than `x`. */
  lemma {:induction false} AllPlayPartition(d: Dict<string, real>, opponents: seq<string>, x: string)
    ensures AllPlayCount(d, opponents, x, Won) + AllPlayCount(d, opponents, x, Lost) + AllPlayCount(d, opponents, x, Drew)
      == |opponents| - multiset(opponents)[x]
  {
    if opponents != [] {
      var p := opponents[..|opponents| - 1];
      AllPlayPartition(d, p, x);
      assert opponents == p + [opponents[|opponents| - 1]];
    }
  }

  /** In a week `x` played, its all-play wins, losses and ties add up to the number of other managers that week. */
  lemma AllPlayAddsUp(d: Dict<string, real>, x: string)
    requires d.Valid() && x in d.keys
    ensures WeekCount(d, x, Won) + WeekCount(d, x, Lost) + WeekCount(d, x, Drew) == |d.keys| - 1
  {
    AllPlayPartition(d, d.keys, x);
    var i :| 0 <= i < |d.keys| && d.keys[i] == x;
    DistinctAt(d.keys, i);
  }

  /** The other managers `x` met in the all-play of weeks 1 to `week`, over the weeks `x` played. */
  function OpponentsMet(weekly: map<int, Dict<string, real>>, week: int, x: string): nat
    decreases week
  {
    if week < 1 then 0
    else OpponentsMet(weekly, week - 1, x) + (if week in weekly && x in weekly[week].keys then |weekly[week].keys| - 1 else 0)
  }

  /** Every week dictionary keeps its keys in step. */
  ghost predicate WeeklyValid(weekly: map<int, Dict<string, real>>) {
    forall w :: w in weekly ==> weekly[w].Valid()
  }

  /** Cumulatively too, all-play wins, losses and ties add up to the opponents met. */
  lemma {:induction false} CumAddsUp(weekly: map<int, Dict<string, real>>, week: int, x: string)
    requires WeeklyValid(weekly)
    ensures CumCount(weekly, week, x, Won) + CumCount(weekly, week, x, Lost) + CumCount(weekly, week, x, Drew) == OpponentsMet(weekly, week, x)
    decreases week
  {
    if week >= 1 {
      CumAddsUp(weekly, week - 1, x);
      if week in weekly && x in weekly[week].keys {
        AllPlayAddsUp(weekly[week], x);
      }
    }
  }

  /** Adding a week later than `week` leaves the counts up to `week` alone. */
  lemma {:induction false} CumCountLater(weekly: map<int, Dict<string, real>>, week: int, later: int, d: Dict<string, real>, x: string, o: Outcome)
    requires later > week
    ensures CumCount(weekly[later := d], week, x, o) == CumCount(weekly, week, x, o)
    decreases week
  {
    if week >= 1 {
      CumCountLater(weekly, week - 1, later, d, x, o);
    }
  }

  /** The all-play counts never decrease from one week to a later one. */
  lemma {:induction false} CumCountGrows(weekly: map<int, Dict<string, real>>, week: int, later: int, x: string, o: Outcome)
    requires week <= later
    ensures CumCount(weekly, week, x, o) <= CumCount(weekly, later, x, o)
    decreases later - week
  {
    if week < later {
      CumCountGrows(weekly, week, later - 1, x, o);
    }
  }

  /** `cum_theoretical_wins`, `cum_theoretical_losses` and `cum_theoretical_ties`. */
  datatype AllPlay = AllPlay(wins: map<string, int>, losses: map<string, int>, ties: map<string, int>)

  /** The counter of outcome `o` read for manager `x`. */
  function CountOf(t: AllPlay, x: string, o: Outcome): int {
    match o
    case Won => Tally(t.wins, x)
    case Lost => Tally(t.losses, x)
    case Drew => Tally(t.ties, x)
  }

  /** `cum_theoretical_<o>[x] += 1` */
  function AddOutcome(t: AllPlay, x: string, o: Outcome): (r: AllPlay)
    ensures forall y, o' :: CountOf(r, y, o') == CountOf(t, y, o') + (if y == x && o' == o then 1 else 0)
  {
    match o
    case Won => AllPlay(Bump(t.wins, x), t.losses, t.ties)
    case Lost => AllPlay(t.wins, Bump(t.losses, x), t.ties)
    case Drew => AllPlay(t.wins, t.losses, Bump(t.ties, x))
  }

  /** The innermost loop: manager `x` against every listed manager of week dictionary `d`. */
  method CountOpponents(d: Dict<string, real>, x: string, start: AllPlay) returns (t: AllPlay)
    ensures forall y, o :: CountOf(t, y, o) == CountOf(start, y, o) + (if y == x then AllPlayCount(d, d.keys, x, o) else 0)
  {
    t := start;
    var managerScore := d.Get(x, 0.0);
    var k := 0;
    assert d.keys[..0] == [];
    assert forall o :: AllPlayCount(d, d.keys[..0], x, o) == 0;
    while k < |d.keys|
      invariant 0 <= k <= |d.keys|
      invariant forall y, o :: CountOf(t, y, o) == CountOf(start, y, o) + (if y == x then AllPlayCount(d, d.keys[..k], x, o) else 0)
    {
      assert d.keys[..k + 1][..k] == d.keys[..k];
      var opponent := d.keys[k];
      if x != opponent {
        var opponentScore := d.Get(opponent, 0.0);
        if managerScore > opponentScore {
          t := AddOutcome(t, x, Won);
        } else if managerScore < opponentScore {
          t := AddOutcome(t, x, Lost);
        } else {
          t := AddOutcome(t, x, Drew);
        }
      }
      k := k + 1;
    }
    assert d.keys[..k] == d.keys;
  }

  /** The middle loop: every manager of week dictionary `d` against the others. */
  method CountWeek(d: Dict<string, real>, start: AllPlay) returns (t: AllPlay)
    requires d.Valid()
    ensures forall y, o :: CountOf(t, y, o) == CountOf(start, y, o) + WeekCount(d, y, o)
  {
    t := start;
    var k := 0;
    while k < |d.keys|
      invariant 0 <= k <= |d.keys|
      invariant forall y, o :: CountOf(t, y, o) == CountOf(start, y, o) + (if y in d.keys[..k] then AllPlayCount(d, d.keys, y, o) else 0)
    {
      var manager := d.keys[k];
      assert d.keys[..k + 1] == d.keys[..k] + [manager];
      assert manager !in d.keys[..k];
      t := CountOpponents(d, manager, t);
      k := k + 1;
    }
    assert d.keys[..k] == d.keys;
  }

  /** The outer loop, `for w in range(1, week + 1)`: the all-play counts of all weeks so far. */
  method CumulativeAllPlay(weekly: map<int, Dict<string, real>>, week: int) returns (t: AllPlay)
    requires WeeklyValid(weekly)
    ensures forall x, o :: CountOf(t, x, o) == CumCount(weekly, week, x, o)
  {
    t := AllPlay(map[], map[], map[]);
    var w := 1;
    while w < week + 1
      invariant if week >= 1 then 1 <= w <= week + 1 else w == 1
      invariant forall x, o :: CountOf(t, x, o) == CumCount(weekly, w - 1, x, o)
    {
      if w in weekly {
        t := CountWeek(weekly[w], t);
      }
      w := w + 1;
    }
    if week >= 1 {
      assert w - 1 == week;
    } else {
      forall x, o ensures CumCount(weekly, week, x, o) == CumCount(weekly, w - 1, x, o) {
      }
    }
  }

  // ---------------------------------------------------------------------
  // The week's rows (lines 256-311)
  // ---------------------------------------------------------------------

  /** One entry of `week_rankings`. */
  datatype Row = Row(
    week: int,
    manager: string,
    recordRank: real,
    pointsRank: real,
    breakdownRank: real,
    totalRank: real,
    wins: int,
    losses: int,
    ties: int,
    totalPoints: real,
    theoreticalWins: int,
    theoreticalLosses: int,
    theoreticalTies: int)

  /** `all_managers`: everyone with a win, a loss or a points total. */
  function Managers(st: Standing): set<string> {
    st.wins.Keys + st.losses.Keys + st.totalPoints.Keys
  }

  /** `record_values`, over the managers in the iteration order `order`. */
  function RecordValues(order: seq<string>, st: Standing): seq<Valued> {
    MapSeq(order, x => (Tally(st.wins, x) as real, x))
  }

  /** `points_values` */
  function PointsValues(order: seq<string>, st: Standing): seq<Valued> {
    MapSeq(order, x => (PointsOf(st.totalPoints, x), x))
  }

  /** `breakdown_values`: cumulative all-play wins up to `week`. */
  function BreakdownValues(order: seq<string>, weekly: map<int, Dict<string, real>>, week: int): seq<Valued> {
    MapSeq(order, x => (CumCount(weekly, week, x, Won) as real, x))
  }

  /** `ranks.get(manager, 1)` */
  function RankOr1(ranks: map<string, real>, x: string): real {
    if x in ranks then ranks[x] else 1.0
  }

  /** The row of manager `x`, given the three rank dictionaries. */
  function RowOf(week: int, x: string, st: Standing, weekly: map<int, Dict<string, real>>,
    recordRanks: map<string, real>, pointsRanks: map<string, real>, breakdownRanks: map<string, real>): Row
  {
    var r, p, b := RankOr1(recordRanks, x), RankOr1(pointsRanks, x), RankOr1(breakdownRanks, x);
    Row(week, x, r, p, b, r + p + b,
      Tally(st.wins, x), Tally(st.losses, x), Tally(st.ties, x), PointsOf(st.totalPoints, x),
      CumCount(weekly, week, x, Won), CumCount(weekly, week, x, Lost), CumCount(weekly, week, x, Drew))
  }

  /** `week_rankings` before the sort: one row per manager, in iteration order. */
  function WeekRows(week: int, order: seq<string>, st: Standing, weekly: map<int, Dict<string, real>>): seq<Row> {
    var n := |order|;
    var recordRanks := RankingOf(RecordValues(order, st), n);
    var pointsRanks := RankingOf(PointsValues(order, st), n);
    var breakdownRanks := RankingOf(BreakdownValues(order, weekly, week), n);
    MapSeq(order, x => RowOf(week, x, st, weekly, recordRanks, pointsRanks, breakdownRanks))
  }

  /** `key=lambda x: x['total_rank'], reverse=True` */
  function TotalBefore(a: Row, b: Row): bool {
    a.totalRank > b.totalRank
  }

  lemma TotalOrder()
    ensures StrictOrder(TotalBefore)
  {
  }

  /** `week_rankings` after `week_rankings.sort(...)`. */
  function RankedWeek(week: int, order: seq<string>, st: Standing, weekly: map<int, Dict<string, real>>): seq<Row> {
    SortBy(WeekRows(week, order, st, weekly), TotalBefore)
  }

  /** The `for manager in all_managers` loop that builds the rows. */
  method BuildRows(week: int, order: seq<string>, st: Standing, weekly: map<int, Dict<string, real>>, cum: AllPlay,
    recordRanks: map<string, real>, pointsRanks: map<string, real>, breakdownRanks: map<string, real>) returns (weekRankings: seq<Row>)
    requires forall x, o :: CountOf(cum, x, o) == CumCount(weekly, week, x, o)
    ensures weekRankings == MapSeq(order, x => RowOf(week, x, st, weekly, recordRanks, pointsRanks, breakdownRanks))
  {
    weekRankings := [];
    var i := 0;
    while i < |order|
      invariant 0 <= i <= |order|
      invariant weekRankings == MapSeq(order[..i], x => RowOf(week, x, st, weekly, recordRanks, pointsRanks, breakdownRanks))
    {
      MapSeqStep(order, i, x => RowOf(week, x, st, weekly, recordRanks, pointsRanks, breakdownRanks));
      var manager := order[i];
      var recordRank := RankOr1(recordRanks, manager);
      var pointsRank := RankOr1(pointsRanks, manager);
      var breakdownRank := RankOr1(breakdownRanks, manager);
      var totalRank := recordRank + pointsRank + breakdownRank;
      weekRankings := weekRankings + [Row(week, manager, recordRank, pointsRank, breakdownRank, totalRank,
        Tally(st.wins, manager), Tally(st.losses, manager), Tally(st.ties, manager), PointsOf(st.totalPoints, manager),
        CountOf(cum, manager, Won), CountOf(cum, manager, Lost), CountOf(cum, manager, Drew))];
      i := i + 1;
    }
    assert order[..i] == order;
  }

  /** The three rankings of the week and its sorted rows (lines 265-311). */
  method RankWeek(week: int, order: seq<string>, st: Standing, weekly: map<int, Dict<string, real>>, cum: AllPlay)
    returns (weekRankings: seq<Row>)
    requires forall x, o :: CountOf(cum, x, o) == CumCount(weekly, week, x, o)
    ensures weekRankings == RankedWeek(week, order, st, weekly)
  {
    var recordValues := MapSeq(order, x => (Tally(st.wins, x) as real, x));
    var numTeams := |order|;
    var recordRanks := RankWithTies(recordValues, numTeams);
    var pointsValues := MapSeq(order, x => (PointsOf(st.totalPoints, x), x));
    var pointsRanks := RankWithTies(pointsValues, numTeams);
    var breakdownValues := MapSeq(order, x => (CountOf(cum, x, Won) as real, x));
    assert breakdownValues == BreakdownValues(order, weekly, week);
    var breakdownRanks := RankWithTies(breakdownValues, numTeams);
    weekRankings := BuildRows(week, order, st, weekly, cum, recordRanks, pointsRanks, breakdownRanks);
    weekRankings := SortBy(weekRankings, TotalBefore);
  }

  // ---------------------------------------------------------------------
  // What a week's rows promise
  // ---------------------------------------------------------------------

  /** Each of the three ranks lies on the scale 1 to `n`, and the total is their sum. */
  ghost predicate WellRanked(r: Row, n: int) {
    && 1.0 <= r.recordRank <= n as real
    && 1.0 <= r.pointsRank <= n as real
    && 1.0 <= r.breakdownRank <= n as real
    && r.totalRank == r.recordRank + r.pointsRank + r.breakdownRank
  }

  /** The row reports the running counters after week `week` and the all-play counts up to it. */
  ghost predicate ReportsCounters(r: Row, week: int, st: Standing, weekly: map<int, Dict<string, real>>) {
    && r.week == week
    && r.wins == Tally(st.wins, r.manager) && r.losses == Tally(st.losses, r.manager) && r.ties == Tally(st.ties, r.manager)
    && r.totalPoints == PointsOf(st.totalPoints, r.manager)
    && r.theoreticalWins == CumCount(weekly, week, r.manager, Won)
    && r.theoreticalLosses == CumCount(weekly, week, r.manager, Lost)
    && r.theoreticalTies == CumCount(weekly, week, r.manager, Drew)
  }

  /** Each rank follows its counter: more is ranked strictly higher, equal is ranked the same. */
  ghost predicate RanksFollowCounters(a: Row, b: Row) {
    && (a.wins > b.wins ==> a.recordRank > b.recordRank) && (a.wins == b.wins ==> a.recordRank == b.recordRank)
    && (a.totalPoints > b.totalPoints ==> a.pointsRank > b.pointsRank) && (a.totalPoints == b.totalPoints ==> a.pointsRank == b.pointsRank)
    && (a.theoreticalWins > b.theoreticalWins ==> a.breakdownRank > b.breakdownRank)
    && (a.theoreticalWins == b.theoreticalWins ==> a.breakdownRank == b.breakdownRank)
  }

  /** The value lists name each manager of `order` at its own position. */
  lemma ValuesNamed(order: seq<string>, st: Standing, weekly: map<int, Dict<string, real>>, week: int)
    requires Distinct(order)
    ensures DistinctNames(RecordValues(order, st))
    ensures DistinctNames(PointsValues(order, st))
    ensures DistinctNames(BreakdownValues(order, weekly, week))
  {
  }

  /** The unsorted row of the manager at position `a`. */
  lemma WeekRowFacts(week: int, order: seq<string>, st: Standing, weekly: map<int, Dict<string, real>>, a: nat)
    requires Distinct(order) && a < |order|
    ensures var r := WeekRows(week, order, st, weekly)[a];
      r.manager == order[a] && WellRanked(r, |order|) && ReportsCounters(r, week, st, weekly)
  {
    ValuesNamed(order, st, weekly, week);
    RanksWithinScale(RecordValues(order, st), a);
    RanksWithinScale(PointsValues(order, st), a);
    RanksWithinScale(BreakdownValues(order, weekly, week), a);
  }

  /** A rank dictionary read with `.get(manager, 1)` follows the values it ranks. */
  lemma FollowValues(values: seq<Valued>, n: int, a: nat, b: nat)
    requires DistinctNames(values) && a < |values| && b < |values|
    ensures var ranks := RankingOf(values, n);
      && (values[a].0 > values[b].0 ==> RankOr1(ranks, values[a].1) > RankOr1(ranks, values[b].1))
      && (values[a].0 == values[b].0 ==> RankOr1(ranks, values[a].1) == RankOr1(ranks, values[b].1))
  {
    if values[a].0 > values[b].0 {
      HigherValueHigherRank(values, n, a, b);
    } else if values[a].0 == values[b].0 {
      TiesShareRank(values, n, a, b);
    }
  }

  /** The unsorted rows of the managers at positions `a` and `b`. */
  lemma WeekRowPair(week: int, order: seq<string>, st: Standing, weekly: map<int, Dict<string, real>>, a: nat, b: nat)
    requires Distinct(order) && a < |order| && b < |order|
    ensures RanksFollowCounters(WeekRows(week, order, st, weekly)[a], WeekRows(week, order, st, weekly)[b])
  {
    var n := |order|;
    ValuesNamed(order, st, weekly, week);
    FollowValues(RecordValues(order, st), n, a, b);
    FollowValues(PointsValues(order, st), n, a, b);
    FollowValues(BreakdownValues(order, weekly, week), n, a, b);
  }

  /** The sorted rows: non-increasing in total rank. */
  lemma RankedWeekSorted(week: int, order: seq<string>, st: Standing, weekly: map<int, Dict<string, real>>)
    ensures var rows := RankedWeek(week, order, st, weekly);
      forall i, j :: 0 <= i < j < |rows| ==> rows[i].totalRank >= rows[j].totalRank
  {
    TotalOrder();
    SortByIsSorted(WeekRows(week, order, st, weekly), TotalBefore);
  }

  /** Where a sorted row came from. */
  lemma Origin(week: int, order: seq<string>, st: Standing, weekly: map<int, Dict<string, real>>, i: nat) returns (a: nat)
    requires i < |RankedWeek(week, order, st, weekly)|
    ensures a < |order| && RankedWeek(week, order, st, weekly)[i] == WeekRows(week, order, st, weekly)[a]
  {
    var rows := RankedWeek(week, order, st, weekly);
    assert rows[i] in multiset(WeekRows(week, order, st, weekly));
    a :| 0 <= a < |WeekRows(week, order, st, weekly)| && WeekRows(week, order, st, weekly)[a] == rows[i];
  }

  /**
   * With `order` listing distinct managers, the week's sorted rows hold one
   * row per manager of `order`; every row reports that manager's counters,
   * ranks within 1 to `n` and totals its three ranks; and each rank follows
   * its counter across any two rows.
   */
  lemma RankedWeekRows(week: int, order: seq<string>, st: Standing, weekly: map<int, Dict<string, real>>)
    requires Distinct(order)
    ensures var rows := RankedWeek(week, order, st, weekly);
      && |rows| == |order|
      && (forall i :: 0 <= i < |rows| ==> rows[i].manager in order && WellRanked(rows[i], |order|) && ReportsCounters(rows[i], week, st, weekly))
      && (forall i, j :: 0 <= i < |rows| && 0 <= j < |rows| ==> RanksFollowCounters(rows[i], rows[j]))
  {
    var rows := RankedWeek(week, order, st, weekly);
    forall i | 0 <= i < |rows| ensures rows[i].manager in order && WellRanked(rows[i], |order|) && ReportsCounters(rows[i], week, st, weekly) {
      var a := Origin(week, order, st, weekly, i);
      WeekRowFacts(week, order, st, weekly, a);
    }
    forall i, j | 0 <= i < |rows| && 0 <= j < |rows| ensures RanksFollowCounters(rows[i], rows[j]) {
      var a := Origin(week, order, st, weekly, i);
      var b := Origin(week, order, st, weekly, j);
      WeekRowPair(week, order, st, weekly, a, b);
    }
  }

  /** The unsorted rows are those of `order`'s managers, position by position. */
  lemma WeekRowsManagers(week: int, order: seq<string>, st: Standing, weekly: map<int, Dict<string, real>>)
    ensures |WeekRows(week, order, st, weekly)| == |order|
    ensures forall a :: 0 <= a < |order| ==> WeekRows(week, order, st, weekly)[a].manager == order[a]
    ensures forall a :: 0 <= a < |order| ==> WeekRows(week, order, st, weekly)[a].week == week
  {
  }

  /** A permutation of rows that belong to `order`'s managers, position by position, keeps one row per manager. */
  lemma PermutedCovers(unsorted: seq<Row>, rows: seq<Row>, order: seq<string>)
    requires |unsorted| == |order| && forall a :: 0 <= a < |order| ==> unsorted[a].manager == order[a]
    requires multiset(rows) == multiset(unsorted)
    ensures forall x :: x in order ==> exists i :: 0 <= i < |rows| && rows[i].manager == x
  {
    forall x | x in order ensures exists i :: 0 <= i < |rows| && rows[i].manager == x {
      var a :| 0 <= a < |order| && order[a] == x;
      assert unsorted[a] in multiset(rows);
      var i :| 0 <= i < |rows| && rows[i] == unsorted[a];
    }
  }

  lemma PermutedDistinct(unsorted: seq<Row>, rows: seq<Row>, order: seq<string>, i: nat, j: nat)
    requires |unsorted| == |order| && forall a :: 0 <= a < |order| ==> unsorted[a].manager == order[a]
    requires multiset(rows) == multiset(unsorted) && Distinct(order) && i < j < |rows|
    ensures rows[i].manager != rows[j].manager
  {
    assert rows[i] in multiset(unsorted) && rows[j] in multiset(unsorted);
    var a :| 0 <= a < |unsorted| && unsorted[a] == rows[i];
    var b :| 0 <= b < |unsorted| && unsorted[b] == rows[j];
    if a == b {
      RemoveAt(rows, i, j, rows[i]);
      TwoPositions(unsorted, rows[i]);
    }
  }

  /** Every manager of `order` has a sorted row, and with `order` distinct only one. */
  lemma RankedWeekCovers(week: int, order: seq<string>, st: Standing, weekly: map<int, Dict<string, real>>)
    ensures var rows := RankedWeek(week, order, st, weekly);
      && (forall x :: x in order ==> exists i :: 0 <= i < |rows| && rows[i].manager == x)
      && (Distinct(order) ==> forall i, j :: 0 <= i < j < |rows| ==> rows[i].manager != rows[j].manager)
  {
    var unsorted := WeekRows(week, order, st, weekly);
    var rows := SortBy(unsorted, TotalBefore);
    assert rows == RankedWeek(week, order, st, weekly);
    WeekRowsManagers(week, order, st, weekly);
    assert multiset(rows) == multiset(unsorted);
    PermutedCovers(unsorted, rows, order);
    if Distinct(order) {
      forall i, j | 0 <= i < j < |rows| ensures rows[i].manager != rows[j].manager {
        PermutedDistinct(unsorted, rows, order, i, j);
      }
    }
  }

  /** Every sorted row is a row of week `week`. */
  lemma RankedWeekOfWeek(week: int, order: seq<string>, st: Standing, weekly: map<int, Dict<string, real>>)
    ensures forall r :: r in RankedWeek(week, order, st, weekly) ==> r.week == week
  {
    var unsorted := WeekRows(week, order, st, weekly);
    var rows := SortBy(unsorted, TotalBefore);
    assert rows == RankedWeek(week, order, st, weekly);
    WeekRowsManagers(week, order, st, weekly);
    PermutedWeek(unsorted, rows, week);
  }

  /** A permutation of rows of week `week` holds rows of that week only. */
  lemma PermutedWeek(unsorted: seq<Row>, rows: seq<Row>, week: int)
    requires forall a :: 0 <= a < |unsorted| ==> unsorted[a].week == week
    requires multiset(rows) == multiset(unsorted)
    ensures forall r :: r in rows ==> r.week == week
  {
    forall r | r in rows ensures r.week == week {
      assert r in multiset(unsorted);
      var a :| 0 <= a < |unsorted| && unsorted[a] == r;
    }
  }

  // ---------------------------------------------------------------------
  // The season loop (lines 148-313)
  // ---------------------------------------------------------------------

  /** The running counters, `weekly_scores` and `power_rankings` between weeks. */
  datatype SeasonState = SeasonState(standing: Standing, weekly: map<int, Dict<string, real>>, rankings: seq<Row>)

  const Start := SeasonState(NoGames, map[], [])

  /**
   * One week of the season loop. `enumerate` is Python's iteration order of
   * a set of names. `weekly_scores[week]` comes into being with the week's
   * first named game; each week is visited once, so it starts empty.
   */
  function WeekStep(names: map<string, string>, enumerate: set<string> -> seq<string>, byWeek: map<int, seq<Matchup>>,
    s: SeasonState, week: int): SeasonState
  {
    var weekMatchups := if week in byWeek then byWeek[week] else [];
    var p := PlayGames(names, WeekPass(s.standing, EmptyDict()), ValidRegularSeasonMatchups(weekMatchups, week));
    var weekly := if p.scores.keys != [] then s.weekly[week := p.scores] else s.weekly;
    SeasonState(p.standing, weekly, s.rankings + WeekReport(enumerate, week, p.standing, weekly))
  }

  /** The rows a week adds: none while no manager has been counted yet. */
  function WeekReport(enumerate: set<string> -> seq<string>, week: int, st: Standing, weekly: map<int, Dict<string, real>>): seq<Row> {
    var all := Managers(st);
    if all == {} then [] else RankedWeek(week, enumerate(all), st, weekly)
  }

  /** A week's report holds rows of that week only, by non-increasing total rank. */
  lemma WeekReportSorted(enumerate: set<string> -> seq<string>, week: int, st: Standing, weekly: map<int, Dict<string, real>>)
    ensures var rows := WeekReport(enumerate, week, st, weekly);
      && (forall r :: r in rows ==> r.week == week)
      && (forall i, j :: 0 <= i < j < |rows| ==> rows[i].totalRank >= rows[j].totalRank)
  {
    if Managers(st) != {} {
      RankedWeekOfWeek(week, enumerate(Managers(st)), st, weekly);
      RankedWeekSorted(week, enumerate(Managers(st)), st, weekly);
    }
  }

  /** `enumerate` lists every set it is given, each member once and nothing else. */
  ghost predicate ListsEachOnce(enumerate: set<string> -> seq<string>) {
    forall s: set<string> :: Distinct(enumerate(s)) && forall x :: x in enumerate(s) <==> x in s
  }

  /**
   * The rows report each manager counted in `st` exactly once, each row
   * ranked on the scale 1 to the number of managers, with the counters
   * after `week`, and each rank following its counter across any two rows.
   */
  ghost predicate OneRowPerManager(rows: seq<Row>, week: int, st: Standing, weekly: map<int, Dict<string, real>>) {
    && |rows| == |Managers(st)|
    && (forall x :: x in Managers(st) <==> exists i :: 0 <= i < |rows| && rows[i].manager == x)
    && (forall i, j :: 0 <= i < j < |rows| ==> rows[i].manager != rows[j].manager)
    && (forall i :: 0 <= i < |rows| ==> WellRanked(rows[i], |Managers(st)|) && ReportsCounters(rows[i], week, st, weekly))
    && (forall i, j :: 0 <= i < |rows| && 0 <= j < |rows| ==> RanksFollowCounters(rows[i], rows[j]))
  }

  /** Rows over an order listing the counted managers once each, one row per manager of the order. */
  lemma OneRowEachFrom(rows: seq<Row>, order: seq<string>, week: int, st: Standing, weekly: map<int, Dict<string, real>>)
    requires Distinct(order) && forall x :: x in order <==> x in Managers(st)
    requires |rows| == |order|
    requires forall i :: 0 <= i < |rows| ==> rows[i].manager in order && WellRanked(rows[i], |order|) && ReportsCounters(rows[i], week, st, weekly)
    requires forall i, j :: 0 <= i < |rows| && 0 <= j < |rows| ==> RanksFollowCounters(rows[i], rows[j])
    requires forall x :: x in order ==> exists i :: 0 <= i < |rows| && rows[i].manager == x
    requires forall i, j :: 0 <= i < j < |rows| ==> rows[i].manager != rows[j].manager
    ensures OneRowPerManager(rows, week, st, weekly)
  {
    assert (set x | x in order) == Managers(st);
    DistinctCard(order);
  }

  /** Sorted over an order that lists the counted managers once each, the rows hold one row per manager. */
  lemma RankedOneRowEach(week: int, order: seq<string>, st: Standing, weekly: map<int, Dict<string, real>>)
    requires Distinct(order) && forall x :: x in order <==> x in Managers(st)
    ensures OneRowPerManager(RankedWeek(week, order, st, weekly), week, st, weekly)
  {
    RankedWeekRows(week, order, st, weekly);
    RankedWeekCovers(week, order, st, weekly);
    OneRowEachFrom(RankedWeek(week, order, st, weekly), order, week, st, weekly);
  }

  /** Whatever order the set iteration takes, a week's report holds one row per counted manager. */
  lemma WeekReportRows(enumerate: set<string> -> seq<string>, week: int, st: Standing, weekly: map<int, Dict<string, real>>)
    requires ListsEachOnce(enumerate)
    ensures OneRowPerManager(WeekReport(enumerate, week, st, weekly), week, st, weekly)
  {
    var all := Managers(st);
    if all != {} {
      assert Distinct(enumerate(all)) && forall x :: x in enumerate(all) <==> x in all;
      RankedOneRowEach(week, enumerate(all), st, weekly);
    }
  }

  /** The season loop over the weeks `weeks`. */
  function RunWeeks(names: map<string, string>, enumerate: set<string> -> seq<string>, byWeek: map<int, seq<Matchup>>, weeks: seq<int>): SeasonState {
    if weeks == [] then Start
    else WeekStep(names, enumerate, byWeek, RunWeeks(names, enumerate, byWeek, weeks[..|weeks| - 1]), weeks[|weeks| - 1])
  }

  /** The loop after one more week is one more step of the loop before it. */
  lemma RunWeeksStep(names: map<string, string>, enumerate: set<string> -> seq<string>, byWeek: map<int, seq<Matchup>>, weeks: seq<int>, i: nat)
    requires i < |weeks|
    ensures RunWeeks(names, enumerate, byWeek, weeks[..i + 1]) == WeekStep(names, enumerate, byWeek, RunWeeks(names, enumerate, byWeek, weeks[..i]), weeks[i])
  {
    assert weeks[..i + 1][..i] == weeks[..i];
  }

  function Earlier(a: int, b: int): bool {
    a < b
  }

  /** `sorted(matchups_by_week.keys())` */
  function SortedWeeks(ms: seq<Matchup>): seq<int> {
    SortBy(ByWeek(ms).keys, Earlier)
  }

  /** What `calculate_power_rankings` returns for a season's matchups. */
  function PowerRankingsOf(names: map<string, string>, enumerate: set<string> -> seq<string>, ms: seq<Matchup>): seq<Row> {
    RunWeeks(names, enumerate, ByWeek(ms).entries, SortedWeeks(ms)).rankings
  }

  /** The weeks are visited in strictly increasing order. */
  lemma SortedWeeksIncrease(ms: seq<Matchup>)
    ensures var weeks := SortedWeeks(ms);
      forall i, j :: 0 <= i < j < |weeks| ==> weeks[i] < weeks[j]
    ensures forall w :: w in SortedWeeks(ms) <==> w in ByWeek(ms).entries
  {
    var keys := ByWeek(ms).keys;
    var weeks := SortBy(keys, Earlier);
    ByWeekGroups(ms);
    assert StrictOrder(Earlier);
    SortByIsSorted(keys, Earlier);
    forall i, j | 0 <= i < j < |weeks| ensures weeks[i] != weeks[j] {
      if weeks[i] == weeks[j] {
        RemoveAt(weeks, i, j, weeks[i]);
        TwoPositions(keys, weeks[i]);
      }
    }
    forall w ensures w in weeks <==> w in ByWeek(ms).entries {
      assert w in weeks <==> w in multiset(keys);
      assert w in ByWeek(ms).entries <==> w in (set x | x in keys);
    }
  }

  /** Each week dictionary stays in step with its keys. */
  lemma {:induction false} RunWeeksValid(names: map<string, string>, enumerate: set<string> -> seq<string>, byWeek: map<int, seq<Matchup>>, weeks: seq<int>)
    ensures WeeklyValid(RunWeeks(names, enumerate, byWeek, weeks).weekly)
  {
    if weeks != [] {
      RunWeeksValid(names, enumerate, byWeek, weeks[..|weeks| - 1]);
      WeekStepValid(names, enumerate, byWeek, RunWeeks(names, enumerate, byWeek, weeks[..|weeks| - 1]), weeks[|weeks| - 1]);
    }
  }

  lemma WeekStepValid(names: map<string, string>, enumerate: set<string> -> seq<string>, byWeek: map<int, seq<Matchup>>, s: SeasonState, week: int)
    requires WeeklyValid(s.weekly)
    ensures WeeklyValid(WeekStep(names, enumerate, byWeek, s, week).weekly)
  {
    var weekMatchups := if week in byWeek then byWeek[week] else [];
    PlayGamesScoresValid(names, WeekPass(s.standing, EmptyDict()), ValidRegularSeasonMatchups(weekMatchups, week));
  }

  /** Week after week, the win, loss and tie counters never decrease and a counted manager stays counted. */
  lemma {:induction false} SeasonCountersGrow(names: map<string, string>, enumerate: set<string> -> seq<string>,
    byWeek: map<int, seq<Matchup>>, weeks: seq<int>, i: nat, j: nat)
    requires i <= j <= |weeks|
    ensures Dominates(RunWeeks(names, enumerate, byWeek, weeks[..j]).standing, RunWeeks(names, enumerate, byWeek, weeks[..i]).standing)
    decreases j
  {
    if i < j {
      SeasonCountersGrow(names, enumerate, byWeek, weeks, i, j - 1);
      var s := RunWeeks(names, enumerate, byWeek, weeks[..j - 1]);
      var week := weeks[j - 1];
      assert weeks[..j][..j - 1] == weeks[..j - 1];
      var weekMatchups := if week in byWeek then byWeek[week] else [];
      PlayGamesGrows(names, WeekPass(s.standing, EmptyDict()), ValidRegularSeasonMatchups(weekMatchups, week));
      DominatesTransitive(RunWeeks(names, enumerate, byWeek, weeks[..j]).standing, s.standing, RunWeeks(names, enumerate, byWeek, weeks[..i]).standing);
    }
  }

  /** Rows are grouped by week in visiting order; within a week, total ranks do not increase. */
  ghost predicate GroupedAndSorted(rows: seq<Row>) {
    forall i, j :: 0 <= i < j < |rows| ==> rows[i].week <= rows[j].week && (rows[i].week == rows[j].week ==> rows[i].totalRank >= rows[j].totalRank)
  }

  /**
   * Over strictly increasing weeks, the result lists the rows week by week
   * in increasing week order, each week's rows by non-increasing total rank,
   * and only rows of visited weeks.
   */
  lemma {:induction false} SeasonRowsOrdered(names: map<string, string>, enumerate: set<string> -> seq<string>,
    byWeek: map<int, seq<Matchup>>, weeks: seq<int>)
    requires forall i, j :: 0 <= i < j < |weeks| ==> weeks[i] < weeks[j]
    ensures GroupedAndSorted(RunWeeks(names, enumerate, byWeek, weeks).rankings)
    ensures forall r :: r in RunWeeks(names, enumerate, byWeek, weeks).rankings ==> r.week in weeks
  {
    if weeks != [] {
      var prefix, week := weeks[..|weeks| - 1], weeks[|weeks| - 1];
      SeasonRowsOrdered(names, enumerate, byWeek, prefix);
      var s := RunWeeks(names, enumerate, byWeek, prefix);
      var t := WeekStep(names, enumerate, byWeek, s, week);
      assert RunWeeks(names, enumerate, byWeek, weeks) == t;
      WeekStepAppends(names, enumerate, byWeek, s, week);
      WeekReportSorted(enumerate, week, t.standing, t.weekly);
      AppendWeek(s.rankings, WeekReport(enumerate, week, t.standing, t.weekly), weeks);
    }
  }

  /** A week adds its own report after the rows of the weeks before. */
  lemma WeekStepAppends(names: map<string, string>, enumerate: set<string> -> seq<string>, byWeek: map<int, seq<Matchup>>,
    s: SeasonState, week: int)
    ensures WeekStep(names, enumerate, byWeek, s, week).rankings
      == s.rankings + WeekReport(enumerate, week, WeekStep(names, enumerate, byWeek, s, week).standing, WeekStep(names, enumerate, byWeek, s, week).weekly)
  {
  }

  /** Appending the sorted rows of a week later than all before keeps the rows grouped and sorted. */
  lemma AppendWeek(before: seq<Row>, added: seq<Row>, weeks: seq<int>)
    requires weeks != [] && forall i, j :: 0 <= i < j < |weeks| ==> weeks[i] < weeks[j]
    requires GroupedAndSorted(before) && forall x :: x in before ==> x.week in weeks[..|weeks| - 1]
    requires forall r :: r in added ==> r.week == weeks[|weeks| - 1]
    requires forall i, j :: 0 <= i < j < |added| ==> added[i].totalRank >= added[j].totalRank
    ensures GroupedAndSorted(before + added)
    ensures forall r :: r in before + added ==> r.week in weeks
  {
    var week := weeks[|weeks| - 1];
    forall x | x in before ensures x.week < week && x.week in weeks {
      var k :| 0 <= k < |weeks| - 1 && weeks[..|weeks| - 1][k] == x.week;
      assert weeks[k] == x.week;
    }
    var rows := before + added;
    forall i, j | 0 <= i < j < |rows|
      ensures rows[i].week <= rows[j].week && (rows[i].week == rows[j].week ==> rows[i].totalRank >= rows[j].totalRank)
    {
      if j < |before| {
        assert rows[i] == before[i] && rows[j] == before[j];
      } else if i < |before| {
        assert rows[i] in before && rows[j] in added;
      } else {
        assert rows[i] == added[i - |before|] && rows[j] == added[j - |before|];
      }
    }
  }

  /** `p.week == week`, as a filter. */
  function InWeek(week: int): Row -> bool {
    (r: Row) => r.week == week
  }

  /** Rows of earlier weeks followed by a week's report: the rows of that week are the report. */
  lemma ReportIsItsWeek(before: seq<Row>, enumerate: set<string> -> seq<string>, week: int, t: SeasonState)
    requires t.rankings == before + WeekReport(enumerate, week, t.standing, t.weekly)
    requires forall r :: r in before ==> r.week < week
    ensures Filter(t.rankings, InWeek(week)) == WeekReport(enumerate, week, t.standing, t.weekly)
  {
    var added := WeekReport(enumerate, week, t.standing, t.weekly);
    WeekReportSorted(enumerate, week, t.standing, t.weekly);
    FilterAppend(before, added, InWeek(week));
    FilterNone(before, InWeek(week));
    FilterAll(added, InWeek(week));
  }

  /** Over strictly increasing weeks, every row before the last week's is of an earlier week. */
  lemma RowsBeforeLastWeek(names: map<string, string>, enumerate: set<string> -> seq<string>,
    byWeek: map<int, seq<Matchup>>, weeks: seq<int>)
    requires weeks != [] && forall i, j :: 0 <= i < j < |weeks| ==> weeks[i] < weeks[j]
    ensures forall r :: r in RunWeeks(names, enumerate, byWeek, weeks[..|weeks| - 1]).rankings ==> r.week < weeks[|weeks| - 1]
  {
    var prefix := weeks[..|weeks| - 1];
    SeasonRowsOrdered(names, enumerate, byWeek, prefix);
    forall r | r in RunWeeks(names, enumerate, byWeek, prefix).rankings ensures r.week < weeks[|weeks| - 1] {
      var a :| 0 <= a < |prefix| && prefix[a] == r.week;
      assert weeks[a] == r.week;
    }
  }

  /** Over strictly increasing weeks, the rows of the last week visited are exactly its report. */
  lemma SeasonLastWeekRows(names: map<string, string>, enumerate: set<string> -> seq<string>,
    byWeek: map<int, seq<Matchup>>, weeks: seq<int>)
    requires weeks != [] && forall i, j :: 0 <= i < j < |weeks| ==> weeks[i] < weeks[j]
    ensures var t := RunWeeks(names, enumerate, byWeek, weeks);
      Filter(t.rankings, InWeek(weeks[|weeks| - 1])) == WeekReport(enumerate, weeks[|weeks| - 1], t.standing, t.weekly)
  {
    var before := RunWeeks(names, enumerate, byWeek, weeks[..|weeks| - 1]).rankings;
    WeekStepAppends(names, enumerate, byWeek, RunWeeks(names, enumerate, byWeek, weeks[..|weeks| - 1]), weeks[|weeks| - 1]);
    RowsBeforeLastWeek(names, enumerate, byWeek, weeks);
    ReportIsItsWeek(before, enumerate, weeks[|weeks| - 1], RunWeeks(names, enumerate, byWeek, weeks));
  }

  /** Over strictly increasing weeks, the rows of week `k` after it is visited are exactly its report. */
  lemma WeekRowsWhenVisited(names: map<string, string>, enumerate: set<string> -> seq<string>,
    byWeek: map<int, seq<Matchup>>, weeks: seq<int>, k: nat)
    requires k < |weeks| && forall i, j :: 0 <= i < j < |weeks| ==> weeks[i] < weeks[j]
    ensures var t := RunWeeks(names, enumerate, byWeek, weeks[..k + 1]);
      Filter(t.rankings, InWeek(weeks[k])) == WeekReport(enumerate, weeks[k], t.standing, t.weekly)
  {
    var upTo := weeks[..k + 1];
    assert upTo[|upTo| - 1] == weeks[k];
    assert forall i, j :: 0 <= i < j < |upTo| ==> upTo[i] < upTo[j];
    SeasonLastWeekRows(names, enumerate, byWeek, upTo);
  }

  /** The last week visited appends `added` to the rows before it, all of them rows of its own week. */
  lemma LastWeekAdds(names: map<string, string>, enumerate: set<string> -> seq<string>,
    byWeek: map<int, seq<Matchup>>, weeks: seq<int>) returns (added: seq<Row>)
    requires weeks != []
    ensures RunWeeks(names, enumerate, byWeek, weeks).rankings == RunWeeks(names, enumerate, byWeek, weeks[..|weeks| - 1]).rankings + added
    ensures forall r :: r in added ==> r.week == weeks[|weeks| - 1]
  {
    var s := RunWeeks(names, enumerate, byWeek, weeks[..|weeks| - 1]);
    var t := RunWeeks(names, enumerate, byWeek, weeks);
    WeekStepAppends(names, enumerate, byWeek, s, weeks[|weeks| - 1]);
    WeekReportSorted(enumerate, weeks[|weeks| - 1], t.standing, t.weekly);
    added := WeekReport(enumerate, weeks[|weeks| - 1], t.standing, t.weekly);
  }

  /** Week `m` appends `added` to the rows before it, all of them rows of its own week. */
  lemma WeekAdds(names: map<string, string>, enumerate: set<string> -> seq<string>,
    byWeek: map<int, seq<Matchup>>, weeks: seq<int>, m: nat) returns (added: seq<Row>)
    requires 0 < m <= |weeks|
    ensures RunWeeks(names, enumerate, byWeek, weeks[..m]).rankings == RunWeeks(names, enumerate, byWeek, weeks[..m - 1]).rankings + added
    ensures forall r :: r in added ==> r.week == weeks[m - 1]
  {
    var upTo := weeks[..m];
    assert upTo[..|upTo| - 1] == weeks[..m - 1];
    assert upTo[|upTo| - 1] == weeks[m - 1];
    added := LastWeekAdds(names, enumerate, byWeek, upTo);
  }

  /** Appending rows of a later week leaves the rows of an earlier week as they were. */
  lemma FilterStep(before: seq<Row>, added: seq<Row>, after: seq<Row>, week: int, later: int, rows: seq<Row>)
    requires after == before + added && Filter(before, InWeek(week)) == rows
    requires forall r :: r in added ==> r.week == later
    requires week < later
    ensures Filter(after, InWeek(week)) == rows
  {
    FilterSkips(before, added, InWeek(week));
  }

  /** Week `m + 1`, later than `week`, adds no row of `week`. */
  lemma WeekAddsNone(names: map<string, string>, enumerate: set<string> -> seq<string>,
    byWeek: map<int, seq<Matchup>>, weeks: seq<int>, m: nat, week: int, rows: seq<Row>)
    requires m < |weeks| && week < weeks[m]
    requires Filter(RunWeeks(names, enumerate, byWeek, weeks[..m]).rankings, InWeek(week)) == rows
    ensures Filter(RunWeeks(names, enumerate, byWeek, weeks[..m + 1]).rankings, InWeek(week)) == rows
  {
    var added := WeekAdds(names, enumerate, byWeek, weeks, m + 1);
    FilterStep(RunWeeks(names, enumerate, byWeek, weeks[..m]).rankings, added,
      RunWeeks(names, enumerate, byWeek, weeks[..m + 1]).rankings, week, weeks[m], rows);
  }

  /** The weeks from position `m` on, all later than `week`, add no row of `week`. */
  lemma {:induction false} WeeksAfterAddNone(names: map<string, string>, enumerate: set<string> -> seq<string>,
    byWeek: map<int, seq<Matchup>>, weeks: seq<int>, week: int, m: nat, rows: seq<Row>)
    requires m <= |weeks| && forall i :: m <= i < |weeks| ==> week < weeks[i]
    requires Filter(RunWeeks(names, enumerate, byWeek, weeks[..m]).rankings, InWeek(week)) == rows
    ensures Filter(RunWeeks(names, enumerate, byWeek, weeks).rankings, InWeek(week)) == rows
    decreases |weeks| - m
  {
    if m < |weeks| {
      WeekAddsNone(names, enumerate, byWeek, weeks, m, week, rows);
      WeeksAfterAddNone(names, enumerate, byWeek, weeks, week, m + 1, rows);
    } else {
      WholePrefix(weeks, m);
    }
  }

  /** Over strictly increasing weeks, the rows of the `k`-th week are those that week reported, in its order. */
  lemma SeasonWeekRows(names: map<string, string>, enumerate: set<string> -> seq<string>,
    byWeek: map<int, seq<Matchup>>, weeks: seq<int>, k: nat)
    requires forall i, j :: 0 <= i < j < |weeks| ==> weeks[i] < weeks[j]
    requires k < |weeks|
    ensures var t := RunWeeks(names, enumerate, byWeek, weeks[..k + 1]);
      Filter(RunWeeks(names, enumerate, byWeek, weeks).rankings, InWeek(weeks[k])) == WeekReport(enumerate, weeks[k], t.standing, t.weekly)
  {
    assert forall i :: k + 1 <= i < |weeks| ==> weeks[k] < weeks[i];
    var t := RunWeeks(names, enumerate, byWeek, weeks[..k + 1]);
    WeekRowsWhenVisited(names, enumerate, byWeek, weeks, k);
    WeeksAfterAddNone(names, enumerate, byWeek, weeks, weeks[k], k + 1, WeekReport(enumerate, weeks[k], t.standing, t.weekly));
  }

  /** One pass of the season loop: the week's valid games, its scores, the all-play counts and the ranked rows. */
  method PlayWeek(names: map<string, string>, enumerate: set<string> -> seq<string>, byWeek: map<int, seq<Matchup>>,
    week: int, hasMatchupType: bool, s: SeasonState) returns (s': SeasonState)
    requires week in byWeek
    requires WeeklyValid(s.weekly)
    ensures s' == WeekStep(names, enumerate, byWeek, s, week)
    ensures WeeklyValid(s'.weekly)
  {
    var weekMatchups := byWeek[week];
    var validMatchups := GetValidRegularSeasonMatchups(weekMatchups, week, hasMatchupType);
    var p := ProcessGames(names, WeekPass(s.standing, EmptyDict()), validMatchups);
    PlayGamesScoresValid(names, WeekPass(s.standing, EmptyDict()), validMatchups);
    var weeklyScores := s.weekly;
    if p.scores.keys != [] {
      weeklyScores := weeklyScores[week := p.scores];
    }
    var allManagers := Managers(p.standing);
    var powerRankings := s.rankings;
    if allManagers != {} {
      var cum := CumulativeAllPlay(weeklyScores, week);
      var weekRankings := RankWeek(week, enumerate(allManagers), p.standing, weeklyScores, cum);
      powerRankings := powerRankings + weekRankings;
    }
    s' := SeasonState(p.standing, weeklyScores, powerRankings);
  }

  /** The loop over the sorted weeks, each of which has matchups. */
  method RunSeason(names: map<string, string>, enumerate: set<string> -> seq<string>, byWeek: map<int, seq<Matchup>>,
    weeks: seq<int>, hasMatchupType: bool) returns (s: SeasonState)
    requires forall w :: w in weeks ==> w in byWeek
    ensures s == RunWeeks(names, enumerate, byWeek, weeks)
  {
    s := Start;
    var i := 0;
    while i < |weeks|
      invariant 0 <= i <= |weeks|
      invariant s == RunWeeks(names, enumerate, byWeek, weeks[..i])
      invariant WeeklyValid(s.weekly)
    {
      RunWeeksStep(names, enumerate, byWeek, weeks, i);
      s := PlayWeek(names, enumerate, byWeek, weeks[i], hasMatchupType, s);
      i := i + 1;
    }
    assert weeks[..i] == weeks;
  }

  /** `calculate_power_rankings` once the season's matchups are loaded. */
  method CalculatePowerRankings(names: map<string, string>, enumerate: set<string> -> seq<string>, matchups: seq<Matchup>)
    returns (powerRankings: seq<Row>)
    ensures powerRankings == PowerRankingsOf(names, enumerate, matchups)
  {
    var hasMatchupType := HasMatchupType(matchups);
    var matchupsByWeek := GroupByWeek(matchups);
    var weeks := SortBy(matchupsByWeek.keys, Earlier);
    SortedWeeksIncrease(matchups);
    var s := RunSeason(names, enumerate, matchupsByWeek.entries, weeks, hasMatchupType);
    powerRankings := s.rankings;
  }

  /** The season's rows are grouped by week in increasing order and ranked by total within each week. */
  lemma PowerRankingsOrdered(names: map<string, string>, enumerate: set<string> -> seq<string>, ms: seq<Matchup>)
    ensures GroupedAndSorted(PowerRankingsOf(names, enumerate, ms))
    ensures forall r :: r in PowerRankingsOf(names, enumerate, ms) ==> r.week > 0 && WeekOccurs(ms, r.week)
  {
    SortedWeeksIncrease(ms);
    SeasonRowsOrdered(names, enumerate, ByWeek(ms).entries, SortedWeeks(ms));
    ByWeekGroups(ms);
  }

  /**
   * When the set iteration lists each manager once, the season's rows of
   * every visited week hold one row per manager counted by the end of that
   * week, ranked on the scale 1 to their number, reporting the counters of
   * that moment.
   */
  lemma PowerRankingsWeeks(names: map<string, string>, enumerate: set<string> -> seq<string>, ms: seq<Matchup>, k: nat)
    requires ListsEachOnce(enumerate)
    requires k < |SortedWeeks(ms)|
    ensures var weeks := SortedWeeks(ms);
      var t := RunWeeks(names, enumerate, ByWeek(ms).entries, weeks[..k + 1]);
      OneRowPerManager(Filter(PowerRankingsOf(names, enumerate, ms), InWeek(weeks[k])), weeks[k], t.standing, t.weekly)
  {
    var weeks := SortedWeeks(ms);
    var t := RunWeeks(names, enumerate, ByWeek(ms).entries, weeks[..k + 1]);
    SortedWeeksIncrease(ms);
    SeasonWeekRows(names, enumerate, ByWeek(ms).entries, weeks, k);
    WeekReportRows(enumerate, weeks[k], t.standing, t.weekly);
  }
}
