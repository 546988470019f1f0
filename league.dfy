/**
 * The canonical games of a whole league: every season's weeks, each
 * reconciled by the week cascade, in the order scripts/process_data.py
 * visits them (seasons in stored order, weeks in order of first appearance).
 */
module League {
  import opened Core
  import opened Matchups
  import opened Reconcile

  /** `extract_first_name`: the mapped first name of a known display name, in any letter case, else the name itself. */
  function FirstName(names: map<string, string>, displayName: string): string {
    if Lower(displayName) in names then names[Lower(displayName)] else displayName
  }

  lemma FirstNameIgnoresCase(names: map<string, string>, a: string, b: string)
    requires Lower(a) == Lower(b)
    ensures Lower(a) in names ==> FirstName(names, a) == FirstName(names, b) == names[Lower(a)]
    ensures Lower(a) !in names ==> FirstName(names, a) == a && FirstName(names, b) == b
  {
  }

  /** A selected game with the season it belongs to. */
  datatype Game = Game(season: int, matchup: Matchup)

  function EntryMatchups(es: seq<Entry>): (r: seq<Matchup>)
    ensures |r| == |es| && forall i :: 0 <= i < |es| ==> r[i] == es[i].1
  {
    if es == [] then [] else EntryMatchups(es[..|es| - 1]) + [es[|es| - 1].1]
  }

  /** A week resolver: the selected matchups of one week's records, given the week and the season's type flag. */
  type Resolver = (seq<Matchup>, int, bool) -> seq<Matchup>

  /** The week cascade of one copy, as the code runs it, as a resolver. */
  function Resolved(v: Variant): Resolver {
    (ms: seq<Matchup>, w: int, t: bool) => EntryMatchups(ResolveWeek(v, ms, w, t))
  }

  /**
   * A resolver keeps at most five records of the list it is given, each
   * with both team identifiers and a winner or a positive tie (the guard of
   * the ordered pass, lines 222-224).
   */
  ghost predicate SoundResolver(v: Variant, resolve: Resolver) {
    forall ms, w, t :: |resolve(ms, w, t)| <= WeekGames &&
      forall i :: 0 <= i < |resolve(ms, w, t)| ==> resolve(ms, w, t)[i] in ms && PassesOrderedGuard(v, resolve(ms, w, t)[i])
  }

  lemma ResolvedSound(v: Variant)
    ensures SoundResolver(v, Resolved(v))
  {
    forall ms, w, t ensures |Resolved(v)(ms, w, t)| <= WeekGames &&
      forall i :: 0 <= i < |Resolved(v)(ms, w, t)| ==> Resolved(v)(ms, w, t)[i] in ms && PassesOrderedGuard(v, Resolved(v)(ms, w, t)[i])
    {
      ResolveWeekSound(v, ms, w, t);
    }
  }

  /** The selected matchups of the listed weeks, week after week. */
  function WeeksGames(resolve: Resolver, byWeek: map<int, seq<Matchup>>, weeks: seq<int>, hasType: bool): seq<Matchup>
    requires forall i :: 0 <= i < |weeks| ==> weeks[i] in byWeek
  {
    if weeks == [] then []
    else
      var w := weeks[|weeks| - 1];
      WeeksGames(resolve, byWeek, weeks[..|weeks| - 1], hasType) + resolve(byWeek[w], w, hasType)
  }

  /** The selected matchups of one season. */
  function SeasonGames(resolve: Resolver, s: Season): seq<Matchup> {
    var d := ByWeek(s.matchups);
    ByWeekGroups(s.matchups);
    KeysPresent(d);
    WeeksGames(resolve, d.entries, d.keys, HasMatchupType(s.matchups))
  }

  function Tagged(season: int, ms: seq<Matchup>): (r: seq<Game>)
    ensures |r| == |ms| && forall i :: 0 <= i < |ms| ==> r[i] == Game(season, ms[i])
  {
    if ms == [] then [] else Tagged(season, ms[..|ms| - 1]) + [Game(season, ms[|ms| - 1])]
  }

  /** The selected games of every season, in season order. */
  function Games(resolve: Resolver, league: seq<Season>): seq<Game> {
    if league == [] then []
    else
      var s := league[|league| - 1];
      Games(resolve, league[..|league| - 1]) + Tagged(s.year, SeasonGames(resolve, s))
  }

  /** The canonical games of one copy of the cascade. */
  function LeagueGames(v: Variant, league: seq<Season>): seq<Game> {
    Games(Resolved(v), league)
  }

  // ---------------------------------------------------------------------
  // Properties
  // ---------------------------------------------------------------------

  /** The byWeek map of a week grouping: each week's list holds records of that week. */
  ghost predicate WeekLists(byWeek: map<int, seq<Matchup>>, ms: seq<Matchup>) {
    forall w :: w in byWeek ==> w > 0 && forall i :: 0 <= i < |byWeek[w]| ==> byWeek[w][i].week == w && byWeek[w][i] in ms
  }

  /** One week's selected matchups are at most five guarded records of that week. */
  lemma WeekSound(v: Variant, resolve: Resolver, byWeek: map<int, seq<Matchup>>, w: int, hasType: bool, ms: seq<Matchup>)
    requires SoundResolver(v, resolve)
    requires w in byWeek && WeekLists(byWeek, ms)
    ensures var t := resolve(byWeek[w], w, hasType);
      && |t| <= WeekGames
      && forall i :: 0 <= i < |t| ==> t[i] in ms && t[i].week == w && w > 0 && PassesOrderedGuard(v, t[i])
  {
    var t := resolve(byWeek[w], w, hasType);
    forall i | 0 <= i < |t| ensures t[i] in ms && t[i].week == w {
      assert t[i] in byWeek[w];
    }
  }

  lemma {:induction false} WeeksGamesSound(v: Variant, resolve: Resolver, byWeek: map<int, seq<Matchup>>, weeks: seq<int>, hasType: bool, ms: seq<Matchup>)
    requires SoundResolver(v, resolve)
    requires forall i :: 0 <= i < |weeks| ==> weeks[i] in byWeek
    requires WeekLists(byWeek, ms)
    ensures forall m :: m in WeeksGames(resolve, byWeek, weeks, hasType) ==> m in ms && m.week in weeks && m.week > 0 && PassesOrderedGuard(v, m)
  {
    if weeks != [] {
      var p := weeks[..|weeks| - 1];
      var w := weeks[|weeks| - 1];
      assert forall i :: 0 <= i < |p| ==> p[i] == weeks[i];
      WeeksGamesSound(v, resolve, byWeek, p, hasType, ms);
      WeekSound(v, resolve, byWeek, w, hasType, ms);
      var q := WeeksGames(resolve, byWeek, p, hasType);
      var t := resolve(byWeek[w], w, hasType);
      var r := WeeksGames(resolve, byWeek, weeks, hasType);
      assert r == q + t;
      forall m | m in r ensures m in ms && m.week in weeks && m.week > 0 && PassesOrderedGuard(v, m) {
        if m in q {
          assert m.week in p;
        } else {
          assert m in t;
        }
      }
    }
  }

  /** The number of records of week `w` in a list. */
  function CountWeek(ms: seq<Matchup>, w: int): nat {
    CountWhere(ms, (m: Matchup) => m.week == w)
  }

  lemma CountWeekAppend(a: seq<Matchup>, b: seq<Matchup>, w: int)
    ensures CountWeek(a + b, w) == CountWeek(a, w) + CountWeek(b, w)
  {
    CountWhereAppend(a, b, (m: Matchup) => m.week == w);
  }

  lemma {:induction false} CountWeekNone(ms: seq<Matchup>, w: int)
    requires forall i :: 0 <= i < |ms| ==> ms[i].week != w
    ensures CountWeek(ms, w) == 0
  {
    if ms != [] {
      CountWeekNone(ms[..|ms| - 1], w);
    }
  }

  /** Within a season's games, every week contributes at most five games. */
  lemma {:induction false} WeeksGamesPerWeek(v: Variant, resolve: Resolver, byWeek: map<int, seq<Matchup>>, weeks: seq<int>, hasType: bool, ms: seq<Matchup>, w: int)
    requires SoundResolver(v, resolve)
    requires forall i :: 0 <= i < |weeks| ==> weeks[i] in byWeek
    requires Distinct(weeks)
    requires WeekLists(byWeek, ms)
    ensures CountWeek(WeeksGames(resolve, byWeek, weeks, hasType), w) <= WeekGames
  {
    if weeks != [] {
      var p := weeks[..|weeks| - 1];
      var u := weeks[|weeks| - 1];
      var q := WeeksGames(resolve, byWeek, p, hasType);
      var tail := resolve(byWeek[u], u, hasType);
      WeekSound(v, resolve, byWeek, u, hasType, ms);
      CountWeekAppend(q, tail, w);
      if u == w {
        WeeksGamesSound(v, resolve, byWeek, p, hasType, ms);
        assert w !in p;
        forall i | 0 <= i < |q| ensures q[i].week != w {
          assert q[i] in q;
        }
        CountWeekNone(q, w);
      } else {
        WeeksGamesPerWeek(v, resolve, byWeek, p, hasType, ms, w);
        CountWeekNone(tail, w);
      }
    }
  }

  lemma SeasonGroups(s: Season)
    ensures var d := ByWeek(s.matchups);
      && Distinct(d.keys)
      && (forall i :: 0 <= i < |d.keys| ==> d.keys[i] in d.entries)
      && WeekLists(d.entries, s.matchups)
  {
    ByWeekGroups(s.matchups);
    var d := ByWeek(s.matchups);
    forall i | 0 <= i < |d.keys| ensures d.keys[i] in d.entries {
      assert d.keys[i] in (set x | x in d.keys);
    }
  }

  /**
   * A season's selected games are guarded records of that season with a
   * positive week, and no week contributes more than five.
   */
  lemma SeasonGamesSound(v: Variant, resolve: Resolver, s: Season)
    requires SoundResolver(v, resolve)
    ensures forall m :: m in SeasonGames(resolve, s) ==> m in s.matchups && m.week > 0 && PassesOrderedGuard(v, m)
    ensures forall w :: CountWeek(SeasonGames(resolve, s), w) <= WeekGames
  {
    SeasonGroups(s);
    var d := ByWeek(s.matchups);
    WeeksGamesSound(v, resolve, d.entries, d.keys, HasMatchupType(s.matchups), s.matchups);
    forall w ensures CountWeek(SeasonGames(resolve, s), w) <= WeekGames {
      WeeksGamesPerWeek(v, resolve, d.entries, d.keys, HasMatchupType(s.matchups), s.matchups, w);
    }
  }

  lemma {:induction false} GamesSound(v: Variant, resolve: Resolver, league: seq<Season>)
    requires SoundResolver(v, resolve)
    ensures forall g :: g in Games(resolve, league) ==>
      && (exists k :: 0 <= k < |league| && league[k].year == g.season && g.matchup in league[k].matchups)
      && g.matchup.week > 0 && PassesOrderedGuard(v, g.matchup)
  {
    if league != [] {
      var p := league[..|league| - 1];
      var s := league[|league| - 1];
      GamesSound(v, resolve, p);
      SeasonGamesSound(v, resolve, s);
      var q := Games(resolve, p);
      var t := Tagged(s.year, SeasonGames(resolve, s));
      assert Games(resolve, league) == q + t;
      forall g: Game | g in q + t
        ensures (exists k :: 0 <= k < |league| && league[k].year == g.season && g.matchup in league[k].matchups)
        ensures g.matchup.week > 0 && PassesOrderedGuard(v, g.matchup)
      {
        if g in q {
          var k :| 0 <= k < |p| && p[k].year == g.season && g.matchup in p[k].matchups;
          assert league[k] == p[k];
        } else {
          var j :| 0 <= j < |t| && t[j] == g;
          assert g.matchup == SeasonGames(resolve, s)[j];
          assert league[|league| - 1] == s;
        }
      }
    }
  }

  /**
   * Every league game is a record, with a positive week, of a season with
   * that year, with both team identifiers and a winner or a positive tie.
   */
  lemma LeagueGamesSound(v: Variant, league: seq<Season>)
    ensures forall g :: g in LeagueGames(v, league) ==>
      && (exists k :: 0 <= k < |league| && league[k].year == g.season && g.matchup in league[k].matchups)
      && g.matchup.week > 0 && PassesOrderedGuard(v, g.matchup)
  {
    assert SoundResolver(v, Resolved(v)) by { ResolvedSound(v); }
    GamesSound(v, Resolved(v), league);
    assert LeagueGames(v, league) == Games(Resolved(v), league);
  }

  /** Every season contributes at most five league games per week. */
  lemma LeagueGamesPerWeek(v: Variant, s: Season, w: int)
    ensures CountWeek(SeasonGames(Resolved(v), s), w) <= WeekGames
  {
    assert SoundResolver(v, Resolved(v)) by { ResolvedSound(v); }
    SeasonGamesSound(v, Resolved(v), s);
  }

  // ---------------------------------------------------------------------
  // The loops
  // ---------------------------------------------------------------------

  /** One week's selected matchups (`[matchup for _, matchup in selected_games]`). */
  method WeekMatchups(v: Variant, weekMatchups: seq<Matchup>, week: int, hasType: bool) returns (r: seq<Matchup>)
    ensures r == Resolved(v)(weekMatchups, week, hasType)
  {
    var selected := ResolveWeekGames(v, weekMatchups, week, hasType);
    r := SelectedMatchups(selected);
  }

  /** The matchups of the selected entries, in order. */
  method SelectedMatchups(selected: seq<Entry>) returns (r: seq<Matchup>)
    ensures r == EntryMatchups(selected)
  {
    r := [];
    var k := 0;
    while k < |selected|
      invariant 0 <= k <= |selected|
      invariant r == EntryMatchups(selected[..k])
    {
      assert selected[..k + 1][..k] == selected[..k];
      r := r + [selected[k].1];
      k := k + 1;
    }
    assert selected[..k] == selected;
  }

  lemma WeeksGamesStep(resolve: Resolver, byWeek: map<int, seq<Matchup>>, weeks: seq<int>, j: nat, hasType: bool)
    requires j < |weeks| && forall i :: 0 <= i < |weeks| ==> weeks[i] in byWeek
    ensures WeeksGames(resolve, byWeek, weeks[..j + 1], hasType)
      == WeeksGames(resolve, byWeek, weeks[..j], hasType) + resolve(byWeek[weeks[j]], weeks[j], hasType)
  {
    assert weeks[..j + 1][..j] == weeks[..j];
  }

  /** The week loop of one season: group by week, reconcile each week, collect its games. */
  method SeasonMatchups(v: Variant, s: Season) returns (seasonGames: seq<Matchup>)
    ensures seasonGames == SeasonGames(Resolved(v), s)
  {
    var hasType := HasMatchupType(s.matchups);
    var byWeek := GroupByWeek(s.matchups);
    KeysPresent(byWeek);
    seasonGames := [];
    var j := 0;
    while j < |byWeek.keys|
      invariant 0 <= j <= |byWeek.keys|
      invariant seasonGames == WeeksGames(Resolved(v), byWeek.entries, byWeek.keys[..j], hasType)
    {
      var w := byWeek.keys[j];
      var weekGames := WeekMatchups(v, byWeek.entries[w], w, hasType);
      WeeksGamesStep(Resolved(v), byWeek.entries, byWeek.keys, j, hasType);
      seasonGames := seasonGames + weekGames;
      j := j + 1;
    }
    assert byWeek.keys[..j] == byWeek.keys;
  }

  /**
   * The season loop shared by `calculate_head_to_head` and
   * `calculate_season_totals_from_matchups`, each season's games tagged
   * with its year.
   */
  method CollectLeagueGames(v: Variant, league: seq<Season>) returns (games: seq<Game>)
    ensures games == LeagueGames(v, league)
  {
    games := [];
    var i := 0;
    while i < |league|
      invariant 0 <= i <= |league|
      invariant games == Games(Resolved(v), league[..i])
    {
      assert league[..i + 1][..i] == league[..i];
      var seasonGames := SeasonMatchups(v, league[i]);
      games := games + Tagged(league[i].year, seasonGames);
      i := i + 1;
    }
    assert league[..i] == league;
  }
}
