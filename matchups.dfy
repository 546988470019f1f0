/**
 * The records the scraper stores for each season (scripts/scrape_espn_data.py
 * builds them; that file is not part of this model) and the grouping of a
 * season's matchups by week that every consumer starts from.
 */
module Matchups {
  import opened Core

  /**
   * One raw matchup record. Manager names are strings: the scraper always
   * fills them (falling back to "Team <id>"), and "" stands for a missing
   * one. `winnerId` is the scraper's `winner_id`, set iff the scores differ;
   * `periodId` is ESPN's `matchupPeriodId`; `matchupType` its `matchupType`.
   */
  datatype Matchup = Matchup(
    week: int,
    homeId: Option<int>,
    awayId: Option<int>,
    homeManager: string,
    awayManager: string,
    homeScore: real,
    awayScore: real,
    winnerId: Option<int>,
    periodId: Option<int>,
    matchupType: Option<string>,
    isBye: bool,
    isPlayoff: bool)

  /** One row of a season's final standings. */
  datatype StandingsRow = StandingsRow(manager: string, wins: int, losses: int, pointsFor: real)

  /** One season of scraped data: its matchups in received order, standings and team handles. */
  datatype Season = Season(year: int, matchups: seq<Matchup>, standings: seq<StandingsRow>, teams: seq<string>)

  /** `any(m.get('matchup_type') is not None for m in matchups[:10])` */
  predicate HasMatchupType(ms: seq<Matchup>) {
    exists i :: 0 <= i < Min(10, |ms|) && ms[i].matchupType.Some?
  }

  /** The matchups of `ms` whose week is `w`, in received order. */
  function OfWeek(ms: seq<Matchup>, w: int): (r: seq<Matchup>)
    ensures forall i :: 0 <= i < |r| ==> r[i].week == w && r[i] in ms
    ensures forall i :: 0 <= i < |ms| && ms[i].week == w ==> ms[i] in r
  {
    if ms == [] then []
    else OfWeek(ms[..|ms| - 1], w) + (if ms[|ms| - 1].week == w then [ms[|ms| - 1]] else [])
  }

  /** Is some matchup of `ms` in week `w`? */
  predicate WeekOccurs(ms: seq<Matchup>, w: int) {
    exists i :: 0 <= i < |ms| && ms[i].week == w
  }

  lemma {:induction false} OfWeekEmpty(ms: seq<Matchup>, w: int)
    requires !WeekOccurs(ms, w)
    ensures OfWeek(ms, w) == []
  {
    if ms != [] {
      var p := ms[..|ms| - 1];
      assert !WeekOccurs(p, w) by {
        forall j | 0 <= j < |p| ensures p[j].week != w {
          assert p[j] == ms[j];
        }
      }
      OfWeekEmpty(p, w);
    }
  }

  /** The week grouping as a value: each matchup with a positive week appended to its week's list. */
  function ByWeek(ms: seq<Matchup>): Dict<int, seq<Matchup>> {
    if ms == [] then EmptyDict()
    else
      var d := ByWeek(ms[..|ms| - 1]);
      var m := ms[|ms| - 1];
      if m.week > 0 then d.Put(m.week, d.Get(m.week, []) + [m]) else d
  }

  /** The grouping keys exactly the positive weeks that occur, and each key holds that week's matchups in order. */
  lemma {:induction false} ByWeekGroups(ms: seq<Matchup>)
    ensures ByWeek(ms).Valid()
    ensures forall w :: w in ByWeek(ms).entries <==> w > 0 && WeekOccurs(ms, w)
    ensures forall w :: w in ByWeek(ms).entries ==> ByWeek(ms).entries[w] == OfWeek(ms, w)
  {
    if ms != [] {
      var p := ms[..|ms| - 1];
      var m := ms[|ms| - 1];
      ByWeekGroups(p);
      PutValid(ByWeek(p), m.week, ByWeek(p).Get(m.week, []) + [m]);
      forall w | WeekOccurs(p, w) ensures WeekOccurs(ms, w) {
        var j :| 0 <= j < |p| && p[j].week == w;
        assert ms[j].week == w;
      }
      forall w | WeekOccurs(ms, w) && w != m.week ensures WeekOccurs(p, w) {
        var j :| 0 <= j < |ms| && ms[j].week == w;
        assert p[j].week == w;
      }
      if !WeekOccurs(p, m.week) {
        OfWeekEmpty(p, m.week);
      }
    }
  }

  /**
   * `matchups_by_week`: the loop that appends each matchup with a positive
   * week to its week's list (scripts/process_data.py:62-66 and the same loop
   * in every consumer). Weeks are keyed in order of first appearance.
   */
  method GroupByWeek(ms: seq<Matchup>) returns (byWeek: Dict<int, seq<Matchup>>)
    ensures byWeek == ByWeek(ms)
    ensures byWeek.Valid()
    ensures forall w :: w in byWeek.entries <==> w > 0 && WeekOccurs(ms, w)
    ensures forall w :: w in byWeek.entries ==> byWeek.entries[w] == OfWeek(ms, w)
  {
    byWeek := EmptyDict();
    var i := 0;
    while i < |ms|
      invariant 0 <= i <= |ms|
      invariant byWeek == ByWeek(ms[..i])
    {
      assert ms[..i + 1][..i] == ms[..i];
      ByWeekGroups(ms[..i]);
      var m := ms[i];
      if m.week > 0 {
        byWeek := byWeek.Put(m.week, byWeek.Get(m.week, []) + [m]);
      }
      i := i + 1;
    }
    assert ms[..|ms|] == ms;
    ByWeekGroups(ms);
  }
}
