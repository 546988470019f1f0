/**
 * The weekly reconciliation cascade of scripts/process_data.py: from the
 * many records ESPN returns for one week, pick at most five canonical games.
 *
 * The file holds two copies of the cascade, which differ in three guards:
 * `calculate_head_to_head` (lines 69-253) filters on manager names in its
 * first-occurrence pass, and `get_valid_regular_season_matchups` (lines
 * 326-463) drops playoff records in its validation, first-occurrence and
 * ordered passes. `Variant` picks the copy.
 */
module Reconcile {
  import opened Core
  import opened Matchups

  datatype Variant = HeadToHeadCopy | RegularSeasonCopy

  /** The hard-coded number of games in a week (a ten-team league). */
  const WeekGames: nat := 5

  // ---------------------------------------------------------------------
  // Record guards
  // ---------------------------------------------------------------------

  /** `home_score == away_score and home_score > 0` */
  predicate IsTie(m: Matchup) {
    m.homeScore == m.awayScore && m.homeScore > 0.0
  }

  /** Python truthiness of `winner_id`: None and 0 are falsy. */
  predicate HasWinner(m: Matchup) {
    m.winnerId.Some? && m.winnerId.value != 0
  }

  /** The record has a result: a winner, or a positive-score tie. */
  predicate Decided(m: Matchup) {
    HasWinner(m) || IsTie(m)
  }

  predicate HasIds(m: Matchup) {
    m.homeId.Some? && m.awayId.Some?
  }

  /** Not 0-0, and not both teams under 50 points. */
  predicate Plausible(m: Matchup) {
    && !(m.homeScore == 0.0 && m.awayScore == 0.0)
    && !(m.homeScore < 50.0 && m.awayScore < 50.0)
  }

  /** Both manager names non-empty and neither a "Team None" placeholder (lines 178-181). */
  predicate NamedManagers(m: Matchup) {
    && m.homeManager != "" && m.awayManager != ""
    && !Contains(m.homeManager, "Team None") && !Contains(m.awayManager, "Team None")
  }

  /** Only the regular-season copy looks at `is_playoff`. */
  predicate PlayoffAllowed(v: Variant, m: Matchup) {
    v == RegularSeasonCopy ==> !m.isPlayoff
  }

  /** The validation applied to the period-filtered list (lines 93-110, 343-362). */
  predicate PassesValidation(v: Variant, m: Matchup) {
    HasIds(m) && PlayoffAllowed(v, m) && Decided(m) && Plausible(m)
  }

  /** The filter of the first-occurrence pass (lines 169-195, 405-415). */
  predicate IsCandidate(v: Variant, m: Matchup) {
    && HasIds(m)
    && !m.isBye
    && PlayoffAllowed(v, m)
    && (v == HeadToHeadCopy ==> NamedManagers(m))
    && Plausible(m)
    && Decided(m)
  }

  /** The weaker guard of the ordered pass as written (lines 222-224, 434-438). */
  predicate PassesOrderedGuard(v: Variant, m: Matchup) {
    PlayoffAllowed(v, m) && HasIds(m) && Decided(m)
  }

  // ---------------------------------------------------------------------
  // Team pairs
  // ---------------------------------------------------------------------

  /** `tuple(sorted([home_id, away_id]))` */
  datatype TeamPair = TeamPair(lo: int, hi: int)

  function PairOf(m: Matchup): (p: TeamPair)
    requires HasIds(m)
    ensures p.lo <= p.hi
    ensures {p.lo, p.hi} == {m.homeId.value, m.awayId.value}
  {
    var h, a := m.homeId.value, m.awayId.value;
    if h <= a then TeamPair(h, a) else TeamPair(a, h)
  }

  /** An entry of `first_occurrence_ordered` / `selected_games`: `(team_pair, matchup)`. */
  type Entry = (TeamPair, Matchup)

  function PairsOf(o: seq<Entry>): set<TeamPair> {
    set i | 0 <= i < |o| :: o[i].0
  }

  lemma PairsOfAppend(o: seq<Entry>, e: Entry)
    ensures PairsOf(o + [e]) == PairsOf(o) + {e.0}
  {
    var o' := o + [e];
    forall k | k in PairsOf(o') ensures k in PairsOf(o) + {e.0} {
      var i :| 0 <= i < |o'| && o'[i].0 == k;
      if i < |o| { assert o[i] == o'[i]; }
    }
    forall k | k in PairsOf(o) ensures k in PairsOf(o') {
      var i :| 0 <= i < |o| && o[i].0 == k;
      assert o'[i] == o[i];
    }
    assert o'[|o|] == e;
  }

  predicate DistinctPairs(o: seq<Entry>) {
    forall i, j :: 0 <= i < j < |o| ==> o[i].0 != o[j].0
  }

  // ---------------------------------------------------------------------
  // Strategy 1: the period filter and its validation (lines 77-136)
  // ---------------------------------------------------------------------

  /** `any(m.get('matchup_period_id') is not None for m in week_matchups[:5])` */
  predicate HasPeriodIds(ms: seq<Matchup>) {
    exists i :: 0 <= i < Min(5, |ms|) && ms[i].periodId.Some?
  }

  predicate InPeriod(week: int, m: Matchup) {
    m.periodId == Some(week)
  }

  function PeriodFiltered(ms: seq<Matchup>, week: int): seq<Matchup> {
    Filter(ms, (m: Matchup) => InPeriod(week, m))
  }

  function Validated(v: Variant, fs: seq<Matchup>): seq<Matchup> {
    Filter(fs, (m: Matchup) => PassesValidation(v, m))
  }

  /** How often team `t` is a side of a game of `vs` (`team_counts[t]`). */
  function Appearances(vs: seq<Matchup>, t: int): nat {
    if vs == [] then 0
    else
      var m := vs[|vs| - 1];
      Appearances(vs[..|vs| - 1], t) + (if m.homeId == Some(t) then 1 else 0) + (if m.awayId == Some(t) then 1 else 0)
  }

  /** The team identifiers a record names. */
  function Sides(m: Matchup): set<int> {
    (if m.homeId.Some? then {m.homeId.value} else {}) + (if m.awayId.Some? then {m.awayId.value} else {})
  }

  /** Every team counted appears exactly once (`all(count == 1 for count in team_counts.values())`). */
  predicate EachTeamOnce(vs: seq<Matchup>) {
    forall i, t :: 0 <= i < |vs| && t in Sides(vs[i]) ==> Appearances(vs, t) == 1
  }

  /** The period-filtered list passes validation: five valid games, each team once. */
  predicate PeriodAccepted(v: Variant, ms: seq<Matchup>, week: int) {
    var f := PeriodFiltered(ms, week);
    var vs := Validated(v, f);
    f != [] && |vs| == WeekGames && EachTeamOnce(vs)
  }

  /** The list carried forward by strategy 1: the period-filtered list if accepted, else the input unchanged. */
  function PeriodStage(v: Variant, ms: seq<Matchup>, week: int): seq<Matchup> {
    if HasPeriodIds(ms) && PeriodAccepted(v, ms, week) then PeriodFiltered(ms, week) else ms
  }

  // ---------------------------------------------------------------------
  // Strategy 2: the matchup-type tag (lines 138-151)
  // ---------------------------------------------------------------------

  /** `matchup_type and 'SCHEDULED' in str(matchup_type).upper()` */
  predicate IsScheduled(m: Matchup) {
    Present(m.matchupType) && Contains(Upper(m.matchupType.value), "SCHEDULED")
  }

  function TagStage(ms: seq<Matchup>, hasType: bool): (r: seq<Matchup>)
    ensures !hasType ==> r == ms
    ensures r == ms || (r != [] && forall i :: 0 <= i < |r| ==> IsScheduled(r[i]) && r[i] in ms)
    ensures forall i :: 0 <= i < |ms| && hasType && IsScheduled(ms[i]) ==> ms[i] in r
  {
    if hasType then
      var s := Filter(ms, IsScheduled);
      if s != [] then s else ms
    else ms
  }

  // ---------------------------------------------------------------------
  // Strategy 3: first occurrences and greedy selection (lines 153-253)
  // ---------------------------------------------------------------------

  /** `first_occurrence`: the earliest candidate record of each team pair. */
  function FirstOccurrence(v: Variant, ms: seq<Matchup>): map<TeamPair, Matchup> {
    if ms == [] then map[]
    else
      var fo := FirstOccurrence(v, ms[..|ms| - 1]);
      var m := ms[|ms| - 1];
      if IsCandidate(v, m) && PairOf(m) !in fo then fo[PairOf(m) := m] else fo
  }

  /**
   * The ordered pass with a given guard: walk the list and append
   * `(pair, record)` the first time a guarded record's pair, known to
   * `fo`, is met.
   */
  function OrderedPass(ms: seq<Matchup>, fo: map<TeamPair, Matchup>, guard: Matchup -> bool): (o: seq<Entry>)
    requires forall i :: 0 <= i < |ms| && guard(ms[i]) ==> HasIds(ms[i])
  {
    if ms == [] then []
    else
      var o := OrderedPass(ms[..|ms| - 1], fo, guard);
      var m := ms[|ms| - 1];
      if guard(m) && PairOf(m) in fo && PairOf(m) !in PairsOf(o) then o + [(PairOf(m), m)] else o
  }

  /**
   * `first_occurrence_ordered` as written at lines 214-231: the guard is
   * weaker than the first-occurrence filter, so the record kept for a pair
   * is the first one passing the weak guard, which need not be
   * `first_occurrence[pair]`.
   */
  function OrderedAsWritten(v: Variant, ms: seq<Matchup>, fo: map<TeamPair, Matchup>): seq<Entry> {
    OrderedPass(ms, fo, (m: Matchup) => PassesOrderedGuard(v, m))
  }

  /** `first_occurrence_ordered` as intended: the first occurrences, in the order they were met. */
  function OrderedFirstOccurrences(v: Variant, ms: seq<Matchup>, fo: map<TeamPair, Matchup>): seq<Entry> {
    OrderedPass(ms, fo, (m: Matchup) => IsCandidate(v, m))
  }

  /** The teams used by a list of entries (`used_teams`). */
  function TeamsOf(g: seq<Entry>): set<int> {
    if g == [] then {} else TeamsOf(g[..|g| - 1]) + {g[|g| - 1].0.lo, g[|g| - 1].0.hi}
  }

  /** The greedy pass: take an entry if neither team is used yet, stopping at five. */
  function Greedy(o: seq<Entry>): seq<Entry> {
    if o == [] then []
    else
      var g := Greedy(o[..|o| - 1]);
      var e := o[|o| - 1];
      if |g| >= WeekGames then g
      else if e.0.lo !in TeamsOf(g) && e.0.hi !in TeamsOf(g) then g + [e]
      else g
  }

  /** No team is a side of two different entries. */
  predicate TeamDisjoint(g: seq<Entry>) {
    forall i, j :: 0 <= i < j < |g| ==> {g[i].0.lo, g[i].0.hi} !! {g[j].0.lo, g[j].0.hi}
  }

  /** `selected_games`: the greedy pick if it reached five games, else the first five ordered entries. */
  function SelectGames(o: seq<Entry>): seq<Entry> {
    var g := Greedy(o);
    if |g| < WeekGames then o[..Min(WeekGames, |o|)] else g
  }

  /** The list the first-occurrence and ordered passes walk: strategy 1, then strategy 2. */
  function Staged(v: Variant, ms: seq<Matchup>, week: int, hasType: bool): seq<Matchup> {
    TagStage(PeriodStage(v, ms, week), hasType)
  }

  /** The whole cascade for one week of one copy, with the ordered pass as written. */
  function ResolveWeek(v: Variant, ms: seq<Matchup>, week: int, hasType: bool): seq<Entry> {
    var s := Staged(v, ms, week, hasType);
    SelectGames(OrderedAsWritten(v, s, FirstOccurrence(v, s)))
  }

  /** The cascade as the comment at line 210 intends it: the ordered pass lists the first occurrences. */
  function ResolveWeekIntended(v: Variant, ms: seq<Matchup>, week: int, hasType: bool): seq<Entry> {
    var s := Staged(v, ms, week, hasType);
    SelectGames(OrderedFirstOccurrences(v, s, FirstOccurrence(v, s)))
  }

  // ---------------------------------------------------------------------
  // Properties
  // ---------------------------------------------------------------------

  /** Every first occurrence is the earliest candidate record of its pair, and every candidate's pair is present. */
  lemma {:induction false} FirstOccurrenceIsEarliest(v: Variant, ms: seq<Matchup>, k: TeamPair)
    ensures k in FirstOccurrence(v, ms) <==> exists i :: 0 <= i < |ms| && IsCandidate(v, ms[i]) && PairOf(ms[i]) == k
    ensures k in FirstOccurrence(v, ms) ==>
      exists i :: 0 <= i < |ms| && ms[i] == FirstOccurrence(v, ms)[k] && IsCandidate(v, ms[i]) && PairOf(ms[i]) == k &&
        forall j :: 0 <= j < i && IsCandidate(v, ms[j]) ==> PairOf(ms[j]) != k
  {
    if ms != [] {
      var p := ms[..|ms| - 1];
      var m := ms[|ms| - 1];
      FirstOccurrenceIsEarliest(v, p, k);
      var fo := FirstOccurrence(v, p);
      if k in fo {
        var i :| 0 <= i < |p| && p[i] == fo[k] && IsCandidate(v, p[i]) && PairOf(p[i]) == k &&
          forall j :: 0 <= j < i && IsCandidate(v, p[j]) ==> PairOf(p[j]) != k;
        assert ms[i] == p[i];
        forall j | 0 <= j < i && IsCandidate(v, ms[j]) ensures PairOf(ms[j]) != k {
          assert ms[j] == p[j];
        }
      } else {
        forall j | 0 <= j < |p| && IsCandidate(v, ms[j]) ensures PairOf(ms[j]) != k {
          assert ms[j] == p[j];
        }
      }
      forall i | 0 <= i < |p| && IsCandidate(v, p[i]) && PairOf(p[i]) == k
        ensures k in FirstOccurrence(v, ms)
      {
        assert k in fo;
      }
    }
  }

  /**
   * With the intended guard, the ordered pass lists exactly the first
   * occurrences, each pair once, each with its `first_occurrence` record.
   */
  lemma {:induction false} OrderedAgreesWithFirstOccurrence(v: Variant, ms: seq<Matchup>, fo: map<TeamPair, Matchup>)
    requires FirstOccurrence(v, ms).Keys <= fo.Keys
    ensures var o := OrderedFirstOccurrences(v, ms, fo);
      && PairsOf(o) == FirstOccurrence(v, ms).Keys
      && DistinctPairs(o)
      && forall i :: 0 <= i < |o| ==> o[i].0 in FirstOccurrence(v, ms) && o[i].1 == FirstOccurrence(v, ms)[o[i].0]
  {
    if ms != [] {
      var p := ms[..|ms| - 1];
      var m := ms[|ms| - 1];
      assert FirstOccurrence(v, p).Keys <= FirstOccurrence(v, ms).Keys;
      OrderedAgreesWithFirstOccurrence(v, p, fo);
      var o := OrderedFirstOccurrences(v, p, fo);
      assert OrderedFirstOccurrences(v, ms, fo) == OrderedPass(ms, fo, (m: Matchup) => IsCandidate(v, m));
      if IsCandidate(v, m) && PairOf(m) !in FirstOccurrence(v, p) {
        var o' := o + [(PairOf(m), m)];
        PairsOfAppend(o, (PairOf(m), m));
      }
    }
  }

  /** The ordered pass keeps each pair at most once, with that pair's record, a record of the input. */
  lemma {:induction false} OrderedPassWellFormed(ms: seq<Matchup>, fo: map<TeamPair, Matchup>, guard: Matchup -> bool)
    requires forall i :: 0 <= i < |ms| && guard(ms[i]) ==> HasIds(ms[i])
    ensures var o := OrderedPass(ms, fo, guard);
      && DistinctPairs(o)
      && PairsOf(o) <= fo.Keys
      && forall i :: 0 <= i < |o| ==> o[i].1 in ms && guard(o[i].1) && HasIds(o[i].1) && PairOf(o[i].1) == o[i].0
  {
    if ms != [] {
      var p := ms[..|ms| - 1];
      OrderedPassWellFormed(p, fo, guard);
      var o := OrderedPass(p, fo, guard);
      var m := ms[|ms| - 1];
      forall i | 0 <= i < |o| ensures o[i].1 in ms {
        assert o[i].1 in p;
      }
      if guard(m) && PairOf(m) in fo && PairOf(m) !in PairsOf(o) {
        var o' := o + [(PairOf(m), m)];
        PairsOfAppend(o, (PairOf(m), m));
        forall i, j | 0 <= i < j < |o'| ensures o'[i].0 != o'[j].0 {
          if j == |o| {
            assert o'[i].0 in PairsOf(o);
          }
        }
      }
    }
  }

  lemma TeamsOfAppend(g: seq<Entry>, e: Entry)
    ensures TeamsOf(g + [e]) == TeamsOf(g) + {e.0.lo, e.0.hi}
  {
    assert (g + [e])[..|g|] == g;
  }

  lemma {:induction false} TeamsOfMember(g: seq<Entry>, i: nat)
    requires i < |g|
    ensures g[i].0.lo in TeamsOf(g) && g[i].0.hi in TeamsOf(g)
  {
    if i < |g| - 1 {
      TeamsOfMember(g[..|g| - 1], i);
    }
  }

  /** The greedy pass takes at most five entries of `o`, in order, no two sharing a team. */
  lemma {:induction false} GreedyWellFormed(o: seq<Entry>)
    ensures var g := Greedy(o);
      && |g| <= WeekGames
      && TeamDisjoint(g)
      && (forall i :: 0 <= i < |g| ==> g[i] in o)
  {
    if o != [] {
      var p := o[..|o| - 1];
      GreedyWellFormed(p);
      var g := Greedy(p);
      var e := o[|o| - 1];
      forall i | 0 <= i < |g| ensures g[i] in o {
        assert g[i] in p;
      }
      if |g| < WeekGames && e.0.lo !in TeamsOf(g) && e.0.hi !in TeamsOf(g) {
        var g' := g + [e];
        forall i, j | 0 <= i < j < |g'| ensures {g'[i].0.lo, g'[i].0.hi} !! {g'[j].0.lo, g'[j].0.hi} {
          if j == |g| {
            TeamsOfMember(g, i);
          }
        }
      }
    }
  }

  /**
   * At most five games are selected, all from the ordered list; if the
   * greedy pass reached five they are team-disjoint, otherwise they are the
   * first (at most) five ordered entries.
   */
  lemma SelectGamesShape(o: seq<Entry>)
    ensures var r := SelectGames(o);
      && |r| <= WeekGames
      && (forall i :: 0 <= i < |r| ==> r[i] in o)
      && (|Greedy(o)| == WeekGames ==> r == Greedy(o) && TeamDisjoint(r))
      && (|Greedy(o)| < WeekGames ==> r == o[..Min(WeekGames, |o|)])
  {
    GreedyWellFormed(o);
    var r := SelectGames(o);
    forall i | 0 <= i < |r| ensures r[i] in o {
      if |Greedy(o)| < WeekGames {
        assert r[i] == o[i];
      }
    }
  }

  /** Appearances count at least the occurrences contributed by two distinct games. */
  lemma {:induction false} AppearancesOfTwo(vs: seq<Matchup>, t: int, i: nat, j: nat)
    requires i < j < |vs|
    ensures Appearances(vs, t) >= (if vs[i].homeId == Some(t) then 1 else 0) + (if vs[i].awayId == Some(t) then 1 else 0)
                                 + (if vs[j].homeId == Some(t) then 1 else 0) + (if vs[j].awayId == Some(t) then 1 else 0)
  {
    var p := vs[..|vs| - 1];
    if j == |vs| - 1 {
      AppearancesOfOne(p, t, i);
      assert p[i] == vs[i];
    } else {
      AppearancesOfTwo(p, t, i, j);
      assert p[i] == vs[i] && p[j] == vs[j];
    }
  }

  lemma {:induction false} AppearancesOfOne(vs: seq<Matchup>, t: int, i: nat)
    requires i < |vs|
    ensures Appearances(vs, t) >= (if vs[i].homeId == Some(t) then 1 else 0) + (if vs[i].awayId == Some(t) then 1 else 0)
  {
    var p := vs[..|vs| - 1];
    if i < |vs| - 1 {
      AppearancesOfOne(p, t, i);
      assert p[i] == vs[i];
    }
  }

  /**
   * The validation's "each team exactly once" makes the accepted games a
   * pairing: no game pits a team against itself and no two games share a team.
   */
  lemma EachTeamOnceIsPairing(vs: seq<Matchup>)
    requires forall i :: 0 <= i < |vs| ==> HasIds(vs[i])
    requires EachTeamOnce(vs)
    ensures forall i :: 0 <= i < |vs| ==> vs[i].homeId != vs[i].awayId && |Sides(vs[i])| == 2
    ensures forall i, j :: 0 <= i < j < |vs| ==> Sides(vs[i]) !! Sides(vs[j])
  {
    forall i | 0 <= i < |vs| ensures vs[i].homeId != vs[i].awayId && |Sides(vs[i])| == 2 {
      AppearancesOfOne(vs, vs[i].homeId.value, i);
      assert Sides(vs[i]) == {vs[i].homeId.value} + {vs[i].awayId.value};
    }
    forall i, j | 0 <= i < j < |vs| ensures Sides(vs[i]) !! Sides(vs[j]) {
      forall t | t in Sides(vs[i]) ensures t !in Sides(vs[j]) {
        AppearancesOfTwo(vs, t, i, j);
      }
    }
  }

  /** The distinct teams of a list of games. */
  function TeamSet(vs: seq<Matchup>): set<int> {
    if vs == [] then {} else TeamSet(vs[..|vs| - 1]) + Sides(vs[|vs| - 1])
  }

  lemma {:induction false} TeamSetWitness(vs: seq<Matchup>, t: int) returns (i: nat)
    requires t in TeamSet(vs)
    ensures i < |vs| && t in Sides(vs[i])
  {
    var p := vs[..|vs| - 1];
    if t in Sides(vs[|vs| - 1]) {
      i := |vs| - 1;
    } else {
      i := TeamSetWitness(p, t);
      assert p[i] == vs[i];
    }
  }

  /** Disjoint games of two teams each cover twice as many teams as there are games. */
  lemma {:induction false} PairingTeamCount(vs: seq<Matchup>)
    requires forall i :: 0 <= i < |vs| ==> |Sides(vs[i])| == 2
    requires forall i, j :: 0 <= i < j < |vs| ==> Sides(vs[i]) !! Sides(vs[j])
    ensures |TeamSet(vs)| == 2 * |vs|
  {
    if vs != [] {
      var p := vs[..|vs| - 1];
      var m := vs[|vs| - 1];
      assert forall i :: 0 <= i < |p| ==> p[i] == vs[i];
      PairingTeamCount(p);
      assert TeamSet(p) !! Sides(m) by {
        forall t | t in TeamSet(p) ensures t !in Sides(m) {
          var i := TeamSetWitness(p, t);
          assert p[i] == vs[i];
        }
      }
      assert |TeamSet(p) * Sides(m)| == 0;
    }
  }

  /**
   * When strategy 1 is accepted, its validated games form a full pairing:
   * five games over ten distinct teams, each team in exactly one game, and
   * every record carried forward has `matchup_period_id == week`.
   */
  lemma PeriodStageAccepted(v: Variant, ms: seq<Matchup>, week: int)
    requires HasPeriodIds(ms) && PeriodAccepted(v, ms, week)
    ensures var r := PeriodStage(v, ms, week);
      && (forall i :: 0 <= i < |r| ==> r[i].periodId == Some(week) && r[i] in ms)
      && |Validated(v, r)| == WeekGames
      && |TeamSet(Validated(v, r))| == 2 * WeekGames
  {
    var vs := Validated(v, PeriodFiltered(ms, week));
    EachTeamOnceIsPairing(vs);
    PairingTeamCount(vs);
  }

  /** Strategy 1 never changes the list unless the period identifiers are there and validate. */
  lemma PeriodStageFallsBack(v: Variant, ms: seq<Matchup>, week: int)
    requires !HasPeriodIds(ms) || !PeriodAccepted(v, ms, week)
    ensures PeriodStage(v, ms, week) == ms
    ensures ResolveWeek(v, ms, week, false) == SelectGames(OrderedAsWritten(v, ms, FirstOccurrence(v, ms)))
  {
  }

  /** The staged list holds records of the week's input list only. */
  lemma StagedFromInput(v: Variant, ms: seq<Matchup>, week: int, hasType: bool)
    ensures forall i :: 0 <= i < |Staged(v, ms, week, hasType)| ==> Staged(v, ms, week, hasType)[i] in ms
  {
    var s1 := PeriodStage(v, ms, week);
    var s := TagStage(s1, hasType);
    forall i | 0 <= i < |s| ensures s[i] in ms {
      assert s[i] in s1;
    }
  }

  /**
   * The selection over an ordered pass with any guard: at most five entries
   * with distinct pairs, each a guarded record of the list, with a pair
   * known to the first-occurrence map.
   */
  lemma {:induction false} SelectedFromPass(ms: seq<Matchup>, fo: map<TeamPair, Matchup>, guard: Matchup -> bool)
    requires forall i :: 0 <= i < |ms| && guard(ms[i]) ==> HasIds(ms[i])
    ensures var r := SelectGames(OrderedPass(ms, fo, guard));
      && |r| <= WeekGames
      && DistinctPairs(r)
      && forall i :: 0 <= i < |r| ==>
           && r[i].1 in ms && guard(r[i].1) && HasIds(r[i].1) && PairOf(r[i].1) == r[i].0 && r[i].0 in fo
  {
    OrderedPassWellFormed(ms, fo, guard);
    var o := OrderedPass(ms, fo, guard);
    SelectGamesShape(o);
    var r := SelectGames(o);
    forall i, j | 0 <= i < j < |r| ensures r[i].0 != r[j].0 {
      if |Greedy(o)| < WeekGames {
        assert r[i] == o[i] && r[j] == o[j];
      } else {
        assert {r[i].0.lo, r[i].0.hi} !! {r[j].0.lo, r[j].0.hi};
      }
    }
    forall i | 0 <= i < |r| ensures r[i].1 in ms && guard(r[i].1) && PairOf(r[i].1) == r[i].0 && r[i].0 in fo {
      var k :| 0 <= k < |o| && o[k] == r[i];
      assert o[k].0 in PairsOf(o);
    }
  }

  /**
   * What a resolved week holds, as the code runs it: at most five entries
   * with distinct pairs, each a record of the week's input list that has
   * both team identifiers and a winner or a positive tie, for a team pair
   * that has a record passing the whole first-occurrence filter. The record
   * kept need not be that filtered record (see
   * `OrderedAsWrittenKeepsRejectedRecord`).
   */
  lemma ResolveWeekSound(v: Variant, ms: seq<Matchup>, week: int, hasType: bool)
    ensures var r := ResolveWeek(v, ms, week, hasType);
      && |r| <= WeekGames
      && DistinctPairs(r)
      && forall i :: 0 <= i < |r| ==>
           && r[i].1 in ms && PassesOrderedGuard(v, r[i].1) && HasIds(r[i].1) && PairOf(r[i].1) == r[i].0
           && exists m :: m in ms && IsCandidate(v, m) && PairOf(m) == r[i].0
  {
    var s := Staged(v, ms, week, hasType);
    StagedFromInput(v, ms, week, hasType);
    var fo := FirstOccurrence(v, s);
    SelectedFromPass(s, fo, (m: Matchup) => PassesOrderedGuard(v, m));
    var r := ResolveWeek(v, ms, week, hasType);
    forall i | 0 <= i < |r| ensures exists m :: m in ms && IsCandidate(v, m) && PairOf(m) == r[i].0 {
      FirstOccurrenceIsEarliest(v, s, r[i].0);
      var j :| 0 <= j < |s| && IsCandidate(v, s[j]) && PairOf(s[j]) == r[i].0;
      assert s[j] in ms;
    }
  }

  /**
   * The intended cascade keeps only records that pass the whole
   * first-occurrence filter, each the first occurrence of its pair.
   */
  lemma ResolveWeekIntendedSound(v: Variant, ms: seq<Matchup>, week: int, hasType: bool)
    ensures var r := ResolveWeekIntended(v, ms, week, hasType);
      var fo := FirstOccurrence(v, Staged(v, ms, week, hasType));
      && |r| <= WeekGames
      && DistinctPairs(r)
      && forall i :: 0 <= i < |r| ==>
           && r[i].1 in ms && IsCandidate(v, r[i].1) && PairOf(r[i].1) == r[i].0
           && r[i].0 in fo && fo[r[i].0] == r[i].1
  {
    var s := Staged(v, ms, week, hasType);
    StagedFromInput(v, ms, week, hasType);
    var fo := FirstOccurrence(v, s);
    SelectedFromPass(s, fo, (m: Matchup) => IsCandidate(v, m));
    OrderedAgreesWithFirstOccurrence(v, s, fo);
    var o := OrderedFirstOccurrences(v, s, fo);
    SelectGamesShape(o);
    var r := ResolveWeekIntended(v, ms, week, hasType);
    forall i | 0 <= i < |r| ensures fo[r[i].0] == r[i].1 {
      var k :| 0 <= k < |o| && o[k] == r[i];
    }
  }

  /** The ordered pass depends on its guard only through the records of the list. */
  lemma {:induction false} OrderedPassGuardsAgree(ms: seq<Matchup>, fo: map<TeamPair, Matchup>, g1: Matchup -> bool, g2: Matchup -> bool)
    requires forall i :: 0 <= i < |ms| && g1(ms[i]) ==> HasIds(ms[i])
    requires forall i :: 0 <= i < |ms| ==> g1(ms[i]) == g2(ms[i])
    ensures OrderedPass(ms, fo, g1) == OrderedPass(ms, fo, g2)
  {
    if ms != [] {
      var p := ms[..|ms| - 1];
      assert forall i :: 0 <= i < |p| ==> p[i] == ms[i];
      OrderedPassGuardsAgree(p, fo, g1, g2);
    }
  }

  /**
   * The written and the intended cascade pick the same games whenever every
   * record of the week that passes the ordered pass's guard also passes the
   * first-occurrence filter; the first finding needs a record that passes
   * one and not the other.
   */
  lemma ResolveWeekAgrees(v: Variant, ms: seq<Matchup>, week: int, hasType: bool)
    requires forall i :: 0 <= i < |ms| && PassesOrderedGuard(v, ms[i]) ==> IsCandidate(v, ms[i])
    ensures ResolveWeek(v, ms, week, hasType) == ResolveWeekIntended(v, ms, week, hasType)
  {
    var s := Staged(v, ms, week, hasType);
    StagedFromInput(v, ms, week, hasType);
    forall i | 0 <= i < |s| ensures PassesOrderedGuard(v, s[i]) == IsCandidate(v, s[i]) {
      assert s[i] in ms;
    }
    OrderedPassGuardsAgree(s, FirstOccurrence(v, s), (m: Matchup) => PassesOrderedGuard(v, m), (m: Matchup) => IsCandidate(v, m));
  }

  /**
   * The ordered pass as written can keep a record the first-occurrence
   * filter rejected: here a 40-30 record of teams 1 and 2 precedes their
   * real 100-90 game, and it is the 40-30 record that is kept and tallied.
   */
  lemma OrderedAsWrittenKeepsRejectedRecord()
    ensures var placeholder := Matchup(1, Some(1), Some(2), "Ann", "Bob", 40.0, 30.0, Some(1), None, None, false, false);
      var game := Matchup(1, Some(1), Some(2), "Ann", "Bob", 100.0, 90.0, Some(1), None, None, false, false);
      var ms := [placeholder, game];
      var fo := FirstOccurrence(HeadToHeadCopy, ms);
      && fo == map[TeamPair(1, 2) := game]
      && !IsCandidate(HeadToHeadCopy, placeholder)
      && OrderedAsWritten(HeadToHeadCopy, ms, fo) == [(TeamPair(1, 2), placeholder)]
      && OrderedFirstOccurrences(HeadToHeadCopy, ms, fo) == [(TeamPair(1, 2), game)]
  {
    var placeholder := Matchup(1, Some(1), Some(2), "Ann", "Bob", 40.0, 30.0, Some(1), None, None, false, false);
    var game := Matchup(1, Some(1), Some(2), "Ann", "Bob", 100.0, 90.0, Some(1), None, None, false, false);
    var ms := [placeholder, game];
    assert ms[..1] == [placeholder];
    assert [placeholder][..0] == [];
    assert Contains("Ann", "Team None") == false by {
      assert Contains("nn", "Team None") == false by {
        assert Contains("n", "Team None") == false by {
          assert Contains("", "Team None") == false;
        }
      }
    }
    assert Contains("Bob", "Team None") == false by {
      assert Contains("ob", "Team None") == false by {
        assert Contains("b", "Team None") == false by {
          assert Contains("", "Team None") == false;
        }
      }
    }
    assert !IsCandidate(HeadToHeadCopy, placeholder);
    assert IsCandidate(HeadToHeadCopy, game);
    assert PairOf(game) == TeamPair(1, 2) && PairOf(placeholder) == TeamPair(1, 2);
    assert FirstOccurrence(HeadToHeadCopy, [placeholder]) == map[];
    var fo := FirstOccurrence(HeadToHeadCopy, ms);
    assert fo == map[TeamPair(1, 2) := game];
    var weak := (m: Matchup) => PassesOrderedGuard(HeadToHeadCopy, m);
    var strong := (m: Matchup) => IsCandidate(HeadToHeadCopy, m);
    assert OrderedPass([], fo, weak) == [];
    assert OrderedPass([placeholder], fo, weak) == [(TeamPair(1, 2), placeholder)];
    PairsOfAppend([], (TeamPair(1, 2), placeholder));
    assert OrderedPass(ms, fo, weak) == [(TeamPair(1, 2), placeholder)];
    assert OrderedPass([placeholder], fo, strong) == [];
    PairsOfAppend([], (TeamPair(1, 2), game));
    assert OrderedPass(ms, fo, strong) == [(TeamPair(1, 2), game)];
  }

  // ---------------------------------------------------------------------
  // The loops
  // ---------------------------------------------------------------------

  /** `team_counts` and the "each team exactly once" test (lines 115-123). */
  method TeamsAppearOnce(vs: seq<Matchup>) returns (once: bool)
    requires forall i :: 0 <= i < |vs| ==> HasIds(vs[i])
    ensures once == EachTeamOnce(vs)
  {
    var counts: map<int, nat> := map[];
    var i := 0;
    while i < |vs|
      invariant 0 <= i <= |vs|
      invariant forall t :: t in counts <==> Appearances(vs[..i], t) > 0
      invariant forall t :: t in counts ==> counts[t] == Appearances(vs[..i], t)
    {
      assert vs[..i + 1][..i] == vs[..i];
      var h, a := vs[i].homeId.value, vs[i].awayId.value;
      counts := counts[h := (if h in counts then counts[h] else 0) + 1];
      counts := counts[a := (if a in counts then counts[a] else 0) + 1];
      i := i + 1;
    }
    assert vs[..|vs|] == vs;
    once := forall t | t in counts :: counts[t] == 1;
    if once {
      forall i, t | 0 <= i < |vs| && t in Sides(vs[i]) ensures Appearances(vs, t) == 1 {
        AppearancesOfOne(vs, t, i);
      }
    }
    if EachTeamOnce(vs) {
      forall t | t in counts ensures counts[t] == 1 {
        var k := AppearingGame(vs, t);
        assert t in Sides(vs[k]);
      }
    }
  }

  /** A team that appears is a side of some game. */
  lemma {:induction false} AppearingGame(vs: seq<Matchup>, t: int) returns (k: nat)
    requires Appearances(vs, t) > 0
    ensures k < |vs| && (vs[k].homeId == Some(t) || vs[k].awayId == Some(t))
  {
    var p := vs[..|vs| - 1];
    var m := vs[|vs| - 1];
    if m.homeId == Some(t) || m.awayId == Some(t) {
      k := |vs| - 1;
    } else {
      k := AppearingGame(p, t);
      assert p[k] == vs[k];
    }
  }

  /** Strategy 1 as the source runs it (lines 77-136). */
  method ApplyPeriodStage(v: Variant, weekMatchups: seq<Matchup>, week: int) returns (r: seq<Matchup>)
    ensures r == PeriodStage(v, weekMatchups, week)
  {
    var original := weekMatchups;
    r := weekMatchups;
    var hasPeriodId := false;
    var i := 0;
    while i < Min(5, |weekMatchups|)
      invariant 0 <= i <= Min(5, |weekMatchups|)
      invariant hasPeriodId <==> exists j :: 0 <= j < i && weekMatchups[j].periodId.Some?
    {
      hasPeriodId := hasPeriodId || weekMatchups[i].periodId.Some?;
      i := i + 1;
    }
    if hasPeriodId {
      var filtered := FilterLoop(weekMatchups, (m: Matchup) => InPeriod(week, m));
      if filtered != [] {
        var valid := FilterLoop(filtered, (m: Matchup) => PassesValidation(v, m));
        if |valid| == WeekGames {
          var once := TeamsAppearOnce(valid);
          if once {
            r := filtered;
          } else {
            r := original;
          }
        } else {
          r := original;
        }
      } else {
        r := original;
      }
    }
  }

  /** Strategy 2 (lines 138-151). */
  method ApplyTagStage(weekMatchups: seq<Matchup>, hasType: bool) returns (r: seq<Matchup>)
    ensures r == TagStage(weekMatchups, hasType)
  {
    r := weekMatchups;
    if hasType {
      var scheduled := FilterLoop(weekMatchups, IsScheduled);
      if scheduled != [] {
        r := scheduled;
      }
    }
  }

  /** The first-occurrence loop with its `seen_pairs` set (lines 153-204). */
  method CollectFirstOccurrences(v: Variant, weekMatchups: seq<Matchup>) returns (fo: map<TeamPair, Matchup>)
    ensures fo == FirstOccurrence(v, weekMatchups)
  {
    fo := map[];
    var seenPairs: set<TeamPair> := {};
    var i := 0;
    while i < |weekMatchups|
      invariant 0 <= i <= |weekMatchups|
      invariant fo == FirstOccurrence(v, weekMatchups[..i])
      invariant seenPairs == fo.Keys
    {
      assert weekMatchups[..i + 1][..i] == weekMatchups[..i];
      var m := weekMatchups[i];
      if IsCandidate(v, m) {
        var pair := PairOf(m);
        if pair !in seenPairs {
          seenPairs := seenPairs + {pair};
          fo := fo[pair := m];
        }
      }
      i := i + 1;
    }
    assert weekMatchups[..|weekMatchups|] == weekMatchups;
  }

  /** The ordered pass with its `seen_in_order` set and its weak guard (lines 210-231, 425-440). */
  method OrderFirstOccurrences(v: Variant, weekMatchups: seq<Matchup>, fo: map<TeamPair, Matchup>) returns (ordered: seq<Entry>)
    ensures ordered == OrderedAsWritten(v, weekMatchups, fo)
  {
    ghost var guard := (m: Matchup) => PassesOrderedGuard(v, m);
    ordered := [];
    var seenInOrder: set<TeamPair> := {};
    var i := 0;
    while i < |weekMatchups|
      invariant 0 <= i <= |weekMatchups|
      invariant ordered == OrderedPass(weekMatchups[..i], fo, guard)
      invariant seenInOrder == PairsOf(ordered)
    {
      assert weekMatchups[..i + 1][..i] == weekMatchups[..i];
      var m := weekMatchups[i];
      if PassesOrderedGuard(v, m) {
        var pair := PairOf(m);
        if pair in fo && pair !in seenInOrder {
          PairsOfAppend(ordered, (pair, m));
          seenInOrder := seenInOrder + {pair};
          ordered := ordered + [(pair, m)];
        }
      }
      i := i + 1;
    }
    assert weekMatchups[..|weekMatchups|] == weekMatchups;
  }

  /** The greedy selection with its `used_teams` set and the "first five" fall-back (lines 233-253). */
  method SelectWeekGames(ordered: seq<Entry>) returns (selected: seq<Entry>)
    ensures selected == SelectGames(ordered)
  {
    selected := [];
    var usedTeams: set<int> := {};
    var i := 0;
    while i < |ordered| && |selected| < WeekGames
      invariant 0 <= i <= |ordered|
      invariant selected == Greedy(ordered[..i])
      invariant usedTeams == TeamsOf(selected)
    {
      assert ordered[..i + 1][..i] == ordered[..i];
      var (pair, m) := ordered[i];
      if pair.lo !in usedTeams && pair.hi !in usedTeams {
        TeamsOfAppend(selected, (pair, m));
        selected := selected + [(pair, m)];
        usedTeams := usedTeams + {pair.lo, pair.hi};
      }
      i := i + 1;
    }
    GreedyStops(ordered, i);
    if |selected| < WeekGames {
      selected := ordered[..Min(WeekGames, |ordered|)];
    }
  }

  /** Once five games are picked, the rest of the list changes nothing (the loop's `break`). */
  lemma {:induction false} GreedyStops(o: seq<Entry>, i: nat)
    requires i <= |o|
    requires i == |o| || |Greedy(o[..i])| >= WeekGames
    ensures Greedy(o) == Greedy(o[..i])
    decreases |o| - i
  {
    if i < |o| {
      var n := |o|;
      assert o[..n][..n - 1] == o[..n - 1];
      if i < n - 1 {
        assert o[..n - 1][..i] == o[..i];
        GreedyStops(o[..n - 1], i);
      } else {
        assert o[..n - 1] == o[..i];
      }
    } else {
      assert o[..i] == o;
    }
  }

  /**
   * One week of either copy, as the source runs it: strategy 1, strategy 2,
   * the first-occurrence and ordered passes, and the greedy selection.
   */
  method ResolveWeekGames(v: Variant, weekMatchups: seq<Matchup>, week: int, hasType: bool) returns (selected: seq<Entry>)
    ensures selected == ResolveWeek(v, weekMatchups, week, hasType)
    ensures |selected| <= WeekGames && DistinctPairs(selected)
    ensures forall i :: 0 <= i < |selected| ==> selected[i].1 in weekMatchups && PassesOrderedGuard(v, selected[i].1)
  {
    var afterPeriod := ApplyPeriodStage(v, weekMatchups, week);
    var afterTag := ApplyTagStage(afterPeriod, hasType);
    var fo := CollectFirstOccurrences(v, afterTag);
    var ordered := OrderFirstOccurrences(v, afterTag, fo);
    selected := SelectWeekGames(ordered);
    ResolveWeekSound(v, weekMatchups, week, hasType);
  }
}
