/**
 * scripts/calculate_power_rankings.py: the weekly power rankings of one
 * season. Every week each manager gets three tie-averaged ranks, for
 * cumulative wins, cumulative points and cumulative all-play
 * ("theoretical") wins, on an inverted scale where the best of `n`
 * managers is ranked `n` and the worst 1; their sum orders the week.
 */
module PowerRankings {
  import opened Core
  import opened Sorting
  import opened Matchups
  import opened Reconcile
  import opened League

  // ---------------------------------------------------------------------
  // get_valid_regular_season_matchups (lines 50-91)
  // ---------------------------------------------------------------------

  /** The period filter of this copy: the week's period and not a playoff record (line 58). */
  predicate InRegularPeriod(week: int, m: Matchup) {
    InPeriod(week, m) && !m.isPlayoff
  }

  /** `valid_matchups`: the records of the week's period, in order. */
  function RegularPeriod(ms: seq<Matchup>, week: int): (r: seq<Matchup>)
    ensures forall i :: 0 <= i < |r| ==> r[i] in ms && InRegularPeriod(week, r[i])
    ensures forall i :: 0 <= i < |ms| && InRegularPeriod(week, ms[i]) ==> ms[i] in r
  {
    if ms == [] then []
    else RegularPeriod(ms[..|ms| - 1], week) + (if InRegularPeriod(week, ms[|ms| - 1]) then [ms[|ms| - 1]] else [])
  }

  /** The record filter of the first-occurrence pass: both ids, not 0-0, not both under 50, decided (lines 73-82). */
  predicate Countable(m: Matchup) {
    HasIds(m) && Plausible(m) && Decided(m)
  }

  /** `seen_pairs` and `first_occurrence` after a prefix of the list. */
  datatype Occurrences = Occurrences(seen: set<TeamPair>, kept: seq<Matchup>)

  function Occur(ms: seq<Matchup>): (o: Occurrences)
    ensures forall i :: 0 <= i < |o.kept| ==> Countable(o.kept[i])
  {
    if ms == [] then Occurrences({}, [])
    else
      var o := Occur(ms[..|ms| - 1]);
      var m := ms[|ms| - 1];
      if Countable(m) && PairOf(m) !in o.seen then Occurrences(o.seen + {PairOf(m)}, o.kept + [m]) else o
  }

  /** What `get_valid_regular_season_matchups` returns; the type flag is not used. */
  function ValidRegularSeasonMatchups(ms: seq<Matchup>, week: int): seq<Matchup> {
    var valid := RegularPeriod(ms, week);
    if valid != [] then Occur(valid).kept else []
  }

  /** Reference: the earliest countable record of `ms` for the team pair `p`. */
  function FirstWithPair(ms: seq<Matchup>, p: TeamPair): Option<Matchup> {
    if ms == [] then None
    else
      var r := FirstWithPair(ms[..|ms| - 1], p);
      var m := ms[|ms| - 1];
      if r.Some? then r else if Countable(m) && PairOf(m) == p then Some(m) else None
  }

  /**
   * The pass keeps countable records only, one per team pair, each the
   * earliest countable record of its pair; a pair is seen exactly when
   * some countable record has it.
   */
  lemma {:induction false} OccurMeaning(ms: seq<Matchup>)
    ensures forall i :: 0 <= i < |Occur(ms).kept| ==> Occur(ms).kept[i] in ms
    ensures forall i, j :: 0 <= i < j < |Occur(ms).kept| ==> PairOf(Occur(ms).kept[i]) != PairOf(Occur(ms).kept[j])
    ensures forall i :: 0 <= i < |Occur(ms).kept| ==> FirstWithPair(ms, PairOf(Occur(ms).kept[i])) == Some(Occur(ms).kept[i])
    ensures forall p :: p in Occur(ms).seen <==> FirstWithPair(ms, p).Some?
    ensures forall j :: 0 <= j < |ms| && Countable(ms[j]) ==> PairOf(ms[j]) in Occur(ms).seen
  {
    if ms != [] {
      var p := ms[..|ms| - 1];
      var m := ms[|ms| - 1];
      OccurMeaning(p);
      var o := Occur(p);
      forall j | 0 <= j < |ms| && Countable(ms[j]) ensures PairOf(ms[j]) in Occur(ms).seen {
        if j < |p| {
          assert ms[j] == p[j];
        }
      }
      forall i | 0 <= i < |o.kept| ensures o.kept[i] in ms {
        assert o.kept[i] in p;
      }
    }
  }

  /**
   * The valid matchups of a week are non-playoff records of its period that
   * pass the record filter, one per team pair, each the earliest such record
   * of its pair; every such record's pair is represented, and a week with no
   * record of its period has none.
   */
  lemma ValidMatchupsMeaning(ms: seq<Matchup>, week: int)
    ensures var r := ValidRegularSeasonMatchups(ms, week);
      && (forall i :: 0 <= i < |r| ==> r[i] in ms && InRegularPeriod(week, r[i]) && Countable(r[i]))
      && (forall i, j :: 0 <= i < j < |r| ==> PairOf(r[i]) != PairOf(r[j]))
      && (forall i :: 0 <= i < |r| ==> FirstWithPair(RegularPeriod(ms, week), PairOf(r[i])) == Some(r[i]))
    ensures (forall j :: 0 <= j < |ms| ==> !InRegularPeriod(week, ms[j])) ==> ValidRegularSeasonMatchups(ms, week) == []
    ensures forall j :: 0 <= j < |ms| && InRegularPeriod(week, ms[j]) && Countable(ms[j]) ==>
      exists i :: 0 <= i < |ValidRegularSeasonMatchups(ms, week)| && PairOf(ValidRegularSeasonMatchups(ms, week)[i]) == PairOf(ms[j])
  {
    var valid := RegularPeriod(ms, week);
    OccurMeaning(valid);
    var o := Occur(valid);
    forall i | 0 <= i < |o.kept| ensures o.kept[i] in ms && InRegularPeriod(week, o.kept[i]) {
      assert o.kept[i] in valid;
    }
    forall j | 0 <= j < |ms| && InRegularPeriod(week, ms[j]) && Countable(ms[j])
      ensures exists i :: 0 <= i < |o.kept| && PairOf(o.kept[i]) == PairOf(ms[j])
    {
      var k :| 0 <= k < |valid| && valid[k] == ms[j];
      var p := PairOf(ms[j]);
      assert p in o.seen;
      var f := FirstWithPair(valid, p).value;
      FirstWithPairKept(valid, p);
    }
    if valid != [] {
      assert valid[0] in valid;
    }
  }

  /** A seen pair's earliest record is kept. */
  lemma {:induction false} FirstWithPairKept(ms: seq<Matchup>, p: TeamPair)
    requires FirstWithPair(ms, p).Some?
    ensures exists i :: 0 <= i < |Occur(ms).kept| && Occur(ms).kept[i] == FirstWithPair(ms, p).value && PairOf(Occur(ms).kept[i]) == p
  {
    var q := ms[..|ms| - 1];
    var m := ms[|ms| - 1];
    OccurMeaning(q);
    if FirstWithPair(q, p).Some? {
      FirstWithPairKept(q, p);
      var i :| 0 <= i < |Occur(q).kept| && Occur(q).kept[i] == FirstWithPair(q, p).value && PairOf(Occur(q).kept[i]) == p;
      assert Occur(ms).kept[i] == Occur(q).kept[i];
    } else {
      assert p !in Occur(q).seen;
      assert Occur(ms).kept[|Occur(q).kept|] == m;
    }
  }

  /** `get_valid_regular_season_matchups`: its two loops, and the early return when the week has no regular-season record. */
  method GetValidRegularSeasonMatchups(weekMatchups: seq<Matchup>, week: int, hasMatchupType: bool) returns (r: seq<Matchup>)
    ensures r == ValidRegularSeasonMatchups(weekMatchups, week)
  {
    var valid := CollectRegularPeriod(weekMatchups, week);
    if valid == [] {
      return [];
    }
    r := KeepFirstOccurrences(valid);
  }

  /** The first loop: the records of period `week` that are not playoff games. */
  method CollectRegularPeriod(weekMatchups: seq<Matchup>, week: int) returns (valid: seq<Matchup>)
    ensures valid == RegularPeriod(weekMatchups, week)
  {
    valid := [];
    var i := 0;
    while i < |weekMatchups|
      invariant 0 <= i <= |weekMatchups|
      invariant valid == RegularPeriod(weekMatchups[..i], week)
    {
      assert weekMatchups[..i + 1][..i] == weekMatchups[..i];
      var m := weekMatchups[i];
      if m.periodId == Some(week) && !m.isPlayoff {
        valid := valid + [m];
      }
      i := i + 1;
    }
    assert weekMatchups[..i] == weekMatchups;
  }

  /** The second loop: the first countable record of each team pair, in order. */
  method KeepFirstOccurrences(valid: seq<Matchup>) returns (firstOccurrence: seq<Matchup>)
    ensures firstOccurrence == Occur(valid).kept
  {
    var seenPairs: set<TeamPair> := {};
    firstOccurrence := [];
    var k := 0;
    while k < |valid|
      invariant 0 <= k <= |valid|
      invariant Occurrences(seenPairs, firstOccurrence) == Occur(valid[..k])
    {
      assert valid[..k + 1][..k] == valid[..k];
      var m := valid[k];
      if HasIds(m) && !(m.homeScore == 0.0 && m.awayScore == 0.0) && !(m.homeScore < 50.0 && m.awayScore < 50.0) {
        var isTie := m.homeScore == m.awayScore && m.homeScore > 0.0;
        if HasWinner(m) || isTie {
          var teamPair := PairOf(m);
          if teamPair !in seenPairs {
            seenPairs := seenPairs + {teamPair};
            firstOccurrence := firstOccurrence + [m];
          }
        }
      }
      k := k + 1;
    }
    assert valid[..k] == valid;
  }

  // ---------------------------------------------------------------------
  // calculate_rank_with_ties (lines 93-127)
  // ---------------------------------------------------------------------

  /** An entry of `values`: the value ranked and the manager it belongs to. */
  type Valued = (real, string)

  /** `key=lambda x: x[0], reverse=True` */
  function ValueBefore(a: Valued, b: Valued): bool { a.0 > b.0 }

  lemma ValueOrder()
    ensures StrictOrder(ValueBefore)
  {
  }

  /** `sorted_values` */
  function ByValue(values: seq<Valued>): seq<Valued> {
    SortBy(values, ValueBefore)
  }

  /** The first position of the run of equal values that holds position `k`. */
  function RunStart(s: seq<Valued>, k: nat): (r: nat)
    requires k < |s|
    ensures r <= k && (forall t :: r <= t <= k ==> s[t].0 == s[k].0)
    ensures r == 0 || s[r - 1].0 != s[k].0
  {
    if k > 0 && s[k - 1].0 == s[k].0 then RunStart(s, k - 1) else k
  }

  /** One past the last position of the run of equal values that holds position `k`. */
  function RunEnd(s: seq<Valued>, k: nat): (r: nat)
    requires k < |s|
    ensures k < r <= |s| && (forall t :: k <= t < r ==> s[t].0 == s[k].0)
    ensures r == |s| || s[r].0 != s[k].0
    decreases |s| - k
  {
    if k + 1 < |s| && s[k + 1].0 == s[k].0 then RunEnd(s, k + 1) else k + 1
  }

  /** The rank of position `k`: the mean of the inverted ranks its run of equal values spans. */
  function AverageRank(s: seq<Valued>, totalTeams: int, k: nat): real
    requires k < |s|
  {
    RankSpan(s, totalTeams, k) as real / 2.0
  }

  /** `rank_start + rank_end` for the run of position `k`. */
  function RankSpan(s: seq<Valued>, totalTeams: int, k: nat): int
    requires k < |s|
  {
    var i, j := RunStart(s, k), RunEnd(s, k);
    (totalTeams - j + 1) + (totalTeams - i)
  }

  /** A maximal stretch of equal values `[i, j)` is the run of each of its positions. */
  lemma RunIs(s: seq<Valued>, i: nat, j: nat, k: nat)
    requires i <= k < j <= |s|
    requires forall t :: i <= t < j ==> s[t].0 == s[k].0
    requires i == 0 || s[i - 1].0 != s[k].0
    requires j == |s| || s[j].0 != s[k].0
    ensures RunStart(s, k) == i && RunEnd(s, k) == j
  {
  }

  /** No later position before `i` carries the name at position `k`. */
  predicate LastBefore(s: seq<Valued>, k: nat, i: nat) {
    forall t :: k < t < i && t < |s| ==> s[t].1 != s[k].1
  }

  /** `ranks` after the runs of `s[..i]`: each name seen so far holds the rank of its last position. */
  ghost predicate RanksUpTo(ranks: map<string, real>, s: seq<Valued>, totalTeams: int, i: nat)
    requires i <= |s|
  {
    && (forall m :: m in ranks <==> exists k :: 0 <= k < i && s[k].1 == m)
    && (forall k {:trigger LastBefore(s, k, i)} :: 0 <= k < i && LastBefore(s, k, i) ==> s[k].1 in ranks && ranks[s[k].1] == AverageRank(s, totalTeams, k))
  }

  /** The ranks `calculate_rank_with_ties` returns for the sorted values `s`. */
  ghost predicate RanksOf(ranks: map<string, real>, s: seq<Valued>, totalTeams: int) {
    RanksUpTo(ranks, s, totalTeams, |s|)
  }

  /** `for manager in tie_group: ranks[manager] = avg_rank` */
  method AssignGroup(ranks: map<string, real>, group: seq<string>, avgRank: real) returns (ranks': map<string, real>)
    ensures forall m :: m in ranks' <==> m in ranks || m in group
    ensures forall m :: m in group ==> ranks'[m] == avgRank
    ensures forall m :: m in ranks && m !in group ==> ranks'[m] == ranks[m]
  {
    ranks' := ranks;
    var g := 0;
    while g < |group|
      invariant 0 <= g <= |group|
      invariant forall m :: m in ranks' <==> m in ranks || m in group[..g]
      invariant forall m :: m in group[..g] ==> ranks'[m] == avgRank
      invariant forall m :: m in ranks && m !in group[..g] ==> ranks'[m] == ranks[m]
    {
      assert group[..g + 1] == group[..g] + [group[g]];
      ranks' := ranks'[group[g] := avgRank];
      g := g + 1;
    }
    assert group[..g] == group;
  }

  /** One run assigned: the names ranked are those of one more run. */
  lemma RunNamesAssigned(ranks: map<string, real>, ranks': map<string, real>, s: seq<Valued>, i: nat, j: nat, group: seq<string>)
    requires i < j <= |s|
    requires forall m :: m in ranks <==> exists k :: 0 <= k < i && s[k].1 == m
    requires |group| == j - i && forall t :: 0 <= t < |group| ==> group[t] == s[i + t].1
    requires forall m :: m in ranks' <==> m in ranks || m in group
    ensures forall m :: m in ranks' <==> exists k :: 0 <= k < j && s[k].1 == m
  {
    forall m ensures m in ranks' <==> exists k :: 0 <= k < j && s[k].1 == m {
      if m in group {
        var t :| 0 <= t < |group| && group[t] == m;
        assert s[i + t].1 == m;
      }
      if exists k :: 0 <= k < j && s[k].1 == m {
        var k :| 0 <= k < j && s[k].1 == m;
        if k >= i {
          assert group[k - i] == m;
        }
      }
    }
  }

  /** One run assigned: each name of it holds the run's rank, and the last rank of every earlier name stays. */
  lemma RunRanksAssigned(ranks: map<string, real>, ranks': map<string, real>, s: seq<Valued>, totalTeams: int,
    i: nat, j: nat, group: seq<string>, avgRank: real)
    requires i < j <= |s|
    requires forall k {:trigger LastBefore(s, k, i)} :: 0 <= k < i && LastBefore(s, k, i) ==> s[k].1 in ranks && ranks[s[k].1] == AverageRank(s, totalTeams, k)
    requires forall t :: i <= t < j ==> s[t].0 == s[i].0
    requires i == 0 || s[i - 1].0 != s[i].0
    requires j == |s| || s[j].0 != s[i].0
    requires |group| == j - i && forall t :: 0 <= t < |group| ==> group[t] == s[i + t].1
    requires avgRank == ((totalTeams - j + 1) + (totalTeams - i)) as real / 2.0
    requires forall m :: m in ranks' <==> m in ranks || m in group
    requires forall m :: m in group ==> ranks'[m] == avgRank
    requires forall m :: m in ranks && m !in group ==> ranks'[m] == ranks[m]
    ensures forall k {:trigger LastBefore(s, k, j)} :: 0 <= k < j && LastBefore(s, k, j) ==> s[k].1 in ranks' && ranks'[s[k].1] == AverageRank(s, totalTeams, k)
  {
    forall k | 0 <= k < j && LastBefore(s, k, j) ensures s[k].1 in ranks' && ranks'[s[k].1] == AverageRank(s, totalTeams, k) {
      if k >= i {
        assert group[k - i] == s[k].1;
        RunIs(s, i, j, k);
      } else {
        assert LastBefore(s, k, i);
        forall t | 0 <= t < |group| ensures group[t] != s[k].1 {
          assert group[t] == s[i + t].1;
        }
      }
    }
  }

  /** The inner loop: the names of the run of values equal to `s[i]`'s, and where it ends. */
  method TieGroup(s: seq<Valued>, i: nat) returns (j: nat, tieGroup: seq<string>)
    requires i < |s|
    ensures i < j <= |s| && (forall t :: i <= t < j ==> s[t].0 == s[i].0)
    ensures j == |s| || s[j].0 != s[i].0
    ensures |tieGroup| == j - i && forall t :: 0 <= t < |tieGroup| ==> tieGroup[t] == s[i + t].1
  {
    var value := s[i].0;
    tieGroup := [];
    j := i;
    while j < |s| && s[j].0 == value
      invariant i <= j <= |s|
      invariant forall t :: i <= t < j ==> s[t].0 == value
      invariant |tieGroup| == j - i && forall t :: 0 <= t < |tieGroup| ==> tieGroup[t] == s[i + t].1
    {
      tieGroup := tieGroup + [s[j].1];
      j := j + 1;
    }
  }

  /** The nested `while` loops of `calculate_rank_with_ties`. */
  method RankWithTies(values: seq<Valued>, totalTeams: int) returns (ranks: map<string, real>)
    ensures RanksOf(ranks, ByValue(values), totalTeams)
    ensures ranks == RankingOf(values, totalTeams)
  {
    var s := SortBy(values, ValueBefore);
    ranks := map[];
    var i := 0;
    while i < |s|
      invariant 0 <= i <= |s|
      invariant 0 < i < |s| ==> s[i - 1].0 != s[i].0
      invariant RanksUpTo(ranks, s, totalTeams, i)
      decreases |s| - i
    {
      var j, tieGroup := TieGroup(s, i);
      var rankStart := totalTeams - j + 1;
      var rankEnd := totalTeams - i;
      var avgRank := (rankStart + rankEnd) as real / 2.0;
      var ranks' := AssignGroup(ranks, tieGroup, avgRank);
      RunNamesAssigned(ranks, ranks', s, i, j, tieGroup);
      RunRanksAssigned(ranks, ranks', s, totalTeams, i, j, tieGroup, avgRank);
      ranks := ranks';
      i := j;
    }
    RankingUpTo(s, totalTeams, |s|);
    RanksUpToUnique(ranks, Ranking(s, totalTeams, |s|), s, totalTeams, |s|);
  }

  // ---------------------------------------------------------------------
  // What the ranks promise
  // ---------------------------------------------------------------------

  /** With as many teams as entries, every position's rank lies in [1, total_teams]. */
  lemma RankWithinScale(s: seq<Valued>, k: nat)
    requires k < |s|
    ensures 1.0 <= AverageRank(s, |s|, k) <= |s| as real
  {
    var i, j := RunStart(s, k), RunEnd(s, k);
    assert 1 <= ((|s| - j + 1) + (|s| - i)) / 1 <= 2 * |s|;
  }

  lemma TiedRanksOrdered(s: seq<Valued>, totalTeams: int, a: nat, b: nat)
    requires SortedBy(s, ValueBefore) && a <= b < |s| && s[a].0 == s[b].0
    ensures AverageRank(s, totalTeams, a) == AverageRank(s, totalTeams, b)
  {
    var i, j := RunStart(s, a), RunEnd(s, b);
    forall t | i <= t < j ensures s[t].0 == s[a].0 {
      if a < t < b {
        assert !ValueBefore(s[t], s[a]) && !ValueBefore(s[b], s[t]);
      }
    }
    RunIs(s, i, j, a);
    RunIs(s, i, j, b);
  }

  /** In non-increasing order, equal values share their run and hence their rank. */
  lemma TiedRanksEqual(s: seq<Valued>, totalTeams: int, a: nat, b: nat)
    requires SortedBy(s, ValueBefore) && a < |s| && b < |s| && s[a].0 == s[b].0
    ensures AverageRank(s, totalTeams, a) == AverageRank(s, totalTeams, b)
  {
    if a <= b {
      TiedRanksOrdered(s, totalTeams, a, b);
    } else {
      TiedRanksOrdered(s, totalTeams, b, a);
    }
  }

  /** In non-increasing order, a strictly higher value has a strictly higher rank. */
  lemma HigherRanksHigher(s: seq<Valued>, totalTeams: int, a: nat, b: nat)
    requires SortedBy(s, ValueBefore) && a < |s| && b < |s| && s[a].0 > s[b].0
    ensures AverageRank(s, totalTeams, a) > AverageRank(s, totalTeams, b)
  {
    assert a < b by {
      if b < a {
        assert false;
      }
    }
    var ia, ea := RunStart(s, a), RunEnd(s, a);
    var ib, eb := RunStart(s, b), RunEnd(s, b);
    assert a < ib;
    assert s[ib].0 == s[b].0;
    assert ea <= ib;
  }

  /** The ranks of the first `k` positions added up. */
  function RankTotal(s: seq<Valued>, totalTeams: int, k: nat): real
    requires k <= |s|
  {
    if k == 0 then 0.0 else RankTotal(s, totalTeams, k - 1) + AverageRank(s, totalTeams, k - 1)
  }

  /** Twice `RankTotal`, in integers. */
  function SpanTotal(s: seq<Valued>, totalTeams: int, k: nat): int
    requires k <= |s|
  {
    if k == 0 then 0 else SpanTotal(s, totalTeams, k - 1) + RankSpan(s, totalTeams, k - 1)
  }

  lemma {:induction false} RankTotalIsHalfSpan(s: seq<Valued>, totalTeams: int, k: nat)
    requires k <= |s|
    ensures RankTotal(s, totalTeams, k) == SpanTotal(s, totalTeams, k) as real / 2.0
  {
    if k > 0 {
      RankTotalIsHalfSpan(s, totalTeams, k - 1);
    }
  }

  /** `n` copies of `d` added up. */
  function Steps(n: nat, d: int): int {
    if n == 0 then 0 else Steps(n - 1, d) + d
  }

  lemma {:induction false} StepsIsProduct(n: nat, d: int)
    ensures Steps(n, d) == n * d
  {
    if n > 0 {
      StepsIsProduct(n - 1, d);
    }
  }

  /** A run `[i, j)` of spans `2T - i - j + 1` adds what positions `i..j-1` with ranks `T - p` would. */
  lemma RunSpanSum(i: int, j: int, T: int)
    ensures (2 * i * T - i * (i - 1)) + (j - i) * ((T - j + 1) + (T - i)) == 2 * j * T - j * (j - 1)
  {
  }

  /** Every position of the maximal run `[i, j)` has the run's span. */
  lemma SpanInRun(s: seq<Valued>, totalTeams: int, i: nat, j: nat)
    requires i < j <= |s|
    requires forall t :: i <= t < j ==> s[t].0 == s[i].0
    requires i == 0 || s[i - 1].0 != s[i].0
    requires j == |s| || s[j].0 != s[i].0
    ensures forall t :: i <= t < j ==> RankSpan(s, totalTeams, t) == (totalTeams - j + 1) + (totalTeams - i)
  {
    forall t | i <= t < j ensures RankSpan(s, totalTeams, t) == (totalTeams - j + 1) + (totalTeams - i) {
      RunIs(s, i, j, t);
    }
  }

  lemma SpanStep(s: seq<Valued>, totalTeams: int, k: nat, d: int)
    requires 0 < k <= |s| && RankSpan(s, totalTeams, k - 1) == d
    ensures SpanTotal(s, totalTeams, k) == SpanTotal(s, totalTeams, k - 1) + d
  {
  }

  /** Equal spans `d` across `[i, k)` make each step of the running total add `d`. */
  lemma TotalSteps(s: seq<Valued>, totalTeams: int, i: nat, k: nat, d: int)
    requires i <= k <= |s|
    requires forall t :: i <= t < k ==> RankSpan(s, totalTeams, t) == d
    ensures forall t :: i <= t < k ==> SpanTotal(s, totalTeams, t + 1) == SpanTotal(s, totalTeams, t) + d
  {
    forall t | i <= t < k ensures SpanTotal(s, totalTeams, t + 1) == SpanTotal(s, totalTeams, t) + d {
      SpanStep(s, totalTeams, t + 1, d);
    }
  }

  /** A running total that grows by `d` at every step from `i` to `k` grows by `k - i` copies of `d`. */
  lemma {:induction false} RunSteps(s: seq<Valued>, totalTeams: int, i: nat, k: nat, d: int)
    requires i <= k <= |s|
    requires forall t :: i <= t < k ==> SpanTotal(s, totalTeams, t + 1) == SpanTotal(s, totalTeams, t) + d
    ensures SpanTotal(s, totalTeams, k) == SpanTotal(s, totalTeams, i) + Steps(k - i, d)
    decreases k - i
  {
    if k > i {
      RunSteps(s, totalTeams, i, k - 1, d);
      assert Steps(k - i, d) == Steps(k - 1 - i, d) + d;
    }
  }

  /** Across a stretch `[i, k)` of equal spans `d`, the total grows by `(k - i) * d`. */
  lemma RunTotal(s: seq<Valued>, totalTeams: int, i: nat, k: nat, d: int)
    requires i <= k <= |s|
    requires forall t :: i <= t < k ==> RankSpan(s, totalTeams, t) == d
    ensures SpanTotal(s, totalTeams, k) == SpanTotal(s, totalTeams, i) + (k - i) * d
  {
    TotalSteps(s, totalTeams, i, k, d);
    RunSteps(s, totalTeams, i, k, d);
    StepsIsProduct(k - i, d);
  }

  /** Up to a run boundary `j`, the spans add up to `2jT - j(j-1)`, as if each position `p` had rank `T - p`. */
  lemma {:induction false} BoundaryTotal(s: seq<Valued>, totalTeams: int, j: nat)
    requires j <= |s| && (j == 0 || j == |s| || s[j - 1].0 != s[j].0)
    ensures SpanTotal(s, totalTeams, j) == 2 * j * totalTeams - j * (j - 1)
    decreases j
  {
    if j > 0 {
      var i := RunStart(s, j - 1);
      SpanInRun(s, totalTeams, i, j);
      BoundaryTotal(s, totalTeams, i);
      RunTotal(s, totalTeams, i, j, (totalTeams - j + 1) + (totalTeams - i));
      RunSpanSum(i, j, totalTeams);
    }
  }

  lemma HalfTotal(total: int, n: int)
    requires total == 2 * n * n - n * (n - 1)
    ensures total as real / 2.0 == (n * (n + 1)) as real / 2.0
  {
    assert total == n * (n + 1);
  }

  /** With as many teams as entries, the ranks of all positions add up to `n(n+1)/2`. */
  lemma RankSum(s: seq<Valued>)
    ensures RankTotal(s, |s|, |s|) == (|s| * (|s| + 1)) as real / 2.0
  {
    var n := |s|;
    BoundaryTotal(s, n, n);
    RankTotalIsHalfSpan(s, n, n);
    HalfTotal(SpanTotal(s, n, n), n);
  }

  // ---------------------------------------------------------------------
  // The ranks by manager
  // ---------------------------------------------------------------------

  /**
   * The returned dictionary as a value: position by position, each name is
   * assigned its position's rank, so a name keeps the rank of its last
   * position.
   */
  function Ranking(s: seq<Valued>, totalTeams: int, n: nat): map<string, real>
    requires n <= |s|
  {
    if n == 0 then map[] else Ranking(s, totalTeams, n - 1)[s[n - 1].1 := AverageRank(s, totalTeams, n - 1)]
  }

  /** What `calculate_rank_with_ties(values, total_teams)` returns. */
  function RankingOf(values: seq<Valued>, totalTeams: int): map<string, real> {
    Ranking(ByValue(values), totalTeams, |values|)
  }

  lemma {:induction false} RankingUpTo(s: seq<Valued>, totalTeams: int, n: nat)
    requires n <= |s|
    ensures RanksUpTo(Ranking(s, totalTeams, n), s, totalTeams, n)
  {
    if n > 0 {
      RankingUpTo(s, totalTeams, n - 1);
      RankStep(Ranking(s, totalTeams, n - 1), s, totalTeams, n, AverageRank(s, totalTeams, n - 1));
    }
  }

  /** Assigning position `n - 1` its rank extends the ranks of the prefix by one position. */
  lemma RankStep(r: map<string, real>, s: seq<Valued>, totalTeams: int, n: nat, v: real)
    requires 0 < n <= |s| && RanksUpTo(r, s, totalTeams, n - 1) && v == AverageRank(s, totalTeams, n - 1)
    ensures RanksUpTo(r[s[n - 1].1 := v], s, totalTeams, n)
  {
    RankStepNames(r, s, n);
    RankStepValues(r, s, totalTeams, n, v);
  }

  lemma RankStepNames(r: map<string, real>, s: seq<Valued>, n: nat)
    requires 0 < n <= |s| && (forall m :: m in r <==> exists k :: 0 <= k < n - 1 && s[k].1 == m)
    ensures forall m :: m in r || m == s[n - 1].1 <==> exists k :: 0 <= k < n && s[k].1 == m
  {
    var x := s[n - 1].1;
    forall m ensures m in r || m == x <==> exists k :: 0 <= k < n && s[k].1 == m {
      if m in r && m != x {
        var k :| 0 <= k < n - 1 && s[k].1 == m;
        assert 0 <= k < n && s[k].1 == m;
      }
      if m == x {
        assert s[n - 1].1 == m;
      }
    }
  }

  lemma RankStepValues(r: map<string, real>, s: seq<Valued>, totalTeams: int, n: nat, v: real)
    requires 0 < n <= |s| && RanksUpTo(r, s, totalTeams, n - 1) && v == AverageRank(s, totalTeams, n - 1)
    ensures forall k {:trigger LastBefore(s, k, n)} :: 0 <= k < n && LastBefore(s, k, n) ==>
      s[k].1 in r[s[n - 1].1 := v] && r[s[n - 1].1 := v][s[k].1] == AverageRank(s, totalTeams, k)
  {
    var x := s[n - 1].1;
    var r' := r[x := v];
    forall k | 0 <= k < n && LastBefore(s, k, n) ensures s[k].1 in r' && r'[s[k].1] == AverageRank(s, totalTeams, k) {
      if k < n - 1 {
        assert s[n - 1].1 != s[k].1;
        assert LastBefore(s, k, n - 1);
      }
    }
  }

  /** The position of the last occurrence, before `i`, of the name at position `k`. */
  lemma {:induction false} LastPosition(s: seq<Valued>, k: nat, i: nat) returns (l: nat)
    requires k < i <= |s|
    ensures k <= l < i && s[l].1 == s[k].1 && LastBefore(s, l, i)
    decreases i - k
  {
    if LastBefore(s, k, i) {
      l := k;
    } else {
      var t :| k < t < i && t < |s| && s[t].1 == s[k].1;
      l := LastPosition(s, t, i);
    }
  }

  /** The ranks after a prefix are determined by it. */
  lemma RanksUpToUnique(a: map<string, real>, b: map<string, real>, s: seq<Valued>, totalTeams: int, i: nat)
    requires i <= |s| && RanksUpTo(a, s, totalTeams, i) && RanksUpTo(b, s, totalTeams, i)
    ensures a == b
  {
    forall m | m in a ensures m in b && a[m] == b[m] {
      var k :| 0 <= k < i && s[k].1 == m;
      var l := LastPosition(s, k, i);
    }
  }

  /** No manager occurs twice in `values`. */
  predicate DistinctNames(values: seq<Valued>) {
    forall i, j :: 0 <= i < j < |values| ==> values[i].1 != values[j].1
  }

  /** Where entry `a` of `values` ends up in the sorted values. */
  lemma Locate(values: seq<Valued>, a: nat) returns (k: nat)
    requires a < |values|
    ensures k < |ByValue(values)| && ByValue(values)[k] == values[a]
  {
    assert values[a] in multiset(ByValue(values));
    k :| 0 <= k < |ByValue(values)| && ByValue(values)[k] == values[a];
  }

  /** Sorting keeps the names distinct. */
  lemma SortedDistinct(values: seq<Valued>)
    requires DistinctNames(values)
    ensures DistinctNames(ByValue(values))
  {
    var s := ByValue(values);
    forall i, j | 0 <= i < j < |s| ensures s[i].1 != s[j].1 {
      assert s[i] in multiset(values) && s[j] in multiset(values);
      var a :| 0 <= a < |values| && values[a] == s[i];
      var b :| 0 <= b < |values| && values[b] == s[j];
      if a == b {
        RemoveAt(s, i, j, s[i]);
        TwoPositions(values, s[i]);
      }
    }
  }

  /** With distinct names, each name holds the rank of its one position. */
  lemma RankAtPosition(s: seq<Valued>, totalTeams: int, k: nat)
    requires DistinctNames(s) && k < |s|
    ensures s[k].1 in Ranking(s, totalTeams, |s|) && Ranking(s, totalTeams, |s|)[s[k].1] == AverageRank(s, totalTeams, k)
  {
    RankingUpTo(s, totalTeams, |s|);
    assert LastBefore(s, k, |s|);
  }

  /** The sorted values are ordered by `ValueBefore`. */
  lemma ByValueSorted(values: seq<Valued>)
    ensures SortedBy(ByValue(values), ValueBefore)
  {
    ValueOrder();
    SortByIsSorted(values, ValueBefore);
  }

  /** Every manager is ranked, on the scale 1 to `n` when ranked against as many teams as there are entries. */
  lemma RanksWithinScale(values: seq<Valued>, a: nat)
    requires DistinctNames(values) && a < |values|
    ensures values[a].1 in RankingOf(values, |values|)
    ensures 1.0 <= RankingOf(values, |values|)[values[a].1] <= |values| as real
  {
    SortedDistinct(values);
    var k := Locate(values, a);
    RankAtPosition(ByValue(values), |values|, k);
    RankWithinScale(ByValue(values), k);
  }

  /** Managers with equal values get the same rank. */
  lemma TiesShareRank(values: seq<Valued>, totalTeams: int, a: nat, b: nat)
    requires DistinctNames(values) && a < |values| && b < |values| && values[a].0 == values[b].0
    ensures values[a].1 in RankingOf(values, totalTeams) && values[b].1 in RankingOf(values, totalTeams)
    ensures RankingOf(values, totalTeams)[values[a].1] == RankingOf(values, totalTeams)[values[b].1]
  {
    SortedDistinct(values);
    ByValueSorted(values);
    var ka := Locate(values, a);
    var kb := Locate(values, b);
    RankAtPosition(ByValue(values), totalTeams, ka);
    RankAtPosition(ByValue(values), totalTeams, kb);
    TiedRanksEqual(ByValue(values), totalTeams, ka, kb);
  }

  /** A manager with a strictly higher value gets a strictly higher rank. */
  lemma HigherValueHigherRank(values: seq<Valued>, totalTeams: int, a: nat, b: nat)
    requires DistinctNames(values) && a < |values| && b < |values| && values[a].0 > values[b].0
    ensures values[a].1 in RankingOf(values, totalTeams) && values[b].1 in RankingOf(values, totalTeams)
    ensures RankingOf(values, totalTeams)[values[a].1] > RankingOf(values, totalTeams)[values[b].1]
  {
    SortedDistinct(values);
    ByValueSorted(values);
    var ka := Locate(values, a);
    var kb := Locate(values, b);
    RankAtPosition(ByValue(values), totalTeams, ka);
    RankAtPosition(ByValue(values), totalTeams, kb);
    HigherRanksHigher(ByValue(values), totalTeams, ka, kb);
  }

  /** The ranks of the entries' managers added up (an unranked manager adds 0). */
  function RankSumOver(vs: seq<Valued>, ranks: map<string, real>): real {
    if vs == [] then 0.0
    else RankSumOver(vs[..|vs| - 1], ranks) + (if vs[|vs| - 1].1 in ranks then ranks[vs[|vs| - 1].1] else 0.0)
  }

  lemma {:induction false} RankSumOverAppend(a: seq<Valued>, b: seq<Valued>, ranks: map<string, real>)
    ensures RankSumOver(a + b, ranks) == RankSumOver(a, ranks) + RankSumOver(b, ranks)
    decreases |b|
  {
    if b == [] {
      assert a + b == a;
    } else {
      assert (a + b)[..|a + b| - 1] == a + b[..|b| - 1];
      RankSumOverAppend(a, b[..|b| - 1], ranks);
    }
  }

  /** Taking out the entry at position `j` takes its rank out of the sum. */
  lemma RankSumOverRemove(b: seq<Valued>, j: nat, ranks: map<string, real>)
    requires j < |b|
    ensures RankSumOver(b, ranks) == RankSumOver(b[..j] + b[j + 1..], ranks) + (if b[j].1 in ranks then ranks[b[j].1] else 0.0)
  {
    assert b == (b[..j] + [b[j]]) + b[j + 1..];
    RankSumOverAppend(b[..j] + [b[j]], b[j + 1..], ranks);
    RankSumOverAppend(b[..j], b[j + 1..], ranks);
    assert (b[..j] + [b[j]])[..j] == b[..j];
  }

  /** Taking the last entry of `a` and an equal entry of `b` out of equal multisets leaves equal multisets. */
  lemma MultisetRemove(a: seq<Valued>, b: seq<Valued>, j: nat)
    requires a != [] && j < |b| && b[j] == a[|a| - 1] && multiset(a) == multiset(b)
    ensures multiset(a[..|a| - 1]) == multiset(b[..j] + b[j + 1..])
  {
    var x := b[j];
    assert a == a[..|a| - 1] + [x];
    assert b == b[..j] + [x] + b[j + 1..];
    assert multiset(b[..j] + b[j + 1..]) == multiset(b) - multiset{x};
    assert multiset(a[..|a| - 1]) == multiset(a) - multiset{x};
  }

  /** The sum does not depend on the order of the entries. */
  lemma {:induction false} RankSumOverPermutation(a: seq<Valued>, b: seq<Valued>, ranks: map<string, real>)
    requires multiset(a) == multiset(b)
    ensures RankSumOver(a, ranks) == RankSumOver(b, ranks)
    decreases |a|
  {
    if a == [] {
      assert |b| == |multiset(b)| == 0;
    } else {
      var x := a[|a| - 1];
      assert x in multiset(b);
      var j :| 0 <= j < |b| && b[j] == x;
      MultisetRemove(a, b, j);
      RankSumOverPermutation(a[..|a| - 1], b[..j] + b[j + 1..], ranks);
      RankSumOverRemove(b, j, ranks);
    }
  }

  /** Over the sorted values themselves, the sum is the positional total. */
  lemma {:induction false} RankSumOverSorted(s: seq<Valued>, totalTeams: int, n: nat)
    requires DistinctNames(s) && n <= |s|
    ensures RankSumOver(s[..n], Ranking(s, totalTeams, |s|)) == RankTotal(s, totalTeams, n)
  {
    if n > 0 {
      assert s[..n][..n - 1] == s[..n - 1];
      RankSumOverSorted(s, totalTeams, n - 1);
      RankAtPosition(s, totalTeams, n - 1);
    }
  }

  /** Summing the managers' ranks over the entries is summing over the sorted entries. */
  lemma RanksSumReordered(values: seq<Valued>)
    ensures RankSumOver(values, RankingOf(values, |values|)) == RankSumOver(ByValue(values), RankingOf(values, |values|))
  {
    RankSumOverPermutation(values, ByValue(values), RankingOf(values, |values|));
  }

  /** Over the sorted entries, with distinct names, the managers' ranks add up to the positional total. */
  lemma RanksSumPositional(values: seq<Valued>)
    requires DistinctNames(values)
    ensures RankSumOver(ByValue(values), RankingOf(values, |values|)) == RankTotal(ByValue(values), |values|, |values|)
  {
    var s, n := ByValue(values), |values|;
    SortedDistinct(values);
    RankSumOverSorted(s, n, n);
    assert s[..n] == s;
  }

  /** When `total_teams` is the number of entries, the managers' ranks add up to `n(n+1)/2`. */
  lemma RanksSum(values: seq<Valued>)
    requires DistinctNames(values)
    ensures RankSumOver(values, RankingOf(values, |values|)) == (|values| * (|values| + 1)) as real / 2.0
  {
    RanksSumReordered(values);
    RanksSumPositional(values);
    RankSum(ByValue(values));
  }
}
