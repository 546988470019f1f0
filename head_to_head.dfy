/**
 * `calculate_head_to_head` of scripts/process_data.py:46-324: tally the
 * canonical games of every season by pair of first names, then emit one
 * record per pair, most games first.
 */
module HeadToHead {
  import opened Core
  import opened Sorting
  import opened Matchups
  import opened Reconcile
  import opened League

  /** `pair_key = tuple(sorted([home_first, away_first]))`: two different names, the smaller first. */
  datatype NamePair = NamePair(first: string, second: string)

  function NamePairOf(a: string, b: string): (p: NamePair)
    requires a != b
    ensures StrLt(p.first, p.second)
    ensures (p.first == a && p.second == b) || (p.first == b && p.second == a)
  {
    StrLtTotal(a, b);
    if StrLt(a, b) then NamePair(a, b) else NamePair(b, a)
  }

  /** The key does not depend on which manager was at home. */
  lemma NamePairSymmetric(a: string, b: string)
    requires a != b
    ensures NamePairOf(a, b) == NamePairOf(b, a)
  {
    StrLtTotal(a, b);
    if StrLt(a, b) {
      StrLtAsymmetric(a, b);
    } else {
      StrLtAsymmetric(b, a);
    }
  }

  /** A selected game as the tally sees it: the managers' first names and the scores. */
  datatype NamedGame = NamedGame(home: string, away: string, homeScore: real, awayScore: real)

  function Named(names: map<string, string>, m: Matchup): NamedGame {
    NamedGame(FirstName(names, m.homeManager), FirstName(names, m.awayManager), m.homeScore, m.awayScore)
  }

  function NamedGames(names: map<string, string>, games: seq<Game>): (r: seq<NamedGame>)
    ensures |r| == |games| && forall i :: 0 <= i < |games| ==> r[i] == Named(names, games[i].matchup)
  {
    if games == [] then []
    else
      var p := games[..|games| - 1];
      assert forall i :: 0 <= i < |p| ==> p[i] == games[i];
      NamedGames(names, p) + [Named(names, games[|games| - 1].matchup)]
  }

  /** The game is counted for pair `p`: different first names, which make up `p`. */
  predicate Between(g: NamedGame, p: NamePair) {
    g.home != g.away && NamePairOf(g.home, g.away) == p
  }

  /** The first name of the strictly higher scorer, if any. */
  function WinnerName(g: NamedGame): Option<string> {
    if g.homeScore > g.awayScore then Some(g.home)
    else if g.awayScore > g.homeScore then Some(g.away)
    else None
  }

  predicate WonBy(g: NamedGame, p: NamePair, name: string) {
    Between(g, p) && WinnerName(g) == Some(name)
  }

  predicate Tied(g: NamedGame, p: NamePair) {
    Between(g, p) && g.homeScore == g.awayScore
  }

  /** `h2h_wins[pair]` and `h2h_ties[pair]` for both managers of a pair. */
  datatype PairTally = PairTally(wins1: nat, wins2: nat, ties1: nat, ties2: nat)

  type Tallies = map<NamePair, PairTally>

  /** `h2h_wins.get(pair, {})` and `h2h_ties.get(pair, {})` with `.get(name, 0)`. */
  function TallyOf(t: Tallies, p: NamePair): PairTally {
    if p in t then t[p] else PairTally(0, 0, 0, 0)
  }

  function Credit(c: PairTally, p: NamePair, name: string): PairTally {
    if name == p.first then c.(wins1 := c.wins1 + 1) else c.(wins2 := c.wins2 + 1)
  }

  /** Record one selected game (lines 263-285). */
  function Count(t: Tallies, g: NamedGame): Tallies {
    if g.home == g.away then t
    else
      var p := NamePairOf(g.home, g.away);
      var c := TallyOf(t, p);
      if g.homeScore > g.awayScore then t[p := Credit(c, p, g.home)]
      else if g.awayScore > g.homeScore then t[p := Credit(c, p, g.away)]
      else t[p := c.(ties1 := c.ties1 + 1, ties2 := c.ties2 + 1)]
  }

  /** The tallies after the listed games, in order. */
  function Tally(gs: seq<NamedGame>): Tallies {
    if gs == [] then map[] else Count(Tally(gs[..|gs| - 1]), gs[|gs| - 1])
  }

  function Indicator(b: bool): nat { if b then 1 else 0 }

  /** One game adds one to exactly the counter of pair `p` that it concerns. */
  lemma CountStep(t: Tallies, g: NamedGame, p: NamePair)
    ensures var c, c' := TallyOf(t, p), TallyOf(Count(t, g), p);
      && c'.wins1 == c.wins1 + Indicator(WonBy(g, p, p.first))
      && c'.wins2 == c.wins2 + Indicator(WonBy(g, p, p.second))
      && c'.ties1 == c.ties1 + Indicator(Tied(g, p))
      && c'.ties2 == c.ties2 + Indicator(Tied(g, p))
      && (p in Count(t, g) <==> p in t || Between(g, p))
      && Indicator(Between(g, p)) == Indicator(WonBy(g, p, p.first)) + Indicator(WonBy(g, p, p.second)) + Indicator(Tied(g, p))
  {
    if Between(g, p) {
      StrLtIrreflexive(p.first);
    }
  }

  /**
   * The tally of a pair counts exactly the games between its managers:
   * the wins of each and the ties (credited to both); the pair is a key
   * iff they met, and every meeting is a win of one of them or a tie.
   */
  lemma {:induction false} TallyCounts(gs: seq<NamedGame>, p: NamePair)
    ensures TallyOf(Tally(gs), p) == PairTally(
      CountWhere(gs, (g: NamedGame) => WonBy(g, p, p.first)),
      CountWhere(gs, (g: NamedGame) => WonBy(g, p, p.second)),
      CountWhere(gs, (g: NamedGame) => Tied(g, p)),
      CountWhere(gs, (g: NamedGame) => Tied(g, p)))
    ensures CountWhere(gs, (g: NamedGame) => Between(g, p)) == TallyOf(Tally(gs), p).wins1 + TallyOf(Tally(gs), p).wins2 + TallyOf(Tally(gs), p).ties1
    ensures p in Tally(gs) <==> CountWhere(gs, (g: NamedGame) => Between(g, p)) > 0
  {
    if gs != [] {
      var q := gs[..|gs| - 1];
      TallyCounts(q, p);
      CountStep(Tally(q), gs[|gs| - 1], p);
    }
  }

  /** Both managers of a pair carry the same number of ties, so `max(ties1, ties2)` is that number. */
  lemma TiesAgree(gs: seq<NamedGame>, p: NamePair)
    requires p in Tally(gs)
    ensures Tally(gs)[p].ties1 == Tally(gs)[p].ties2
  {
    TallyCounts(gs, p);
  }

  // ---------------------------------------------------------------------
  // Result records (lines 287-322)
  // ---------------------------------------------------------------------

  datatype HeadToHeadRecord = HeadToHeadRecord(
    manager1: string, manager2: string,
    manager1Wins: nat, manager2Wins: nat, ties: nat,
    record: string)

  /** `f"{wins1}-{wins2}-{ties}"` if there are ties, else `f"{wins1}-{wins2}"`. */
  function RecordString(wins1: nat, wins2: nat, ties: nat): string {
    if ties > 0 then NatToString(wins1) + "-" + NatToString(wins2) + "-" + NatToString(ties)
    else NatToString(wins1) + "-" + NatToString(wins2)
  }

  function RowOf(p: NamePair, c: PairTally): HeadToHeadRecord {
    var ties := if c.ties1 >= c.ties2 then c.ties1 else c.ties2;
    HeadToHeadRecord(p.first, p.second, c.wins1, c.wins2, ties, RecordString(c.wins1, c.wins2, ties))
  }

  /** `wins1 + wins2 + ties > 0` */
  predicate Played(c: PairTally) {
    c.wins1 + c.wins2 + (if c.ties1 >= c.ties2 then c.ties1 else c.ties2) > 0
  }

  function TotalGames(r: HeadToHeadRecord): nat {
    r.manager1Wins + r.manager2Wins + r.ties
  }

  /** The sort key of line 322, descending. */
  predicate MoreGames(a: HeadToHeadRecord, b: HeadToHeadRecord) {
    TotalGames(a) > TotalGames(b)
  }

  lemma MoreGamesStrict()
    ensures StrictOrder(MoreGames)
  {
  }

  /** Every tallied pair has played, so the `> 0` test never drops one. */
  lemma TalliedPairsPlayed(gs: seq<NamedGame>, p: NamePair)
    requires p in Tally(gs)
    ensures Played(Tally(gs)[p])
    ensures RowOf(p, Tally(gs)[p]).ties == Tally(gs)[p].ties1
  {
    TallyCounts(gs, p);
  }

  /** The pair a result row is about. */
  function KeyOf(r: HeadToHeadRecord): NamePair {
    NamePair(r.manager1, r.manager2)
  }

  /** `rows` are results of tally `t`: each row is the row of its own pair, which played. */
  predicate RowsOf(t: Tallies, rows: seq<HeadToHeadRecord>) {
    forall i :: 0 <= i < |rows| ==> KeyOf(rows[i]) in t && Played(t[KeyOf(rows[i])]) && rows[i] == RowOf(KeyOf(rows[i]), t[KeyOf(rows[i])])
  }

  predicate DistinctKeys(rows: seq<HeadToHeadRecord>) {
    forall i, j :: 0 <= i < j < |rows| ==> KeyOf(rows[i]) != KeyOf(rows[j])
  }

  /**
   * The result loop over `all_pairs`. Python's set iteration order is
   * unspecified, so the loop picks any remaining pair.
   */
  method EmitRecords(t: Tallies) returns (emitted: seq<HeadToHeadRecord>)
    ensures RowsOf(t, emitted) && DistinctKeys(emitted)
    ensures forall p :: p in t && Played(t[p]) ==> RowOf(p, t[p]) in emitted
  {
    emitted := [];
    var remaining := t.Keys;
    while remaining != {}
      invariant remaining <= t.Keys
      invariant RowsOf(t, emitted) && DistinctKeys(emitted)
      invariant forall i :: 0 <= i < |emitted| ==> KeyOf(emitted[i]) !in remaining
      invariant forall p :: p in t && p !in remaining && Played(t[p]) ==> RowOf(p, t[p]) in emitted
      decreases |remaining|
    {
      var p :| p in remaining;
      remaining := remaining - {p};
      if Played(t[p]) {
        emitted := emitted + [RowOf(p, t[p])];
      }
    }
  }

  /** Sorting keeps rows of a tally with distinct pairs. */
  lemma SortKeepsRows(t: Tallies, emitted: seq<HeadToHeadRecord>, results: seq<HeadToHeadRecord>)
    requires multiset(results) == multiset(emitted)
    requires RowsOf(t, emitted) && DistinctKeys(emitted)
    ensures RowsOf(t, results) && DistinctKeys(results)
    ensures forall r :: r in emitted ==> r in results
  {
    forall i | 0 <= i < |results|
      ensures KeyOf(results[i]) in t && Played(t[KeyOf(results[i])]) && results[i] == RowOf(KeyOf(results[i]), t[KeyOf(results[i])])
    {
      assert results[i] in multiset(emitted);
    }
    forall r | r in emitted ensures r in results {
      assert r in multiset(results);
    }
    forall i, j | 0 <= i < j < |results| ensures KeyOf(results[i]) != KeyOf(results[j]) {
      SortedDistinctKeys(emitted, results, i, j);
    }
  }

  /** The result loop and the final sort (lines 287-322). */
  method RecordsOf(t: Tallies) returns (results: seq<HeadToHeadRecord>)
    ensures SortedBy(results, MoreGames)
    ensures RowsOf(t, results) && DistinctKeys(results)
    ensures forall p :: p in t && Played(t[p]) ==> RowOf(p, t[p]) in results
  {
    var emitted := EmitRecords(t);
    MoreGamesStrict();
    results := SortBy(emitted, MoreGames);
    SortByIsSorted(emitted, MoreGames);
    SortKeepsRows(t, emitted, results);
  }

  /** A permutation of rows with distinct pairs has distinct pairs. */
  lemma SortedDistinctKeys(emitted: seq<HeadToHeadRecord>, results: seq<HeadToHeadRecord>, i: nat, j: nat)
    requires multiset(results) == multiset(emitted)
    requires DistinctKeys(emitted)
    requires i < j < |results|
    ensures KeyOf(results[i]) != KeyOf(results[j])
  {
    var x, y := results[i], results[j];
    assert x in multiset(emitted) && y in multiset(emitted);
    var a :| 0 <= a < |emitted| && emitted[a] == x;
    var b :| 0 <= b < |emitted| && emitted[b] == y;
    if a == b {
      RemoveAt(results, i, j, x);
      TwoPositions(emitted, x);
    }
  }

  // ---------------------------------------------------------------------
  // Reading a record string back
  // ---------------------------------------------------------------------

  function DigitValue(c: char): nat
    requires IsDigit(c)
  {
    c as int - '0' as int
  }

  function ParseNat(s: string): nat
    requires AllDigits(s)
  {
    if s == [] then 0 else 10 * ParseNat(s[..|s| - 1]) + DigitValue(s[|s| - 1])
  }

  lemma {:induction false} ParseNatToString(n: nat)
    ensures ParseNat(NatToString(n)) == n
  {
    var s := NatToString(n);
    var d := ['0', '1', '2', '3', '4', '5', '6', '7', '8', '9'][n % 10];
    assert DigitValue(d) == n % 10;
    if n < 10 {
      assert s[..0] == [];
    } else {
      ParseNatToString(n / 10);
      assert s[..|s| - 1] == NatToString(n / 10);
    }
  }

  /** The fields of a string separated by `-`. */
  function Fields(s: string): (f: seq<string>)
    ensures |f| >= 1
  {
    if s == [] then [[]]
    else
      var f := Fields(s[..|s| - 1]);
      var c := s[|s| - 1];
      if c == '-' then f + [[]] else f[..|f| - 1] + [f[|f| - 1] + [c]]
  }

  predicate NoDash(s: string) {
    forall i :: 0 <= i < |s| ==> s[i] != '-'
  }

  lemma {:induction false} FieldsNoDash(x: string, y: string)
    requires NoDash(y)
    ensures Fields(x + y) == Fields(x)[..|Fields(x)| - 1] + [Fields(x)[|Fields(x)| - 1] + y]
  {
    var f := Fields(x);
    var n := |f|;
    if y == [] {
      assert x + y == x;
      assert f[n - 1] + y == f[n - 1];
      assert f[..n - 1] + [f[n - 1]] == f;
    } else {
      var y' := y[..|y| - 1];
      var c := y[|y| - 1];
      assert y == y' + [c];
      FieldsNoDash(x, y');
      FieldsNoDashStep(x, y', c);
    }
  }

  lemma FieldsNoDashStep(x: string, y: string, c: char)
    requires c != '-'
    requires Fields(x + y) == Fields(x)[..|Fields(x)| - 1] + [Fields(x)[|Fields(x)| - 1] + y]
    ensures Fields(x + (y + [c])) == Fields(x)[..|Fields(x)| - 1] + [Fields(x)[|Fields(x)| - 1] + (y + [c])]
  {
    var f := Fields(x);
    var n := |f|;
    AppendSnoc(x, y, c);
    var g := Fields(x + y);
    FieldsSnoc(x + y, c);
    assert g[..|g| - 1] == f[..n - 1];
    assert g[|g| - 1] == f[n - 1] + y;
    AppendSnoc(f[n - 1], y, c);
  }

  /** One more character of a line: a dash opens a field, anything else extends the last one. */
  lemma FieldsSnoc(s: string, c: char)
    ensures var f := Fields(s);
      Fields(s + [c]) == if c == '-' then f + [[]] else f[..|f| - 1] + [f[|f| - 1] + [c]]
  {
    assert (s + [c])[..|s|] == s;
  }


  lemma FieldsDash(x: string)
    ensures Fields(x + "-") == Fields(x) + [[]]
  {
    assert (x + "-")[..|x|] == x;
  }

  lemma DigitsNoDash(n: nat)
    ensures NoDash(NatToString(n))
  {
  }

  /** Splits `a-b` or `a-b-c` into its numbers; ties default to 0. */
  function ParseRecord(s: string): Option<(nat, nat, nat)> {
    var f := Fields(s);
    if (|f| == 2 || |f| == 3) && (forall k :: 0 <= k < |f| ==> f[k] != [] && AllDigits(f[k])) then
      Some((ParseNat(f[0]), ParseNat(f[1]), if |f| == 3 then ParseNat(f[2]) else 0))
    else None
  }

  lemma FieldsOfRecord(a: string, b: string)
    requires NoDash(a) && NoDash(b)
    ensures Fields(a + "-" + b) == [a, b]
  {
    var e: string := [];
    FieldsNoDash(e, a);
    assert e + a == a;
    assert Fields(a) == [a];
    FieldsDash(a);
    assert Fields(a + "-") == [a, e];
    FieldsNoDash(a + "-", b);
    assert e + b == b;
  }

  lemma FieldsOfLongRecord(a: string, b: string, c: string)
    requires NoDash(a) && NoDash(b) && NoDash(c)
    ensures Fields(a + "-" + b + "-" + c) == [a, b, c]
  {
    var e: string := [];
    FieldsOfRecord(a, b);
    FieldsDash(a + "-" + b);
    assert Fields(a + "-" + b + "-") == [a, b, e];
    FieldsNoDash(a + "-" + b + "-", c);
    assert e + c == c;
  }

  /** `a-b` with digit fields reads back as its two numbers and no ties. */
  lemma ParseShortRecord(a: string, b: string)
    requires a != [] && b != [] && AllDigits(a) && AllDigits(b) && NoDash(a) && NoDash(b)
    ensures ParseRecord(a + "-" + b) == Some((ParseNat(a), ParseNat(b), 0))
  {
    FieldsOfRecord(a, b);
    var f := Fields(a + "-" + b);
    assert f[0] == a && f[1] == b;
    assert forall k :: 0 <= k < |f| ==> f[k] != [] && AllDigits(f[k]);
  }

  /** `a-b-c` with digit fields reads back as its three numbers. */
  lemma ParseLongRecord(a: string, b: string, c: string)
    requires a != [] && b != [] && c != [] && AllDigits(a) && AllDigits(b) && AllDigits(c)
    requires NoDash(a) && NoDash(b) && NoDash(c)
    ensures ParseRecord(a + "-" + b + "-" + c) == Some((ParseNat(a), ParseNat(b), ParseNat(c)))
  {
    FieldsOfLongRecord(a, b, c);
    var f := Fields(a + "-" + b + "-" + c);
    assert f[0] == a && f[1] == b && f[2] == c;
    assert forall k :: 0 <= k < |f| ==> f[k] != [] && AllDigits(f[k]);
  }

  /** A record string reads back as the wins and ties it was made from. */
  lemma RecordRoundTrip(wins1: nat, wins2: nat, ties: nat)
    ensures ParseRecord(RecordString(wins1, wins2, ties)) == Some((wins1, wins2, ties))
  {
    var a, b, c := NatToString(wins1), NatToString(wins2), NatToString(ties);
    DigitsNoDash(wins1);
    DigitsNoDash(wins2);
    DigitsNoDash(ties);
    ParseNatToString(wins1);
    ParseNatToString(wins2);
    ParseNatToString(ties);
    if ties > 0 {
      ParseLongRecord(a, b, c);
    } else {
      ParseShortRecord(a, b);
    }
  }

  // ---------------------------------------------------------------------
  // The whole computation
  // ---------------------------------------------------------------------

  /** The tallies of the whole league. */
  function LeagueTally(names: map<string, string>, league: seq<Season>): Tallies {
    Tally(NamedGames(names, LeagueGames(HeadToHeadCopy, league)))
  }

  /** The body of the tally loop: one game credited to its pair (lines 263-285). */
  method CountGame(t: Tallies, g: NamedGame) returns (t': Tallies)
    ensures t' == Count(t, g)
  {
    t' := t;
    if g.home != g.away {
      var pair := NamePairOf(g.home, g.away);
      var c := TallyOf(t, pair);
      if g.homeScore > g.awayScore {
        t' := t[pair := Credit(c, pair, g.home)];
      } else if g.awayScore > g.homeScore {
        t' := t[pair := Credit(c, pair, g.away)];
      } else {
        t' := t[pair := c.(ties1 := c.ties1 + 1, ties2 := c.ties2 + 1)];
      }
    }
  }

  /** One more game of the list is counted on top of the tallies of those before it. */
  lemma TallyStep(names: map<string, string>, games: seq<Game>, i: nat)
    requires i < |games|
    ensures Tally(NamedGames(names, games[..i + 1])) == Count(Tally(NamedGames(names, games[..i])), Named(names, games[i].matchup))
  {
    var gs := NamedGames(names, games[..i]);
    assert NamedGames(names, games[..i + 1]) == gs + [Named(names, games[i].matchup)] by {
      assert games[..i + 1][..i] == games[..i];
    }
    assert (gs + [Named(names, games[i].matchup)])[..|gs|] == gs;
  }

  /** The tally loop over the selected games. */
  method TallyGames(names: map<string, string>, games: seq<Game>) returns (t: Tallies)
    ensures t == Tally(NamedGames(names, games))
  {
    t := map[];
    var i := 0;
    while i < |games|
      invariant 0 <= i <= |games|
      invariant t == Tally(NamedGames(names, games[..i]))
    {
      TallyStep(names, games, i);
      t := CountGame(t, Named(names, games[i].matchup));
      i := i + 1;
    }
    assert games[..i] == games;
  }

  /**
   * `calculate_head_to_head`: one record per pair of managers who met in a
   * selected game, with its counts, most games first.
   */
  method CalculateHeadToHead(names: map<string, string>, league: seq<Season>) returns (results: seq<HeadToHeadRecord>)
    ensures SortedBy(results, MoreGames)
    ensures RowsOf(LeagueTally(names, league), results) && DistinctKeys(results)
    ensures forall p :: p in LeagueTally(names, league) ==> RowOf(p, LeagueTally(names, league)[p]) in results
  {
    var games := CollectLeagueGames(HeadToHeadCopy, league);
    var t := TallyGames(names, games);
    results := RecordsOf(t);
    forall p | p in t ensures Played(t[p]) {
      TalliedPairsPlayed(NamedGames(names, games), p);
    }
  }
}
