/**
 * Playoff bracket resolution from scraped matchups and the comparison
 * of its outcome with the recorded championship history
 * (scripts/compare_championships.py).
 */
module Playoffs {
  import opened Core
  import opened Matchups

  // ---------------------------------------------------------------------
  // Names (lines 96-143)
  // ---------------------------------------------------------------------

  predicate NotDigit(c: char) { !IsDigit(c) }

  /** `name[0].upper() + name[1:]` for a name of two or more characters, else `name.upper()`. */
  function Capitalize(s: string): string {
    if |s| > 1 then [UpperChar(s[0])] + s[1..] else Upper(s)
  }

  /**
   * `extract_first_name`: the known first name of a handle, in any letter
   * case; otherwise the lower-cased handle without its digits and with its
   * first letter upper-cased; a handle of digits only is returned as is.
   * `known` is the function's table of handles.
   */
  function ExtractFirstName(known: map<string, string>, displayName: string): string {
    var name := Lower(displayName);
    if name in known then known[name]
    else
      var stripped := Filter(name, NotDigit);
      if stripped != [] then Capitalize(stripped) else displayName
  }

  lemma LowerKeepsDigits(s: string)
    ensures forall i :: 0 <= i < |s| ==> (IsDigit(Lower(s)[i]) <==> IsDigit(s[i]))
  {
  }

  lemma {:induction false} NoneKept(s: string)
    requires forall i :: 0 <= i < |s| ==> IsDigit(s[i])
    ensures Filter(s, NotDigit) == []
  {
    if s != [] {
      NoneKept(s[..|s| - 1]);
    }
  }

  /** Nothing is left of a handle once its digits are removed exactly when it is all digits. */
  lemma StrippedEmpty(displayName: string)
    ensures Filter(Lower(displayName), NotDigit) == [] <==> AllDigits(displayName)
  {
    var name := Lower(displayName);
    LowerKeepsDigits(displayName);
    if !AllDigits(displayName) {
      var i :| 0 <= i < |displayName| && !IsDigit(displayName[i]);
      assert NotDigit(name[i]);
    } else {
      NoneKept(name);
    }
  }

  /** Lower-casing undoes the capitalisation of an already lower-case name. */
  lemma LowerCapitalize(s: string)
    requires forall i :: 0 <= i < |s| ==> LowerChar(s[i]) == s[i]
    ensures Lower(Capitalize(s)) == s
  {
    var c := Capitalize(s);
    assert |c| == |s|;
    forall i | 0 <= i < |s| ensures Lower(c)[i] == s[i] {
      assert c[i] == (if i == 0 then UpperChar(s[0]) else s[i]);
    }
  }

  /**
   * The three outcomes of `extract_first_name`: the table's name for a known
   * handle; the handle itself when it is all digits; otherwise a name with
   * no digits that is the lower-cased, digit-free handle up to the case of
   * its first letter, which is upper-cased.
   */
  lemma ExtractFirstNameMeaning(known: map<string, string>, displayName: string)
    ensures Lower(displayName) in known ==> ExtractFirstName(known, displayName) == known[Lower(displayName)]
    ensures Lower(displayName) !in known && AllDigits(displayName) ==> ExtractFirstName(known, displayName) == displayName
    ensures Lower(displayName) !in known && !AllDigits(displayName) ==>
      var r := ExtractFirstName(known, displayName);
      && r != []
      && (forall i :: 0 <= i < |r| ==> !IsDigit(r[i]))
      && Lower(r) == Filter(Lower(displayName), NotDigit)
      && r[0] == UpperChar(r[0])
  {
    var name := Lower(displayName);
    StrippedEmpty(displayName);
    if name !in known && !AllDigits(displayName) {
      var stripped := Filter(name, NotDigit);
      forall i | 0 <= i < |stripped| ensures LowerChar(stripped[i]) == stripped[i] {
        var j :| 0 <= j < |name| && name[j] == stripped[i];
      }
      LowerCapitalize(stripped);
      assert |Capitalize(stripped)| == |stripped|;
      forall i | 0 <= i < |stripped| ensures !IsDigit(Capitalize(stripped)[i]) {
        assert NotDigit(stripped[i]);
      }
    }
  }

  /** Handles that differ only in letter case get the same first name. */
  lemma ExtractFirstNameIgnoresCase(known: map<string, string>, a: string, b: string)
    requires Lower(a) == Lower(b)
    ensures ExtractFirstName(known, a) == ExtractFirstName(known, b)
  {
    StrippedEmpty(a);
    StrippedEmpty(b);
    if Lower(a) !in known && AllDigits(a) {
      assert |a| == |b|;
      LowerKeepsDigits(a);
      forall i | 0 <= i < |a| ensures a[i] == b[i] {
        assert Lower(a)[i] == a[i];
        assert LowerChar(b[i]) == a[i];
      }
    }
  }

  /** The handles of all teams of `seasons`, in season and team order. */
  function AddHandles(known: map<string, string>, mapping: map<string, string>, teams: seq<string>): map<string, string> {
    if teams == [] then mapping
    else
      var m := AddHandles(known, mapping, teams[..|teams| - 1]);
      var manager := teams[|teams| - 1];
      if manager in m then m else m[manager := ExtractFirstName(known, manager)]
  }

  /** `build_manager_mapping` over the seasons in stored order. */
  function ManagerMappingOf(known: map<string, string>, seasons: seq<Season>): map<string, string> {
    if seasons == [] then map[]
    else AddHandles(known, ManagerMappingOf(known, seasons[..|seasons| - 1]), seasons[|seasons| - 1].teams)
  }

  method BuildManagerMapping(known: map<string, string>, espnData: seq<Season>) returns (mapping: map<string, string>)
    ensures mapping == ManagerMappingOf(known, espnData)
  {
    mapping := map[];
    var i := 0;
    while i < |espnData|
      invariant 0 <= i <= |espnData|
      invariant mapping == ManagerMappingOf(known, espnData[..i])
    {
      assert espnData[..i + 1][..i] == espnData[..i];
      mapping := AddSeasonHandles(known, mapping, espnData[i].teams);
      i := i + 1;
    }
    assert espnData[..i] == espnData;
  }

  /** The inner loop over one season's teams: a handle already mapped keeps its first name. */
  method AddSeasonHandles(known: map<string, string>, before: map<string, string>, teams: seq<string>) returns (mapping: map<string, string>)
    ensures mapping == AddHandles(known, before, teams)
  {
    mapping := before;
    var j := 0;
    while j < |teams|
      invariant 0 <= j <= |teams|
      invariant mapping == AddHandles(known, before, teams[..j])
    {
      assert teams[..j + 1][..j] == teams[..j];
      var manager := teams[j];
      if manager !in mapping {
        mapping := mapping[manager := ExtractFirstName(known, manager)];
      }
      j := j + 1;
    }
    assert teams[..j] == teams;
  }

  ghost predicate HasTeam(seasons: seq<Season>, manager: string) {
    exists i, j :: 0 <= i < |seasons| && 0 <= j < |seasons[i].teams| && seasons[i].teams[j] == manager
  }

  /** Adding one season's teams keeps every earlier entry and adds exactly the new handles. */
  lemma {:induction false} AddHandlesMeaning(known: map<string, string>, mapping: map<string, string>, teams: seq<string>)
    ensures forall h :: h in AddHandles(known, mapping, teams) <==> h in mapping || h in teams
    ensures forall h :: h in AddHandles(known, mapping, teams) ==>
      AddHandles(known, mapping, teams)[h] == if h in mapping then mapping[h] else ExtractFirstName(known, h)
  {
    if teams != [] {
      var p := teams[..|teams| - 1];
      var manager := teams[|teams| - 1];
      AddHandlesMeaning(known, mapping, p);
      assert forall h :: h in teams <==> h in p || h == manager by {
        assert teams == p + [manager];
      }
      var m := AddHandles(known, mapping, p);
      var r := AddHandles(known, mapping, teams);
      assert r == if manager in m then m else m[manager := ExtractFirstName(known, manager)];
      forall h | h in r
        ensures r[h] == if h in mapping then mapping[h] else ExtractFirstName(known, h)
      {
        if h != manager || manager in m {
          assert r[h] == m[h];
        }
      }
    }
  }

  /**
   * The mapping holds exactly the team handles of all seasons, each with
   * the first name derived from it: an entry, once made, is never
   * overwritten by a later season.
   */
  lemma {:induction false} ManagerMappingMeaning(known: map<string, string>, seasons: seq<Season>)
    ensures forall h :: h in ManagerMappingOf(known, seasons) <==> HasTeam(seasons, h)
    ensures forall h :: h in ManagerMappingOf(known, seasons) ==> ManagerMappingOf(known, seasons)[h] == ExtractFirstName(known, h)
  {
    if seasons != [] {
      var p := seasons[..|seasons| - 1];
      var last := seasons[|seasons| - 1];
      ManagerMappingMeaning(known, p);
      AddHandlesMeaning(known, ManagerMappingOf(known, p), last.teams);
      HasTeamSnoc(seasons);
    }
  }

  lemma HasTeamSnoc(seasons: seq<Season>)
    requires seasons != []
    ensures forall h :: HasTeam(seasons, h) <==> HasTeam(seasons[..|seasons| - 1], h) || h in seasons[|seasons| - 1].teams
  {
    var p := seasons[..|seasons| - 1];
    var last := seasons[|seasons| - 1];
    forall h ensures HasTeam(seasons, h) <==> HasTeam(p, h) || h in last.teams {
      if HasTeam(p, h) {
        var i, j :| 0 <= i < |p| && 0 <= j < |p[i].teams| && p[i].teams[j] == h;
        assert seasons[i] == p[i];
      }
      if h in last.teams {
        var j :| 0 <= j < |last.teams| && last.teams[j] == h;
        assert seasons[|seasons| - 1].teams[j] == h;
      }
      if HasTeam(seasons, h) && h !in last.teams {
        var i, j :| 0 <= i < |seasons| && 0 <= j < |seasons[i].teams| && seasons[i].teams[j] == h;
        assert p[i] == seasons[i];
      }
    }
  }

  // ---------------------------------------------------------------------
  // Deduplication of playoff records (lines 222-243, 273-290, 312-324)
  // ---------------------------------------------------------------------

  /** The combined score `home_score + away_score` of a game. */
  function Total(m: Matchup): real {
    m.homeScore + m.awayScore
  }

  /** `tuple(sorted([home, away]))` */
  function PairOf(home: string, away: string): (string, string) {
    if StrLt(away, home) then (away, home) else (home, away)
  }

  /** The pair key forgets which manager was at home. */
  lemma PairOfSymmetric(a: string, b: string)
    ensures PairOf(a, b) == PairOf(b, a)
  {
    if a != b {
      StrLtTotal(a, b);
      if StrLt(a, b) { StrLtAsymmetric(a, b); } else { StrLtAsymmetric(b, a); }
    }
  }

  function MatchupPair(m: Matchup): (string, string) {
    PairOf(m.homeManager, m.awayManager)
  }

  /** `(week, tuple(sorted([home, away])))` */
  function WeekPair(m: Matchup): (int, (string, string)) {
    (m.week, MatchupPair(m))
  }

  /**
   * An insertion-ordered dictionary from keys to records, kept as two
   * parallel lists: `games[i]` is the record kept for `keys[i]`.
   */
  datatype Kept<K> = Kept(keys: seq<K>, games: seq<Matchup>)

  /** Position of `k` in `keys`, `|keys|` when absent. */
  function KeyIndex<K(==)>(keys: seq<K>, k: K): (i: nat)
    ensures i <= |keys|
    ensures i < |keys| ==> keys[i] == k
    ensures forall j :: 0 <= j < i ==> keys[j] != k
  {
    if keys == [] then 0
    else if keys[0] == k then 0
    else 1 + KeyIndex(keys[1..], k)
  }

  /** One step of the loop: a new key is appended; a known key takes the record only if it scores strictly more. */
  function Keep<K(==)>(kept: Kept<K>, k: K, m: Matchup): Kept<K>
    requires |kept.keys| == |kept.games|
  {
    var i := KeyIndex(kept.keys, k);
    if i == |kept.keys| then Kept(kept.keys + [k], kept.games + [m])
    else if Total(m) > Total(kept.games[i]) then Kept(kept.keys, kept.games[i := m])
    else kept
  }

  /** The records of `games` deduplicated by `keyOf`, keeping for each key its highest combined score. */
  function KeepBest<K(==)>(games: seq<Matchup>, keyOf: Matchup -> K): (r: Kept<K>)
    ensures |r.keys| == |r.games|
  {
    if games == [] then Kept([], [])
    else Keep(KeepBest(games[..|games| - 1], keyOf), keyOf(games[|games| - 1]), games[|games| - 1])
  }

  ghost predicate KeyOccurs<K>(games: seq<Matchup>, keyOf: Matchup -> K, k: K) {
    exists p :: 0 <= p < |games| && keyOf(games[p]) == k
  }

  /** One kept record per key, for exactly the keys that occur, each a record of that key. */
  lemma {:induction false} KeepBestKeys<K>(games: seq<Matchup>, keyOf: Matchup -> K)
    ensures var r := KeepBest(games, keyOf);
      && Distinct(r.keys)
      && (forall i :: 0 <= i < |r.keys| ==> keyOf(r.games[i]) == r.keys[i] && r.games[i] in games)
      && (forall k :: k in r.keys <==> KeyOccurs(games, keyOf, k))
  {
    if games != [] {
      var p, g := games[..|games| - 1], games[|games| - 1];
      KeepBestKeys(p, keyOf);
      var before := KeepBest(p, keyOf);
      var r := KeepBest(games, keyOf);
      assert r == Keep(before, keyOf(g), g);
      KeyOccursSnoc(games, keyOf);
      assert forall x :: x in p ==> x in games;
      var i := KeyIndex(before.keys, keyOf(g));
      if i == |before.keys| {
        DistinctSnoc(before.keys, keyOf(g));
      }
    }
  }

  /** The keys occurring in records grow by the last record's key. */
  lemma KeyOccursSnoc<K>(games: seq<Matchup>, keyOf: Matchup -> K)
    requires games != []
    ensures forall k :: KeyOccurs(games, keyOf, k) <==>
      KeyOccurs(games[..|games| - 1], keyOf, k) || k == keyOf(games[|games| - 1])
  {
    var p, g := games[..|games| - 1], games[|games| - 1];
    forall k ensures KeyOccurs(games, keyOf, k) <==> KeyOccurs(p, keyOf, k) || k == keyOf(g) {
      if KeyOccurs(p, keyOf, k) {
        var q :| 0 <= q < |p| && keyOf(p[q]) == k;
        assert games[q] == p[q];
      }
      if KeyOccurs(games, keyOf, k) && k != keyOf(g) {
        var q :| 0 <= q < |games| && keyOf(games[q]) == k;
        assert p[q] == games[q];
      }
      if k == keyOf(g) {
        assert keyOf(games[|games| - 1]) == k;
      }
    }
  }

  /**
   * `m` is the record of key `k` with the highest combined score, and the
   * earliest of its key with that score.
   */
  ghost predicate BestOf<K>(games: seq<Matchup>, keyOf: Matchup -> K, k: K, m: Matchup) {
    && (forall q :: 0 <= q < |games| && keyOf(games[q]) == k ==> Total(games[q]) <= Total(m))
    && (exists e :: 0 <= e < |games| && games[e] == m && keyOf(m) == k
          && forall q :: 0 <= q < e && keyOf(games[q]) == k ==> Total(games[q]) < Total(m))
  }

  /** The first record of a key is its best so far. */
  lemma BestOfFirst<K>(p: seq<Matchup>, g: Matchup, keyOf: Matchup -> K)
    requires forall q :: 0 <= q < |p| ==> keyOf(p[q]) != keyOf(g)
    ensures BestOf(p + [g], keyOf, keyOf(g), g)
  {
    var games := p + [g];
    assert games[|p|] == g;
    assert forall q :: 0 <= q < |p| ==> games[q] == p[q];
  }

  /** A record that beats the best so far becomes the best. */
  lemma BestOfBetter<K>(p: seq<Matchup>, g: Matchup, keyOf: Matchup -> K, m: Matchup)
    requires BestOf(p, keyOf, keyOf(g), m) && Total(g) > Total(m)
    ensures BestOf(p + [g], keyOf, keyOf(g), g)
  {
    var games := p + [g];
    assert games[|p|] == g;
    assert forall q :: 0 <= q < |p| ==> games[q] == p[q];
  }

  /** A record that does not beat the best, or has another key, leaves the best in place. */
  lemma BestOfStays<K>(p: seq<Matchup>, g: Matchup, keyOf: Matchup -> K, k: K, m: Matchup)
    requires BestOf(p, keyOf, k, m) && (keyOf(g) != k || Total(g) <= Total(m))
    ensures BestOf(p + [g], keyOf, k, m)
  {
    var games := p + [g];
    var e :| 0 <= e < |p| && p[e] == m && keyOf(m) == k && forall q :: 0 <= q < e && keyOf(p[q]) == k ==> Total(p[q]) < Total(m);
    assert games[e] == m;
    assert forall q :: 0 <= q < |p| ==> games[q] == p[q];
  }

  /** Each kept record has the highest combined score of its key and is the earliest record of its key with that score. */
  lemma {:induction false} KeepBestScores<K>(games: seq<Matchup>, keyOf: Matchup -> K)
    ensures var r := KeepBest(games, keyOf);
      forall i :: 0 <= i < |r.keys| ==> BestOf(games, keyOf, r.keys[i], r.games[i])
  {
    if games != [] {
      var p, g := games[..|games| - 1], games[|games| - 1];
      assert games == p + [g];
      KeepBestScores(p, keyOf);
      KeepBestKeys(p, keyOf);
      var before := KeepBest(p, keyOf);
      var r := KeepBest(games, keyOf);
      var k := keyOf(g);
      assert r == Keep(before, k, g);
      var n := KeyIndex(before.keys, k);
      if n == |before.keys| {
        assert !KeyOccurs(p, keyOf, k);
        BestOfFirst(p, g, keyOf);
      } else if Total(g) > Total(before.games[n]) {
        BestOfBetter(p, g, keyOf, before.games[n]);
      } else {
        BestOfStays(p, g, keyOf, k, before.games[n]);
      }
      forall i | 0 <= i < |before.keys| && i != n ensures BestOf(games, keyOf, r.keys[i], r.games[i]) {
        BestOfStays(p, g, keyOf, before.keys[i], before.games[i]);
      }
    }
  }

  /** Keys appear in the order of their first records: every record before a key's first one has another key. */
  ghost predicate FirstBefore<K>(games: seq<Matchup>, keyOf: Matchup -> K, a: K, b: K) {
    exists p :: 0 <= p < |games| && keyOf(games[p]) == a && forall q :: 0 <= q <= p ==> keyOf(games[q]) != b
  }

  /** A replacement keeps the original position: keys stay in order of first appearance. */
  lemma {:induction false} KeepBestOrder<K>(games: seq<Matchup>, keyOf: Matchup -> K)
    ensures var r := KeepBest(games, keyOf);
      forall a, b :: 0 <= a < b < |r.keys| ==> FirstBefore(games, keyOf, r.keys[a], r.keys[b])
  {
    if games != [] {
      var p, g := games[..|games| - 1], games[|games| - 1];
      KeepBestOrder(p, keyOf);
      KeepBestKeys(p, keyOf);
      var before := KeepBest(p, keyOf);
      var r := KeepBest(games, keyOf);
      assert r == Keep(before, keyOf(g), g);
      forall a, b | 0 <= a < b < |r.keys| ensures FirstBefore(games, keyOf, r.keys[a], r.keys[b]) {
        assert r.keys[a] == before.keys[a];
        if b < |before.keys| {
          assert r.keys[b] == before.keys[b];
          FirstBeforeSnoc(games, keyOf, r.keys[a], r.keys[b]);
        } else {
          assert r.keys[b] == keyOf(g) && keyOf(g) !in before.keys;
          FirstBeforeNew(games, keyOf, r.keys[a]);
        }
      }
    }
  }

  /** An order of first appearance seen in a prefix survives one more record. */
  lemma FirstBeforeSnoc<K>(games: seq<Matchup>, keyOf: Matchup -> K, a: K, b: K)
    requires games != [] && FirstBefore(games[..|games| - 1], keyOf, a, b)
    ensures FirstBefore(games, keyOf, a, b)
  {
    var p := games[..|games| - 1];
    var e :| 0 <= e < |p| && keyOf(p[e]) == a && forall q :: 0 <= q <= e ==> keyOf(p[q]) != b;
    assert forall q :: 0 <= q <= e ==> games[q] == p[q];
    assert keyOf(games[e]) == a;
  }

  /** A key that occurs before the first record of a new key appears first. */
  lemma FirstBeforeNew<K>(games: seq<Matchup>, keyOf: Matchup -> K, a: K)
    requires games != []
    requires KeyOccurs(games[..|games| - 1], keyOf, a)
    requires !KeyOccurs(games[..|games| - 1], keyOf, keyOf(games[|games| - 1]))
    ensures FirstBefore(games, keyOf, a, keyOf(games[|games| - 1]))
  {
    var p := games[..|games| - 1];
    var e :| 0 <= e < |p| && keyOf(p[e]) == a;
    assert forall q :: 0 <= q < |p| ==> games[q] == p[q];
    assert keyOf(games[e]) == a;
  }

  /** Records whose keys are already distinct come through unchanged. */
  lemma {:induction false} KeepBestDistinct<K>(games: seq<Matchup>, keyOf: Matchup -> K)
    requires forall i, j :: 0 <= i < j < |games| ==> keyOf(games[i]) != keyOf(games[j])
    ensures KeepBest(games, keyOf).games == games
    ensures KeepBest(games, keyOf).keys == MapSeq(games, keyOf)
  {
    if games != [] {
      var p, g := games[..|games| - 1], games[|games| - 1];
      KeepBestDistinct(p, keyOf);
      assert keyOf(g) !in MapSeq(p, keyOf);
    }
  }

  /** `unique_matchups.index(existing)` finds the kept record at its key's position. */
  lemma IndexOfKept<K>(kept: Kept<K>, keyOf: Matchup -> K, n: nat)
    requires |kept.keys| == |kept.games| && n < |kept.keys|
    requires Distinct(kept.keys) && forall i :: 0 <= i < |kept.keys| ==> keyOf(kept.games[i]) == kept.keys[i]
    ensures KeyIndex(kept.games, kept.games[n]) == n
  {
    var j := KeyIndex(kept.games, kept.games[n]);
  }

  /** The seen records of lines 222-243 agree with the kept records. */
  ghost predicate SeenAgrees(seen: map<(int, (string, string)), Matchup>, keys: seq<(int, (string, string))>, unique: seq<Matchup>) {
    && |keys| == |unique|
    && seen.Keys == (set k | k in keys)
    && forall j :: 0 <= j < |keys| ==> seen[keys[j]] == unique[j]
  }

  /** A record under a new key is added to both `seen_matchups` and `unique_matchups`. */
  lemma SeenAgreesAdd(seen: map<(int, (string, string)), Matchup>, keys: seq<(int, (string, string))>, unique: seq<Matchup>,
    key: (int, (string, string)), m: Matchup)
    requires SeenAgrees(seen, keys, unique) && key !in seen
    ensures SeenAgrees(seen[key := m], keys + [key], unique + [m])
  {
    var keys', unique' := keys + [key], unique + [m];
    assert seen[key := m].Keys == seen.Keys + {key};
    assert (set k | k in keys') == (set k | k in keys) + {key};
    forall j | 0 <= j < |keys'| ensures seen[key := m][keys'[j]] == unique'[j] {
      if j < |keys| {
        assert keys'[j] == keys[j] && unique'[j] == unique[j];
        assert keys[j] in seen;
      }
    }
  }

  /** A better record replaces the kept one in both structures, at its key's position. */
  lemma SeenAgreesReplace(seen: map<(int, (string, string)), Matchup>, keys: seq<(int, (string, string))>, unique: seq<Matchup>,
    n: nat, m: Matchup)
    requires SeenAgrees(seen, keys, unique) && Distinct(keys) && n < |keys|
    ensures SeenAgrees(seen[keys[n] := m], keys, unique[n := m])
  {
    assert keys[n] in seen;
    assert seen[keys[n] := m].Keys == seen.Keys;
    forall j | 0 <= j < |keys| ensures seen[keys[n] := m][keys[j]] == unique[n := m][j] {
      if j != n {
        assert keys[j] != keys[n];
      }
    }
  }

  /** One record of the loop of lines 222-243. */
  method DedupPlayoffStep(ghost done: seq<Matchup>, seenMatchups: map<(int, (string, string)), Matchup>, uniqueMatchups: seq<Matchup>,
    ghost keys: seq<(int, (string, string))>, matchup: Matchup)
    returns (seen': map<(int, (string, string)), Matchup>, unique': seq<Matchup>, ghost keys': seq<(int, (string, string))>)
    requires Kept(keys, uniqueMatchups) == KeepBest(done, WeekPair)
    requires SeenAgrees(seenMatchups, keys, uniqueMatchups)
    ensures Kept(keys', unique') == KeepBest(done + [matchup], WeekPair)
    ensures SeenAgrees(seen', keys', unique')
  {
    assert (done + [matchup])[..|done|] == done;
    KeepBestKeys(done, WeekPair);
    var key := WeekPair(matchup);
    ghost var n := KeyIndex(keys, key);
    seen', unique', keys' := seenMatchups, uniqueMatchups, keys;
    if key !in seenMatchups {
      assert n == |keys|;
      seen' := seenMatchups[key := matchup];
      unique' := uniqueMatchups + [matchup];
      keys' := keys + [key];
      SeenAgreesAdd(seenMatchups, keys, uniqueMatchups, key, matchup);
    } else {
      assert n < |keys| && seenMatchups[key] == uniqueMatchups[n];
      var existing := seenMatchups[key];
      var existingTotal := existing.homeScore + existing.awayScore;
      var newTotal := matchup.homeScore + matchup.awayScore;
      if newTotal > existingTotal {
        IndexOfKept(Kept(keys, uniqueMatchups), WeekPair, n);
        var idx := KeyIndex(uniqueMatchups, existing);
        unique' := uniqueMatchups[idx := matchup];
        seen' := seenMatchups[key := matchup];
        SeenAgreesReplace(seenMatchups, keys, uniqueMatchups, n, matchup);
      }
    }
  }

  /**
   * Lines 222-243: the playoff records deduplicated by week and manager
   * pair through `seen_matchups` and `unique_matchups`, a better-scoring
   * duplicate replacing the kept record in place.
   */
  method DedupPlayoffMatchups(playoffMatchups: seq<Matchup>) returns (uniqueMatchups: seq<Matchup>)
    ensures uniqueMatchups == KeepBest(playoffMatchups, WeekPair).games
  {
    var seenMatchups: map<(int, (string, string)), Matchup> := map[];
    uniqueMatchups := [];
    ghost var keys: seq<(int, (string, string))> := [];
    var i := 0;
    while i < |playoffMatchups|
      invariant 0 <= i <= |playoffMatchups|
      invariant Kept(keys, uniqueMatchups) == KeepBest(playoffMatchups[..i], WeekPair)
      invariant SeenAgrees(seenMatchups, keys, uniqueMatchups)
    {
      assert playoffMatchups[..i + 1] == playoffMatchups[..i] + [playoffMatchups[i]];
      seenMatchups, uniqueMatchups, keys := DedupPlayoffStep(playoffMatchups[..i], seenMatchups, uniqueMatchups, keys, playoffMatchups[i]);
      i := i + 1;
    }
    assert playoffMatchups[..i] == playoffMatchups;
  }

  /** The dictionary of lines 273-290 agrees with the kept records. */
  ghost predicate DictAgrees(d: Dict<(string, string), Matchup>, games: seq<Matchup>) {
    && d.Valid()
    && |d.keys| == |games|
    && forall j :: 0 <= j < |d.keys| ==> d.keys[j] in d.entries && d.entries[d.keys[j]] == games[j]
  }

  lemma DictAgreesAppend(d: Dict<(string, string), Matchup>, games: seq<Matchup>, key: (string, string), game: Matchup)
    requires DictAgrees(d, games) && key !in d.entries
    ensures DictAgrees(d.Put(key, game), games + [game])
    ensures key !in d.keys
  {
    assert key !in (set x | x in d.keys);
    PutValid(d, key, game);
  }

  lemma DictAgreesReplace(d: Dict<(string, string), Matchup>, games: seq<Matchup>, n: nat, game: Matchup)
    requires DictAgrees(d, games) && n < |d.keys|
    ensures DictAgrees(d.Put(d.keys[n], game), games[n := game])
  {
    PutValid(d, d.keys[n], game);
  }

  /** One game of the loop of lines 273-290. */
  method DedupWeekStep(ghost done: seq<Matchup>, d: Dict<(string, string), Matchup>, ghost games: seq<Matchup>, game: Matchup)
    returns (d': Dict<(string, string), Matchup>, ghost games': seq<Matchup>)
    requires Kept(d.keys, games) == KeepBest(done, MatchupPair)
    requires DictAgrees(d, games)
    ensures Kept(d'.keys, games') == KeepBest(done + [game], MatchupPair)
    ensures DictAgrees(d', games')
  {
    assert (done + [game])[..|done|] == done;
    var key := PairOf(game.homeManager, game.awayManager);
    var totalScore := game.homeScore + game.awayScore;
    ghost var n := KeyIndex(d.keys, key);
    d', games' := d, games;
    if key !in d.entries {
      DictAgreesAppend(d, games, key, game);
      d' := d.Put(key, game);
      games' := games + [game];
    } else {
      assert key in (set x | x in d.keys);
      assert n < |d.keys| && d.keys[n] == key;
      var existingTotal := d.entries[key].homeScore + d.entries[key].awayScore;
      if totalScore > existingTotal {
        DictAgreesReplace(d, games, n, game);
        d' := d.Put(key, game);
        games' := games[n := game];
      }
    }
  }

  /**
   * Lines 273-290 and 312-324: one week's games deduplicated by manager pair
   * through a dictionary, read back as `list(d.values())`.
   */
  method DedupWeekGames(weekGames: seq<Matchup>) returns (deduped: seq<Matchup>)
    ensures deduped == KeepBest(weekGames, MatchupPair).games
  {
    var d: Dict<(string, string), Matchup> := EmptyDict();
    ghost var games: seq<Matchup> := [];
    var i := 0;
    while i < |weekGames|
      invariant 0 <= i <= |weekGames|
      invariant Kept(d.keys, games) == KeepBest(weekGames[..i], MatchupPair)
      invariant DictAgrees(d, games)
    {
      assert weekGames[..i + 1] == weekGames[..i] + [weekGames[i]];
      d, games := DedupWeekStep(weekGames[..i], d, games, weekGames[i]);
      i := i + 1;
    }
    assert weekGames[..i] == weekGames;
    deduped := DictValues(d);
  }

  /** `list(d.values())`: the stored records in the order their keys were first inserted. */
  method DictValues(d: Dict<(string, string), Matchup>) returns (values: seq<Matchup>)
    requires forall j :: 0 <= j < |d.keys| ==> d.keys[j] in d.entries
    ensures |values| == |d.keys| && forall j :: 0 <= j < |d.keys| ==> values[j] == d.entries[d.keys[j]]
  {
    values := [];
    var j := 0;
    while j < |d.keys|
      invariant 0 <= j <= |d.keys|
      invariant |values| == j && forall t :: 0 <= t < j ==> values[t] == d.entries[d.keys[t]]
    {
      values := values + [d.entries[d.keys[j]]];
      j := j + 1;
    }
  }

  // ---------------------------------------------------------------------
  // Python's max, min and for ... break over lists
  // ---------------------------------------------------------------------

  /** `max(s, key=f)`: the position of the first element with the largest key. */
  function FirstMax<T>(s: seq<T>, f: T -> real): (i: nat)
    requires s != []
    ensures i < |s|
    ensures forall j :: 0 <= j < |s| ==> f(s[j]) <= f(s[i])
    ensures forall j :: 0 <= j < i ==> f(s[j]) < f(s[i])
  {
    if |s| == 1 then 0
    else
      var b := FirstMax(s[..|s| - 1], f);
      if f(s[|s| - 1]) > f(s[b]) then |s| - 1 else b
  }

  /** `min(s, key=f)`: the position of the first element with the smallest key. */
  function FirstMin<T>(s: seq<T>, f: T -> real): (i: nat)
    requires s != []
    ensures i < |s|
    ensures forall j :: 0 <= j < |s| ==> f(s[i]) <= f(s[j])
    ensures forall j :: 0 <= j < i ==> f(s[i]) < f(s[j])
  {
    if |s| == 1 then 0
    else
      var b := FirstMin(s[..|s| - 1], f);
      if f(s[|s| - 1]) < f(s[b]) then |s| - 1 else b
  }

  // ---------------------------------------------------------------------
  // Playoff records of a season (lines 175-215)
  // ---------------------------------------------------------------------

  /** 13 regular-season weeks before 2021, 14 from 2021 on. */
  function RegularSeasonWeeks(season: int): int {
    if season >= 2021 then 14 else 13
  }

  predicate IsPlayoff(m: Matchup) { m.isPlayoff }

  function After(w: int): Matchup -> bool {
    (m: Matchup) => m.week > w
  }

  function WeekCount(ms: seq<Matchup>, w: int): nat {
    CountWhere(ms, (m: Matchup) => m.week == w)
  }

  /** In a late week with at most four records. */
  function LateAndSmall(ms: seq<Matchup>, w: int): Matchup -> bool {
    (m: Matchup) => m.week > w && WeekCount(ms, m.week) <= 4
  }

  /** The flagged playoff records; else those after the regular season; else those of late weeks with few records. */
  function PlayoffMatchups(season: int, ms: seq<Matchup>): seq<Matchup> {
    var regularSeasonWeeks := RegularSeasonWeeks(season);
    var marked := Filter(ms, IsPlayoff);
    if marked != [] then marked
    else
      var late := Filter(ms, After(regularSeasonWeeks));
      if late != [] then late
      else if exists m :: m in ms && m.week != 0 then Filter(ms, LateAndSmall(ms, regularSeasonWeeks))
      else []
  }

  /** A filter that lets nothing through lets nothing through under a stronger condition either. */
  lemma {:induction false} FilterStronger<T>(s: seq<T>, p: T -> bool, q: T -> bool)
    requires forall x :: q(x) ==> p(x)
    requires Filter(s, p) == []
    ensures Filter(s, q) == []
  {
    if s != [] {
      FilterStronger(s[..|s| - 1], p, q);
    }
  }

  /**
   * The record-count fallback never finds anything: every record it would
   * take lies after the regular season, and there are none once the week
   * filter has come back empty.
   */
  lemma PlayoffMatchupsChoice(season: int, ms: seq<Matchup>)
    ensures PlayoffMatchups(season, ms) ==
      if Filter(ms, IsPlayoff) != [] then Filter(ms, IsPlayoff) else Filter(ms, After(RegularSeasonWeeks(season)))
  {
    var w := RegularSeasonWeeks(season);
    if Filter(ms, IsPlayoff) == [] && Filter(ms, After(w)) == [] {
      FilterStronger(ms, After(w), LateAndSmall(ms, w));
    }
  }

  // ---------------------------------------------------------------------
  // Playoff weeks (lines 245-268)
  // ---------------------------------------------------------------------

  function Week(m: Matchup): int { m.week }

  predicate IsWeek(unique: seq<Matchup>, w: int) {
    exists m :: m in unique && m.week == w
  }

  /** A week of at most ten deduplicated records. */
  predicate SmallWeek(unique: seq<Matchup>, w: int) {
    |OfWeek(unique, w)| <= 10
  }

  /** `w in valid_weeks`: a week of at most ten records, or any week when no week is that small. */
  predicate ValidWeek(unique: seq<Matchup>, w: int) {
    IsWeek(unique, w) && ((exists m :: m in unique && SmallWeek(unique, m.week)) ==> SmallWeek(unique, w))
  }

  lemma ValidWeekExists(unique: seq<Matchup>)
    requires unique != []
    ensures exists m :: m in unique && ValidWeek(unique, m.week)
  {
    if m :| m in unique && SmallWeek(unique, m.week) {
      assert ValidWeek(unique, m.week);
    } else {
      assert ValidWeek(unique, unique[0].week);
    }
  }

  /** The largest week of a record of `ms` that `ok` accepts, if any. */
  function WeekMax(ms: seq<Matchup>, ok: int -> bool): (r: Option<int>)
    ensures r.None? <==> forall m :: m in ms ==> !ok(m.week)
    ensures r.Some? ==> ok(r.value) && (exists m :: m in ms && m.week == r.value) && forall m :: m in ms && ok(m.week) ==> m.week <= r.value
  {
    if ms == [] then None
    else
      var last := ms[|ms| - 1];
      var r := WeekMax(ms[..|ms| - 1], ok);
      assert forall m :: m in ms ==> m in ms[..|ms| - 1] || m == last by {
        assert ms == ms[..|ms| - 1] + [last];
      }
      if !ok(last.week) then r
      else if r.None? || r.value < last.week then Some(last.week)
      else r
  }

  /** The smallest week of a record of `ms` that `ok` accepts, if any. */
  function WeekMin(ms: seq<Matchup>, ok: int -> bool): (r: Option<int>)
    ensures r.None? <==> forall m :: m in ms ==> !ok(m.week)
    ensures r.Some? ==> ok(r.value) && (exists m :: m in ms && m.week == r.value) && forall m :: m in ms && ok(m.week) ==> r.value <= m.week
  {
    if ms == [] then None
    else
      var last := ms[|ms| - 1];
      var r := WeekMin(ms[..|ms| - 1], ok);
      assert forall m :: m in ms ==> m in ms[..|ms| - 1] || m == last by {
        assert ms == ms[..|ms| - 1] + [last];
      }
      if !ok(last.week) then r
      else if r.None? || last.week < r.value then Some(last.week)
      else r
  }

  function ValidIn(unique: seq<Matchup>): int -> bool {
    (w: int) => ValidWeek(unique, w)
  }

  /** `max(valid_weeks.keys())`, the championship week. */
  function ChampWeek(unique: seq<Matchup>): (w: int)
    requires unique != []
    ensures ValidWeek(unique, w) && forall m :: m in unique && ValidWeek(unique, m.week) ==> m.week <= w
  {
    ValidWeekExists(unique);
    WeekMax(unique, ValidIn(unique)).value
  }

  /** `min(valid_weeks.keys())` */
  function FirstWeek(unique: seq<Matchup>): (w: int)
    requires unique != []
    ensures ValidWeek(unique, w) && forall m :: m in unique && ValidWeek(unique, m.week) ==> w <= m.week
  {
    ValidWeekExists(unique);
    WeekMin(unique, ValidIn(unique)).value
  }

  predicate Reasonable(g: Matchup) {
    Total(g) > 50.0
  }

  /** More than five games left after deduplication: keep only those with a combined score over 50. */
  function Trimmed(games: seq<Matchup>): seq<Matchup> {
    if |games| > 5 then Filter(games, Reasonable) else games
  }

  /** A week's deduplicated, trimmed games, in record order. */
  function WeekGames(unique: seq<Matchup>, w: int): seq<Matchup> {
    Trimmed(KeepBest(OfWeek(unique, w), MatchupPair).games)
  }

  // ---------------------------------------------------------------------
  // Semifinals (lines 298-337)
  // ---------------------------------------------------------------------

  /** The strict winners and losers of `games`; a tied game adds to neither. */
  function Semifinals(games: seq<Matchup>): (set<string>, set<string>) {
    if games == [] then ({}, {})
    else
      var (winners, losers) := Semifinals(games[..|games| - 1]);
      var g := games[|games| - 1];
      if g.homeScore > g.awayScore then (winners + {g.homeManager}, losers + {g.awayManager})
      else if g.awayScore > g.homeScore then (winners + {g.awayManager}, losers + {g.homeManager})
      else (winners, losers)
  }

  predicate WonGame(g: Matchup, x: string) {
    (g.homeScore > g.awayScore && g.homeManager == x) || (g.awayScore > g.homeScore && g.awayManager == x)
  }

  predicate LostGame(g: Matchup, x: string) {
    (g.homeScore > g.awayScore && g.awayManager == x) || (g.awayScore > g.homeScore && g.homeManager == x)
  }

  /** A manager is a semifinal winner (loser) exactly when they won (lost) one of the games outright. */
  lemma {:induction false} SemifinalsMeaning(games: seq<Matchup>)
    ensures forall x :: x in Semifinals(games).0 <==> exists g :: g in games && WonGame(g, x)
    ensures forall x :: x in Semifinals(games).1 <==> exists g :: g in games && LostGame(g, x)
  {
    if games != [] {
      var p, g := games[..|games| - 1], games[|games| - 1];
      SemifinalsMeaning(p);
      assert forall h :: h in games <==> h in p || h == g by {
        assert games == p + [g];
      }
      forall x ensures x in Semifinals(games).0 <==> exists h :: h in games && WonGame(h, x) {
        if x in Semifinals(games).0 && x !in Semifinals(p).0 {
          assert WonGame(g, x);
        }
        if h :| h in games && WonGame(h, x) {
          if h != g { assert h in p; }
        }
      }
      forall x ensures x in Semifinals(games).1 <==> exists h :: h in games && LostGame(h, x) {
        if x in Semifinals(games).1 && x !in Semifinals(p).1 {
          assert LostGame(g, x);
        }
        if h :| h in games && LostGame(h, x) {
          if h != g { assert h in p; }
        }
      }
    }
  }

  method SemifinalSets(games: seq<Matchup>) returns (semifinalWinners: set<string>, semifinalLosers: set<string>)
    ensures (semifinalWinners, semifinalLosers) == Semifinals(games)
  {
    semifinalWinners, semifinalLosers := {}, {};
    var i := 0;
    while i < |games|
      invariant 0 <= i <= |games|
      invariant (semifinalWinners, semifinalLosers) == Semifinals(games[..i])
    {
      assert games[..i + 1][..i] == games[..i];
      var game := games[i];
      if game.homeScore > game.awayScore {
        semifinalWinners := semifinalWinners + {game.homeManager};
        semifinalLosers := semifinalLosers + {game.awayManager};
      } else if game.awayScore > game.homeScore {
        semifinalWinners := semifinalWinners + {game.awayManager};
        semifinalLosers := semifinalLosers + {game.homeManager};
      }
      i := i + 1;
    }
    assert games[..i] == games;
  }

  // ---------------------------------------------------------------------
  // The championship week (lines 339-425)
  // ---------------------------------------------------------------------

  datatype Podium = Podium(champion: Option<string>, runnerUp: Option<string>, thirdPlace: Option<string>)

  /** A computation that returns a value, or raises (`max([])`, an index past the end). */
  datatype Outcome<T> = Raises | Returns(value: T)

  /** Both managers of `g` are in `s`. */
  function Between(s: set<string>): Matchup -> bool {
    (g: Matchup) => g.homeManager in s && g.awayManager in s
  }

  function Other(champGame: Matchup): Matchup -> bool {
    (g: Matchup) => g != champGame
  }

  /** A game other than the championship between the two semifinal losers. */
  function LosersGame(champGame: Matchup, losers: set<string>): Matchup -> bool {
    (g: Matchup) => g != champGame && g.homeManager in losers && g.awayManager in losers
  }

  /** A game other than the championship with neither finalist in it. */
  function Unrelated(champGame: Matchup, champion: Option<string>, runnerUp: Option<string>): Matchup -> bool {
    (g: Matchup) => g != champGame
      && Some(g.homeManager) != champion && Some(g.homeManager) != runnerUp
      && Some(g.awayManager) != champion && Some(g.awayManager) != runnerUp
  }

  /** The manager a third-place game awards: home only if home strictly outscores away. */
  function ThirdOf(g: Matchup): string {
    if g.homeScore > g.awayScore then g.homeManager else g.awayManager
  }

  /** Champion and runner-up of the championship game; both unset on a tie. */
  function Decide(g: Matchup): (Option<string>, Option<string>) {
    if g.homeScore > g.awayScore then (Some(g.homeManager), Some(g.awayManager))
    else if g.awayScore > g.homeScore then (Some(g.awayManager), Some(g.homeManager))
    else (None, None)
  }

  /**
   * The championship game: the only game of a one-game week; otherwise the
   * first game between the two semifinal winners, when there are two and
   * they met; otherwise the first game with the highest combined score.
   */
  function ChampionshipIndex(games: seq<Matchup>, winners: set<string>): (c: nat)
    requires games != []
    ensures c < |games|
  {
    if |games| == 1 then 0
    else
      var met := if |winners| == 2 then FirstWhere(games, Between(winners)) else None;
      if met.Some? then met.value else FirstMax(games, Total)
  }

  /**
   * The third-place game of a two-game week: the game that is not the
   * championship. Lines 357-358 and 361-362 take `min` by combined score
   * instead, written out in `TwoGameThirdAsWritten`.
   */
  function TwoGameThird(games: seq<Matchup>, winners: set<string>): Outcome<Matchup>
    requires |games| == 2
  {
    var c := ChampionshipIndex(games, winners);
    if |winners| == 2 && FirstWhere(games, Between(winners)).Some? then
      var others := Filter(games, Other(games[c]));
      if others == [] then Raises else Returns(others[0])
    else Returns(games[1 - c])
  }

  /** Lines 342-369 as written: the fall-back third-place game is `min(games, key=combined score)`. */
  function TwoGameThirdAsWritten(games: seq<Matchup>, winners: set<string>): Outcome<Matchup>
    requires |games| == 2
  {
    var c := ChampionshipIndex(games, winners);
    if |winners| == 2 && FirstWhere(games, Between(winners)).Some? then
      var others := Filter(games, Other(games[c]));
      if others == [] then Raises else Returns(others[0])
    else Returns(games[FirstMin(games, Total)])
  }

  /**
   * Lines 394-425: with third place still unset, the first other game
   * between the two semifinal losers, then the first other game without
   * either finalist; `current` when neither exists.
   */
  function LateThird(games: seq<Matchup>, champGame: Matchup, losers: set<string>,
    champion: Option<string>, runnerUp: Option<string>, current: Option<string>): Option<string>
  {
    var byLosers :=
      if |losers| == 2 then
        match FirstWhere(games, LosersGame(champGame, losers)) {
          case Some(i) => Some(ThirdOf(games[i]))
          case None => current
        }
      else current;
    if Present(byLosers) then byLosers
    else match FirstWhere(games, Unrelated(champGame, champion, runnerUp)) {
      case Some(i) => Some(ThirdOf(games[i]))
      case None => byLosers
    }
  }

  /**
   * Lines 339-425 once the third-place game of a two-game week is chosen
   * (`third`): champion and runner-up from the championship game, third
   * place from `third`, else from the fall-backs of 394-425.
   */
  function PodiumOf(games: seq<Matchup>, winners: set<string>, losers: set<string>, third: Outcome<Matchup>): Outcome<Podium>
    requires games != []
  {
    var c := ChampionshipIndex(games, winners);
    if third.Raises? then Raises
    else
      var first := if |games| == 2 then Some(ThirdOf(third.value)) else None;
      var (champion, runnerUp) := Decide(games[c]);
      var thirdPlace := if !Present(first) && |games| >= 2 then LateThird(games, games[c], losers, champion, runnerUp, first) else first;
      Returns(Podium(champion, runnerUp, thirdPlace))
  }

  /** The podium read off the championship week's games and the semifinal sets, as the code runs it. */
  function FinalWeek(games: seq<Matchup>, winners: set<string>, losers: set<string>): Outcome<Podium> {
    if games == [] then Raises
    else PodiumOf(games, winners, losers,
      if |games| == 2 then TwoGameThirdAsWritten(games, winners) else Returns(games[ChampionshipIndex(games, winners)]))
  }

  /** The podium as the comments at lines 343 and 352 intend it: third place from the other game. */
  function FinalWeekIntended(games: seq<Matchup>, winners: set<string>, losers: set<string>): Outcome<Podium> {
    if games == [] then Raises
    else PodiumOf(games, winners, losers,
      if |games| == 2 then TwoGameThird(games, winners) else Returns(games[ChampionshipIndex(games, winners)]))
  }

  /** A one-game week: that game decides champion and runner-up, and there is no third place. */
  lemma OneGameFinal(g: Matchup, winners: set<string>, losers: set<string>)
    ensures var r := FinalWeek([g], winners, losers);
      && r.Returns? && r.value.thirdPlace == None
      && (g.homeScore > g.awayScore ==> r.value.champion == Some(g.homeManager) && r.value.runnerUp == Some(g.awayManager))
      && (g.awayScore > g.homeScore ==> r.value.champion == Some(g.awayManager) && r.value.runnerUp == Some(g.homeManager))
      && (g.homeScore == g.awayScore ==> r.value.champion == None && r.value.runnerUp == None)
  {
  }

  /**
   * The championship game is the first game between the two semifinal
   * winners when they met; otherwise it has the highest combined score.
   */
  lemma ChampionshipGameChoice(games: seq<Matchup>, winners: set<string>)
    requires |games| >= 2
    ensures var c := ChampionshipIndex(games, winners);
      && (|winners| == 2 && (exists i :: 0 <= i < |games| && Between(winners)(games[i])) ==>
            Between(winners)(games[c]) && forall j :: 0 <= j < c ==> !Between(winners)(games[j]))
      && (!(|winners| == 2 && exists i :: 0 <= i < |games| && Between(winners)(games[i])) ==>
            forall j :: 0 <= j < |games| ==> Total(games[j]) <= Total(games[c]))
  {
  }

  /** The champion is set exactly when the championship game was not tied; the champion won it and the runner-up lost it. */
  lemma ChampionWonFinal(games: seq<Matchup>, winners: set<string>, losers: set<string>)
    requires games != []
    ensures var r := FinalWeek(games, winners, losers);
      var g := games[ChampionshipIndex(games, winners)];
      r.Returns? ==>
        && (r.value.champion.Some? <==> g.homeScore != g.awayScore)
        && (r.value.champion.Some? <==> r.value.runnerUp.Some?)
        && (r.value.champion.Some? ==> WonGame(g, r.value.champion.value) && LostGame(g, r.value.runnerUp.value))
  {
  }

  lemma {:induction false} FilterDistinct<T>(s: seq<T>, p: T -> bool)
    requires Distinct(s)
    ensures Distinct(Filter(s, p))
  {
    if s != [] {
      var q := s[..|s| - 1];
      FilterDistinct(q, p);
      var r := Filter(s, p);
      if p(s[|s| - 1]) {
        assert s[|s| - 1] !in q;
        forall a, b | 0 <= a < b < |r| ensures r[a] != r[b] {
          if b == |r| - 1 { assert r[a] in Filter(q, p); }
        }
      }
    }
  }

  /** Records of distinct keys are distinct. */
  lemma KeptDistinct<K>(games: seq<Matchup>, keyOf: Matchup -> K)
    ensures Distinct(KeepBest(games, keyOf).games)
  {
    KeepBestKeys(games, keyOf);
    var r := KeepBest(games, keyOf);
    forall a, b | 0 <= a < b < |r.games| ensures r.games[a] != r.games[b] {
      assert keyOf(r.games[a]) == r.keys[a] && keyOf(r.games[b]) == r.keys[b];
    }
  }

  /** Of two distinct games, the third-place game is the one that is not the championship. */
  lemma TwoGameThirdIsOther(games: seq<Matchup>, winners: set<string>)
    requires |games| == 2 && games[0] != games[1]
    ensures TwoGameThird(games, winners) == Returns(games[1 - ChampionshipIndex(games, winners)])
  {
    var c := ChampionshipIndex(games, winners);
    if |winners| == 2 && FirstWhere(games, Between(winners)).Some? {
      var others := Filter(games, Other(games[c]));
      assert Other(games[c])(games[1 - c]);
      assert games[1 - c] in others;
      assert forall i :: 0 <= i < |others| ==> others[i] == games[1 - c];
    }
  }

  /** When the two games' combined scores differ, the corrected and the written third-place games agree. */
  lemma TwoGameThirdAgrees(games: seq<Matchup>, winners: set<string>)
    requires |games| == 2 && Total(games[0]) != Total(games[1])
    ensures TwoGameThird(games, winners) == TwoGameThirdAsWritten(games, winners)
  {
  }

  /**
   * As written, two final-week games with equal combined scores, and no
   * game between two semifinal winners, make `max` and `min` both return
   * the first game: the championship game is also taken as the third-place
   * game.
   */
  lemma TwoGameThirdAsWrittenRepeatsFinal(games: seq<Matchup>, winners: set<string>)
    requires |games| == 2 && Total(games[0]) == Total(games[1])
    requires !(|winners| == 2 && exists i :: 0 <= i < 2 && Between(winners)(games[i]))
    ensures ChampionshipIndex(games, winners) == 0
    ensures TwoGameThirdAsWritten(games, winners) == Returns(games[0])
  {
    assert FirstWhere(games, Between(winners)).Some? ==> Between(winners)(games[FirstWhere(games, Between(winners)).value]);
  }

  /** A final week (Ann beats Bea 100-90, Cal and Dee tie 95-95) whose champion the written code also names third. */
  lemma ChampionAlsoThirdAsWritten()
    ensures var a := Matchup(16, Some(1), Some(2), "Ann", "Bea", 100.0, 90.0, Some(1), None, None, false, true);
      var b := Matchup(16, Some(3), Some(4), "Cal", "Dee", 95.0, 95.0, None, None, None, false, true);
      && TwoGameThirdAsWritten([a, b], {}) == Returns(a)
      && FinalWeek([a, b], {}, {}) == Returns(Podium(Some("Ann"), Some("Bea"), Some("Ann")))
      && FinalWeekIntended([a, b], {}, {}) == Returns(Podium(Some("Ann"), Some("Bea"), Some("Dee")))
  {
    var a := Matchup(16, Some(1), Some(2), "Ann", "Bea", 100.0, 90.0, Some(1), None, None, false, true);
    var b := Matchup(16, Some(3), Some(4), "Cal", "Dee", 95.0, 95.0, None, None, None, false, true);
    TwoGameThirdAsWrittenRepeatsFinal([a, b], {});
    TwoGameThirdIsOther([a, b], {});
  }

  /**
   * With distinct games, the intended week raises only when no game is
   * left, and a third place always comes from a game other than the
   * championship.
   */
  lemma ThirdPlaceFromAnotherGame(games: seq<Matchup>, winners: set<string>, losers: set<string>)
    requires Distinct(games)
    ensures FinalWeekIntended(games, winners, losers).Raises? <==> games == []
    ensures var r := FinalWeekIntended(games, winners, losers);
      r.Returns? && r.value.thirdPlace.Some? ==>
        exists i :: 0 <= i < |games| && i != ChampionshipIndex(games, winners) && r.value.thirdPlace == Some(ThirdOf(games[i]))
  {
    if games != [] {
      var c := ChampionshipIndex(games, winners);
      if |games| == 2 {
        TwoGameThirdIsOther(games, winners);
      }
      var (champion, runnerUp) := Decide(games[c]);
      var first: Option<string> := if |games| == 2 then Some(ThirdOf(games[1 - c])) else None;
      if |games| >= 2 && !Present(first) {
        var lossIx := FirstWhere(games, LosersGame(games[c], losers));
        var otherIx := FirstWhere(games, Unrelated(games[c], champion, runnerUp));
        if lossIx.Some? {
          assert games[lossIx.value] != games[c];
        }
        if otherIx.Some? {
          assert games[otherIx.value] != games[c];
        }
      }
    }
  }

  /**
   * As written, with distinct games the week raises only when no game is
   * left, and a third place is awarded from some game of the week, which
   * may be the championship game itself.
   */
  lemma ThirdPlaceFromWeekGame(games: seq<Matchup>, winners: set<string>, losers: set<string>)
    requires Distinct(games)
    ensures FinalWeek(games, winners, losers).Raises? <==> games == []
    ensures var r := FinalWeek(games, winners, losers);
      r.Returns? && r.value.thirdPlace.Some? ==>
        exists i :: 0 <= i < |games| && r.value.thirdPlace == Some(ThirdOf(games[i]))
  {
    if games != [] {
      var c := ChampionshipIndex(games, winners);
      if |games| == 2 {
        TwoGameThirdIsOther(games, winners);
        var t := TwoGameThirdAsWritten(games, winners);
        if |winners| == 2 && FirstWhere(games, Between(winners)).Some? {
          assert t == TwoGameThird(games, winners);
        } else {
          assert t == Returns(games[FirstMin(games, Total)]);
        }
      } else {
        var (champion, runnerUp) := Decide(games[c]);
        if |games| >= 2 {
          var lossIx := FirstWhere(games, LosersGame(games[c], losers));
          var otherIx := FirstWhere(games, Unrelated(games[c], champion, runnerUp));
        }
      }
    }
  }

  /**
   * The written and the intended week agree unless the week has two games
   * with equal combined scores.
   */
  lemma FinalWeekAgrees(games: seq<Matchup>, winners: set<string>, losers: set<string>)
    requires |games| != 2 || Total(games[0]) != Total(games[1])
    ensures FinalWeek(games, winners, losers) == FinalWeekIntended(games, winners, losers)
  {
    if |games| == 2 {
      TwoGameThirdAgrees(games, winners);
    }
  }

  // ---------------------------------------------------------------------
  // extract_playoff_results (lines 146-427)
  // ---------------------------------------------------------------------

  datatype Results = Results(
    champion: Option<string>,
    runnerUp: Option<string>,
    thirdPlace: Option<string>,
    regularSeasonChamp: Option<string>,
    regularSeasonMostPoints: Option<string>)

  /** `{}` for a season without data, a raised exception, or the results. */
  datatype Extraction = NoSeason | Raised | Found(results: Results)

  /** `espn_data.get(season)` over the seasons in stored order. */
  function SeasonOf(espnData: seq<Season>, season: int): (r: Option<Season>)
    ensures r.Some? ==> r.value in espnData && r.value.year == season
    ensures r.None? ==> forall s :: s in espnData ==> s.year != season
  {
    if espnData == [] then None
    else if espnData[0].year == season then Some(espnData[0])
    else SeasonOf(espnData[1..], season)
  }

  function PointsFor(row: StandingsRow): real { row.pointsFor }

  /** The regular-season fields: the first standings row, and the first row with the most points. */
  function RegularSeasonResults(standings: seq<StandingsRow>): Results {
    if standings == [] then Results(None, None, None, None, None)
    else Results(None, None, None, Some(standings[0].manager), Some(standings[FirstMax(standings, PointsFor)].manager))
  }

  /** The semifinal sets: from the week before the championship week, when it is a valid week after the first. */
  function SemifinalsOf(unique: seq<Matchup>, champWeek: int): (set<string>, set<string>)
    requires unique != []
  {
    if champWeek > FirstWeek(unique) && ValidWeek(unique, champWeek - 1) then Semifinals(WeekGames(unique, champWeek - 1))
    else ({}, {})
  }

  /** Lines 245-425 over the deduplicated playoff records. */
  function Bracket(unique: seq<Matchup>): Outcome<Podium>
    requires unique != []
  {
    var champWeek := ChampWeek(unique);
    var semis := SemifinalsOf(unique, champWeek);
    FinalWeek(WeekGames(unique, champWeek), semis.0, semis.1)
  }

  /** What `extract_playoff_results(espn_data, season)` returns or raises. */
  function PlayoffResultsOf(espnData: seq<Season>, season: int): Extraction {
    match SeasonOf(espnData, season) {
      case None => NoSeason
      case Some(data) =>
        var results := RegularSeasonResults(data.standings);
        var playoffMatchups := PlayoffMatchups(season, data.matchups);
        if playoffMatchups == [] then Found(results)
        else
          var unique := KeepBest(playoffMatchups, WeekPair).games;
          if unique == [] then Found(results)
          else match Bracket(unique) {
            case Raises => Raised
            case Returns(p) => Found(results.(champion := p.champion, runnerUp := p.runnerUp, thirdPlace := p.thirdPlace))
          }
    }
  }

  method ExtractPlayoffResults(espnData: seq<Season>, season: int) returns (r: Extraction)
    ensures r == PlayoffResultsOf(espnData, season)
  {
    var seasonData := SeasonOf(espnData, season);
    if seasonData.None? {
      return NoSeason;
    }
    var data := seasonData.value;
    var results := RegularSeasonResults(data.standings);
    var playoffMatchups := PlayoffMatchups(season, data.matchups);
    if playoffMatchups == [] {
      return Found(results);
    }
    var uniqueMatchups := DedupPlayoffMatchups(playoffMatchups);
    if uniqueMatchups == [] {
      return Found(results);
    }
    var final := ResolveBracket(uniqueMatchups);
    if final.Raises? {
      return Raised;
    }
    r := Found(results.(champion := final.value.champion, runnerUp := final.value.runnerUp, thirdPlace := final.value.thirdPlace));
  }

  /** One week's games, deduplicated by pair and trimmed (lines 270-295, 310-327). */
  method CollectWeekGames(uniqueMatchups: seq<Matchup>, week: int) returns (games: seq<Matchup>)
    ensures games == WeekGames(uniqueMatchups, week)
  {
    games := DedupWeekGames(OfWeek(uniqueMatchups, week));
    if |games| > 5 {
      games := Filter(games, Reasonable);
    }
  }

  /** Lines 296-337: the semifinal winners and losers. */
  method CollectSemifinals(uniqueMatchups: seq<Matchup>, champWeek: int) returns (semifinalWinners: set<string>, semifinalLosers: set<string>)
    requires uniqueMatchups != []
    ensures (semifinalWinners, semifinalLosers) == SemifinalsOf(uniqueMatchups, champWeek)
  {
    semifinalWinners, semifinalLosers := {}, {};
    if champWeek > FirstWeek(uniqueMatchups) && ValidWeek(uniqueMatchups, champWeek - 1) {
      var prevWeekGames := CollectWeekGames(uniqueMatchups, champWeek - 1);
      semifinalWinners, semifinalLosers := SemifinalSets(prevWeekGames);
    }
  }

  /** Lines 245-425: the championship week, the semifinal sets and the podium. */
  method ResolveBracket(uniqueMatchups: seq<Matchup>) returns (final: Outcome<Podium>)
    requires uniqueMatchups != []
    ensures final == Bracket(uniqueMatchups)
  {
    var champWeek := ChampWeek(uniqueMatchups);
    var champWeekGames := CollectWeekGames(uniqueMatchups, champWeek);
    var semifinalWinners, semifinalLosers := CollectSemifinals(uniqueMatchups, champWeek);
    final := FinalWeek(champWeekGames, semifinalWinners, semifinalLosers);
  }

  /** A week's games are distinct records of that week. */
  lemma WeekGamesFacts(unique: seq<Matchup>, w: int)
    ensures Distinct(WeekGames(unique, w))
    ensures forall g :: g in WeekGames(unique, w) ==> g in unique && g.week == w
  {
    var kept := KeepBest(OfWeek(unique, w), MatchupPair).games;
    KeptDistinct(OfWeek(unique, w), MatchupPair);
    KeepBestKeys(OfWeek(unique, w), MatchupPair);
    if |kept| > 5 {
      FilterDistinct(kept, Reasonable);
    }
  }

  /**
   * The extraction raises exactly when more than five championship-week
   * games are left and none of them has a combined score over 50.
   */
  lemma RaisesOnlyWithoutFinalGames(espnData: seq<Season>, season: int)
    ensures PlayoffResultsOf(espnData, season).Raised? <==>
      && SeasonOf(espnData, season).Some?
      && var unique := KeepBest(PlayoffMatchups(season, SeasonOf(espnData, season).value.matchups), WeekPair).games;
      && unique != []
      && WeekGames(unique, ChampWeek(unique)) == []
  {
    if SeasonOf(espnData, season).Some? {
      var unique := KeepBest(PlayoffMatchups(season, SeasonOf(espnData, season).value.matchups), WeekPair).games;
      if unique != [] {
        var champWeek := ChampWeek(unique);
        var semis := SemifinalsOf(unique, champWeek);
        WeekGamesFacts(unique, champWeek);
        ThirdPlaceFromWeekGame(WeekGames(unique, champWeek), semis.0, semis.1);
      }
    }
  }

  /**
   * A champion found in the data won a game of the championship week (the
   * last valid playoff week) outright, against the runner-up; a third
   * place is awarded from a game of that week (which, as written, may be
   * the championship game; see `ChampionAlsoThirdAsWritten`).
   */
  lemma ChampionWonLastWeek(espnData: seq<Season>, season: int)
    requires PlayoffResultsOf(espnData, season).Found?
    ensures var r := PlayoffResultsOf(espnData, season).results;
      r.champion.Some? ==>
        && SeasonOf(espnData, season).Some?
        && var unique := KeepBest(PlayoffMatchups(season, SeasonOf(espnData, season).value.matchups), WeekPair).games;
        && unique != []
        && exists g :: g in WeekGames(unique, ChampWeek(unique))
             && WonGame(g, r.champion.value) && r.runnerUp.Some? && LostGame(g, r.runnerUp.value)
    ensures var r := PlayoffResultsOf(espnData, season).results;
      r.thirdPlace.Some? ==>
        && SeasonOf(espnData, season).Some?
        && var unique := KeepBest(PlayoffMatchups(season, SeasonOf(espnData, season).value.matchups), WeekPair).games;
        && unique != []
        && exists g :: g in WeekGames(unique, ChampWeek(unique)) && r.thirdPlace.value == ThirdOf(g)
  {
    var r := PlayoffResultsOf(espnData, season).results;
    var data := SeasonOf(espnData, season).value;
    var playoffMatchups := PlayoffMatchups(season, data.matchups);
    if playoffMatchups != [] {
      var unique := KeepBest(playoffMatchups, WeekPair).games;
      if unique != [] {
        var champWeek := ChampWeek(unique);
        var semis := SemifinalsOf(unique, champWeek);
        var games := WeekGames(unique, champWeek);
        WeekGamesFacts(unique, champWeek);
        ThirdPlaceFromWeekGame(games, semis.0, semis.1);
        ChampionWonFinal(games, semis.0, semis.1);
        if r.champion.Some? {
          var g := games[ChampionshipIndex(games, semis.0)];
          assert g in games;
        }
        if r.thirdPlace.Some? {
          var i :| 0 <= i < |games| && r.thirdPlace == Some(ThirdOf(games[i]));
          assert games[i] in games;
        }
      }
    }
  }

  // ---------------------------------------------------------------------
  // compare_season (lines 478-554)
  // ---------------------------------------------------------------------

  /** One season of the recorded championship history, each field as parsed from data/champions.js. */
  datatype ChampionsEntry = ChampionsEntry(
    champion: Option<string>,
    runnerUp: Option<string>,
    thirdPlace: Option<string>,
    regularSeasonChamp: Option<string>,
    otherDivisionChamp: Option<string>,
    regularSeasonMostPoints: Option<string>)

  datatype Field = Champion | RunnerUp | ThirdPlace | RegularSeasonChamp | RegularSeasonMostPoints

  /** The compared fields, in order. */
  const Fields: seq<Field> := [Champion, RunnerUp, ThirdPlace, RegularSeasonChamp, RegularSeasonMostPoints]

  function FieldName(f: Field): string {
    match f
    case Champion => "champion"
    case RunnerUp => "runnerUp"
    case ThirdPlace => "thirdPlace"
    case RegularSeasonChamp => "regularSeasonChamp"
    case RegularSeasonMostPoints => "regularSeasonMostPoints"
  }

  /** `champs.get(field)`; a season missing from the history is `{}`. */
  function ChampsValue(champs: Option<ChampionsEntry>, f: Field): Option<string> {
    match champs
    case None => None
    case Some(c) =>
      match f
      case Champion => c.champion
      case RunnerUp => c.runnerUp
      case ThirdPlace => c.thirdPlace
      case RegularSeasonChamp => c.regularSeasonChamp
      case RegularSeasonMostPoints => c.regularSeasonMostPoints
  }

  /** `espn_results.get(field)` */
  function EspnValue(espn: Extraction, f: Field): Option<string> {
    match espn
    case Found(r) =>
      (match f
       case Champion => r.champion
       case RunnerUp => r.runnerUp
       case ThirdPlace => r.thirdPlace
       case RegularSeasonChamp => r.regularSeasonChamp
       case RegularSeasonMostPoints => r.regularSeasonMostPoints)
    case _ => None
  }

  /** `manager_mapping.get(espn_value, extract_first_name(espn_value))` for a present value. */
  function MappedName(mapping: map<string, string>, known: map<string, string>, espnValue: Option<string>): Option<string> {
    if Present(espnValue) then
      Some(if espnValue.value in mapping then mapping[espnValue.value] else ExtractFirstName(known, espnValue.value))
    else None
  }

  datatype Discrepancy = Discrepancy(field: string, championsJs: Option<string>, espn: Option<string>, espnMapped: Option<string>, note: Option<string>)

  /** What one field adds: a match line, a discrepancy, or nothing. */
  datatype Report = MatchLine(line: string) | Differs(d: Discrepancy) | Silent

  function FieldReport(f: Field, champsValue: Option<string>, espnValue: Option<string>, espnFirstName: Option<string>): Report {
    if Present(champsValue) && Present(espnFirstName) then
      if Lower(champsValue.value) == Lower(espnFirstName.value) then MatchLine(FieldName(f) + ": " + champsValue.value)
      else Differs(Discrepancy(FieldName(f), champsValue, espnValue, espnFirstName, None))
    else if Present(champsValue) && !Present(espnFirstName) then
      Differs(Discrepancy(FieldName(f), champsValue, None, None, Some("Missing in ESPN data")))
    else if !Present(champsValue) && Present(espnFirstName) then
      Differs(Discrepancy(FieldName(f), None, espnValue, espnFirstName, Some("Missing in champions.js")))
    else Silent
  }

  /** The match lines and discrepancies of `fields`, in field order. */
  function CompareFields(fields: seq<Field>, champs: Option<ChampionsEntry>, espn: Extraction,
    mapping: map<string, string>, known: map<string, string>): (seq<string>, seq<Discrepancy>)
  {
    if fields == [] then ([], [])
    else
      var (matches, discrepancies) := CompareFields(fields[..|fields| - 1], champs, espn, mapping, known);
      var f := fields[|fields| - 1];
      var espnValue := EspnValue(espn, f);
      match FieldReport(f, ChampsValue(champs, f), espnValue, MappedName(mapping, known, espnValue)) {
        case MatchLine(line) => (matches + [line], discrepancies)
        case Differs(d) => (matches, discrepancies + [d])
        case Silent => (matches, discrepancies)
      }
  }

  datatype Comparison =
    | NoData
    | ComparisonRaised
    | Compared(season: int, matches: seq<string>, discrepancies: seq<Discrepancy>, hasData: bool, espnResultsRaw: Extraction)

  /** `compare_season` without its debug information. */
  function ComparisonOf(season: int, champsData: map<int, ChampionsEntry>, espnData: seq<Season>,
    managerMapping: map<string, string>, known: map<string, string>): Comparison
  {
    var champs := if season in champsData then Some(champsData[season]) else None;
    var espnResults := PlayoffResultsOf(espnData, season);
    if espnResults.Raised? then ComparisonRaised
    else if champs.None? && espnResults.NoSeason? then NoData
    else
      var (matches, discrepancies) := CompareFields(Fields, champs, espnResults, managerMapping, known);
      Compared(season, matches, discrepancies, champs.Some? || espnResults.Found?, espnResults)
  }

  method CompareSeason(season: int, champsData: map<int, ChampionsEntry>, espnData: seq<Season>,
    managerMapping: map<string, string>, known: map<string, string>) returns (c: Comparison)
    ensures c == ComparisonOf(season, champsData, espnData, managerMapping, known)
  {
    var champs := if season in champsData then Some(champsData[season]) else None;
    var espnResults := ExtractPlayoffResults(espnData, season);
    if espnResults.Raised? {
      return ComparisonRaised;
    }
    if champs.None? && espnResults.NoSeason? {
      return NoData;
    }
    var matches, discrepancies := CompareFieldsLoop(Fields, champs, espnResults, managerMapping, known);
    c := Compared(season, matches, discrepancies, champs.Some? || espnResults.Found?, espnResults);
  }

  method CompareFieldsLoop(fields: seq<Field>, champs: Option<ChampionsEntry>, espnResults: Extraction,
    managerMapping: map<string, string>, known: map<string, string>) returns (matches: seq<string>, discrepancies: seq<Discrepancy>)
    ensures (matches, discrepancies) == CompareFields(fields, champs, espnResults, managerMapping, known)
  {
    matches, discrepancies := [], [];
    var i := 0;
    while i < |fields|
      invariant 0 <= i <= |fields|
      invariant (matches, discrepancies) == CompareFields(fields[..i], champs, espnResults, managerMapping, known)
    {
      assert fields[..i + 1][..i] == fields[..i];
      var field := fields[i];
      var espnValue := EspnValue(espnResults, field);
      matches, discrepancies := CompareField(field, ChampsValue(champs, field), espnValue,
        MappedName(managerMapping, known, espnValue), matches, discrepancies);
      i := i + 1;
    }
    assert fields[..i] == fields;
  }

  /** One iteration of the field loop. */
  method CompareField(field: Field, champsValue: Option<string>, espnValue: Option<string>, espnFirstName: Option<string>,
    matches0: seq<string>, discrepancies0: seq<Discrepancy>) returns (matches: seq<string>, discrepancies: seq<Discrepancy>)
    ensures (matches, discrepancies) ==
      match FieldReport(field, champsValue, espnValue, espnFirstName) {
        case MatchLine(line) => (matches0 + [line], discrepancies0)
        case Differs(d) => (matches0, discrepancies0 + [d])
        case Silent => (matches0, discrepancies0)
      }
  {
    matches, discrepancies := matches0, discrepancies0;
    if Present(champsValue) && Present(espnFirstName) {
      if Lower(champsValue.value) == Lower(espnFirstName.value) {
        matches := matches + [FieldName(field) + ": " + champsValue.value];
      } else {
        discrepancies := discrepancies + [Discrepancy(FieldName(field), champsValue, espnValue, espnFirstName, None)];
      }
    } else if Present(champsValue) && !Present(espnFirstName) {
      discrepancies := discrepancies + [Discrepancy(FieldName(field), champsValue, None, None, Some("Missing in ESPN data"))];
    } else if !Present(champsValue) && Present(espnFirstName) {
      discrepancies := discrepancies + [Discrepancy(FieldName(field), None, espnValue, espnFirstName, Some("Missing in champions.js"))];
    }
  }

  /**
   * A field matches exactly when both sides have it and they agree up to
   * letter case; a field on one side only is a discrepancy noted as missing
   * on the other; a field on neither side reports nothing.
   */
  lemma FieldReportMeaning(f: Field, champsValue: Option<string>, espnValue: Option<string>, espnFirstName: Option<string>)
    ensures var r := FieldReport(f, champsValue, espnValue, espnFirstName);
      && (r.MatchLine? <==> Present(champsValue) && Present(espnFirstName) && Lower(champsValue.value) == Lower(espnFirstName.value))
      && (r.Silent? <==> !Present(champsValue) && !Present(espnFirstName))
      && (r.Differs? && r.d.note == Some("Missing in ESPN data") <==> Present(champsValue) && !Present(espnFirstName))
      && (r.Differs? && r.d.note == Some("Missing in champions.js") <==> !Present(champsValue) && Present(espnFirstName))
      && (r.Differs? && r.d.note == None <==>
            Present(champsValue) && Present(espnFirstName) && Lower(champsValue.value) != Lower(espnFirstName.value))
      && (r.Differs? ==> r.d.field == FieldName(f) && r.d.championsJs == (if Present(champsValue) then champsValue else None))
  {
  }

  /** A field reported on either side */
  function ReportedOn(champs: Option<ChampionsEntry>, espn: Extraction, mapping: map<string, string>, known: map<string, string>): Field -> bool {
    (f: Field) => Present(ChampsValue(champs, f)) || Present(MappedName(mapping, known, EspnValue(espn, f)))
  }

  /** Every field present on at least one side yields exactly one line, match or discrepancy; the others yield none. */
  lemma {:induction false} CompareFieldsCount(fields: seq<Field>, champs: Option<ChampionsEntry>, espn: Extraction,
    mapping: map<string, string>, known: map<string, string>)
    ensures var (matches, discrepancies) := CompareFields(fields, champs, espn, mapping, known);
      |matches| + |discrepancies| == CountWhere(fields, ReportedOn(champs, espn, mapping, known))
  {
    if fields != [] {
      var f := fields[|fields| - 1];
      CompareFieldsCount(fields[..|fields| - 1], champs, espn, mapping, known);
      var espnValue := EspnValue(espn, f);
      FieldReportMeaning(f, ChampsValue(champs, f), espnValue, MappedName(mapping, known, espnValue));
    }
  }

  /**
   * A season is skipped exactly when neither the history nor the league data
   * has it; a compared season always has data.
   */
  lemma ComparisonOutcome(season: int, champsData: map<int, ChampionsEntry>, espnData: seq<Season>,
    managerMapping: map<string, string>, known: map<string, string>)
    ensures var c := ComparisonOf(season, champsData, espnData, managerMapping, known);
      && (c.NoData? <==> season !in champsData && SeasonOf(espnData, season).None?)
      && (c.ComparisonRaised? <==> PlayoffResultsOf(espnData, season).Raised?)
      && (c.Compared? ==> c.hasData && c.season == season && |c.matches| + |c.discrepancies| <= |Fields|)
  {
    var c := ComparisonOf(season, champsData, espnData, managerMapping, known);
    if c.Compared? {
      var champs := if season in champsData then Some(champsData[season]) else None;
      CompareFieldsCount(Fields, champs, PlayoffResultsOf(espnData, season), managerMapping, known);
    }
  }
}
