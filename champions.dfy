/**
 * The championship history of data/champions.js and the helpers the site
 * queries it with. The history table itself is data; every helper takes it
 * as the parameter `cs`, listed as in the file (oldest season first).
 */
module Champions {
  import opened Core
  import opened Sorting

  /** One season of the history; a field the league did not record is `null` (`None`). */
  datatype Championship = Championship(
    year: int,
    champion: Option<string>,
    runnerUp: Option<string>,
    thirdPlace: Option<string>,
    regularSeasonChamp: Option<string>,
    otherDivisionChamp: Option<string>,
    regularSeasonMostPoints: Option<string>)

  /** Rows in strictly increasing year order, as the history table is listed. */
  predicate Chronological(cs: seq<Championship>) {
    forall i, j :: 0 <= i < j < |cs| ==> cs[i].year < cs[j].year
  }

  // ---------------------------------------------------------------------
  // getChampionshipsByYear (lines 250-253)
  // ---------------------------------------------------------------------

  /** `[...championships].reverse()` when `reverse`, else the table itself. */
  function ChampionshipsByYear(cs: seq<Championship>, reverse: bool): seq<Championship> {
    if reverse then Reverse(cs) else cs
  }

  /**
   * Reversed, the history lists the newest season first, and reversing once
   * more gives the table back unchanged; otherwise it is the table itself.
   */
  lemma ChampionshipsByYearMeaning(cs: seq<Championship>, reverse: bool)
    ensures var r := ChampionshipsByYear(cs, reverse);
      && |r| == |cs|
      && (reverse ==> (forall i :: 0 <= i < |cs| ==> r[i] == cs[|cs| - 1 - i]) && ChampionshipsByYear(r, true) == cs)
      && (reverse && Chronological(cs) ==> forall i, j :: 0 <= i < j < |r| ==> r[i].year > r[j].year)
      && (!reverse ==> r == cs)
  {
    ReverseReverse(cs);
  }

  // ---------------------------------------------------------------------
  // getAllChampions (lines 255-262)
  // ---------------------------------------------------------------------

  predicate HasChampion(c: Championship) { Present(c.champion) }

  /** The row's champion is `name`: `champ.champion === name`. */
  function ChampionIs(name: string): Championship -> bool {
    (c: Championship) => c.champion == Some(name)
  }

  /** `name` won at least one season. */
  ghost predicate WonBy(cs: seq<Championship>, name: string) {
    name != "" && exists i :: 0 <= i < |cs| && cs[i].champion == Some(name)
  }

  /** The contents of the `Set` of champions, in insertion order. */
  function UniqueChampions(cs: seq<Championship>): seq<string> {
    if cs == [] then []
    else
      var r := UniqueChampions(cs[..|cs| - 1]);
      var c := cs[|cs| - 1];
      if Present(c.champion) && c.champion.value !in r then r + [c.champion.value] else r
  }

  /** The `forEach` that fills the `Set`; a `Set` keeps insertion order, so it is held as a sequence. */
  method GetAllChampions(cs: seq<Championship>) returns (champions: seq<string>)
    ensures champions == UniqueChampions(cs)
  {
    champions := [];
    for i := 0 to |cs|
      invariant champions == UniqueChampions(cs[..i])
    {
      assert cs[..i + 1][..i] == cs[..i];
      var champ := cs[i];
      if Present(champ.champion) && champ.champion.value !in champions {
        champions := champions + [champ.champion.value];
      }
    }
    assert cs[..|cs|] == cs;
  }

  /** The first row a manager won, if any. */
  function FirstTitle(cs: seq<Championship>, name: string): (r: Option<nat>)
    ensures r.None? ==> forall j :: 0 <= j < |cs| ==> cs[j].champion != Some(name)
    ensures r.Some? ==> r.value < |cs| && cs[r.value].champion == Some(name)
    ensures r.Some? ==> forall j :: 0 <= j < r.value ==> cs[j].champion != Some(name)
  {
    FirstWhere(cs, ChampionIs(name))
  }

  lemma FirstTitleSnoc(cs: seq<Championship>, c: Championship, name: string)
    ensures FirstTitle(cs + [c], name) ==
      if FirstTitle(cs, name).Some? then FirstTitle(cs, name)
      else if c.champion == Some(name) then Some(|cs|) else None
  {
    forall k | 0 <= k < |cs| ensures (cs + [c])[k] == cs[k] {
    }
    assert (cs + [c])[|cs|] == c;
  }

  /** Every champion appears exactly once, and nothing else appears. */
  lemma {:induction false} UniqueChampionsMembers(cs: seq<Championship>)
    ensures Distinct(UniqueChampions(cs))
    ensures forall x :: x in UniqueChampions(cs) <==> WonBy(cs, x)
  {
    if cs != [] {
      var p := cs[..|cs| - 1];
      var c := cs[|cs| - 1];
      UniqueChampionsMembers(p);
      forall x ensures x in UniqueChampions(cs) <==> WonBy(cs, x) {
        if WonBy(cs, x) && c.champion != Some(x) {
          var i :| 0 <= i < |cs| && cs[i].champion == Some(x);
          assert p[i] == cs[i];
        }
        if WonBy(p, x) {
          var i :| 0 <= i < |p| && p[i].champion == Some(x);
          assert cs[i] == p[i];
        }
      }
    }
  }

  /** The champions come in the order of their first titles. */
  lemma {:induction false} UniqueChampionsOrder(cs: seq<Championship>)
    ensures forall i :: 0 <= i < |UniqueChampions(cs)| ==> FirstTitle(cs, UniqueChampions(cs)[i]).Some?
    ensures forall i, j :: 0 <= i < j < |UniqueChampions(cs)| ==>
      FirstTitle(cs, UniqueChampions(cs)[i]).value < FirstTitle(cs, UniqueChampions(cs)[j]).value
  {
    if cs != [] {
      var p := cs[..|cs| - 1];
      var c := cs[|cs| - 1];
      assert cs == p + [c];
      UniqueChampionsOrder(p);
      var q := UniqueChampions(p);
      forall i | 0 <= i < |q| ensures FirstTitle(p, q[i]).Some? && FirstTitle(cs, q[i]) == FirstTitle(p, q[i]) {
        FirstTitleSnoc(p, c, q[i]);
      }
      if Present(c.champion) && c.champion.value !in q {
        FirstTitleSnoc(p, c, c.champion.value);
        UniqueChampionsMembers(p);
        assert !WonBy(p, c.champion.value);
        assert FirstTitle(p, c.champion.value).None?;
      }
    }
  }

  // ---------------------------------------------------------------------
  // getChampionshipCount, getChampionshipsForManager (lines 264-272)
  // ---------------------------------------------------------------------

  /** The rows `name` won, in table order, each as often as it occurs. */
  function ChampionshipsForManager(cs: seq<Championship>, name: string): (r: seq<Championship>)
    ensures forall i :: 0 <= i < |r| ==> r[i] in cs && r[i].champion == Some(name)
    ensures forall i :: 0 <= i < |cs| && cs[i].champion == Some(name) ==> cs[i] in r
    ensures |r| == CountWhere(cs, ChampionIs(name))
  {
    CountIsFilterLength(cs, ChampionIs(name));
    Filter(cs, ChampionIs(name))
  }

  /**
   * The list keeps table order and multiplicity: it reads the table at
   * increasing positions, which are exactly the rows `name` won.
   */
  lemma ChampionshipsInTableOrder(cs: seq<Championship>, name: string)
    ensures exists idx :: PicksPositions(ChampionshipsForManager(cs, name), cs, ChampionIs(name), idx)
  {
    FilterInOrder(cs, ChampionIs(name));
    var idx :| PicksPositions(Filter(cs, ChampionIs(name)), cs, ChampionIs(name), idx);
    assert PicksPositions(ChampionshipsForManager(cs, name), cs, ChampionIs(name), idx);
  }

  /** The number of rows `name` won: the length of their list. */
  function ChampionshipCount(cs: seq<Championship>, name: string): (n: nat)
    ensures n == |ChampionshipsForManager(cs, name)|
  {
    CountIsFilterLength(cs, ChampionIs(name));
    CountWhere(cs, ChampionIs(name))
  }

  // ---------------------------------------------------------------------
  // getChampionshipLeaderboard (lines 274-293)
  // ---------------------------------------------------------------------

  datatype Entry = Entry(name: string, count: int)

  /** The `counts` object after the `forEach`: one key per champion, in insertion order. */
  function Tally(cs: seq<Championship>): Dict<string, int> {
    if cs == [] then EmptyDict()
    else
      var d := Tally(cs[..|cs| - 1]);
      var c := cs[|cs| - 1];
      if Present(c.champion) then d.Put(c.champion.value, d.Get(c.champion.value, 0) + 1) else d
  }

  /** `Object.entries(counts).map(([name, count]) => ({ name, count }))` */
  function EntriesOf(keys: seq<string>, m: map<string, int>): (r: seq<Entry>)
    ensures |r| == |keys|
    ensures forall i :: 0 <= i < |keys| ==> r[i] == Entry(keys[i], if keys[i] in m then m[keys[i]] else 0)
  {
    if keys == [] then []
    else
      var k := keys[|keys| - 1];
      EntriesOf(keys[..|keys| - 1], m) + [Entry(k, if k in m then m[k] else 0)]
  }

  /** The comparator: more titles first, then names in code-point order. */
  predicate LeaderBefore(a: Entry, b: Entry) {
    b.count < a.count || (b.count == a.count && StrLt(a.name, b.name))
  }

  /** The leaderboard: the tallied entries, sorted. */
  function Leaderboard(cs: seq<Championship>): seq<Entry> {
    var t := Tally(cs);
    SortBy(EntriesOf(t.keys, t.entries), LeaderBefore)
  }

  method GetChampionshipLeaderboard(cs: seq<Championship>) returns (leaderboard: seq<Entry>)
    ensures leaderboard == Leaderboard(cs)
  {
    var counts: Dict<string, int> := EmptyDict();
    for i := 0 to |cs|
      invariant counts == Tally(cs[..i])
    {
      assert cs[..i + 1][..i] == cs[..i];
      var champ := cs[i];
      if Present(champ.champion) {
        counts := counts.Put(champ.champion.value, counts.Get(champ.champion.value, 0) + 1);
      }
    }
    assert cs[..|cs|] == cs;
    leaderboard := SortBy(EntriesOf(counts.keys, counts.entries), LeaderBefore);
  }

  lemma LeaderBeforeStrict()
    ensures StrictOrder(LeaderBefore)
  {
    forall a: Entry ensures !LeaderBefore(a, a) {
      StrLtIrreflexive(a.name);
    }
    forall a: Entry, b: Entry, c: Entry | LeaderBefore(a, b) && LeaderBefore(b, c) ensures LeaderBefore(a, c) {
      if a.count == b.count && b.count == c.count {
        StrLtTransitive(a.name, b.name, c.name);
      }
    }
  }

  lemma {:induction false} TallyValid(cs: seq<Championship>)
    ensures Tally(cs).Valid()
  {
    if cs != [] {
      var d := Tally(cs[..|cs| - 1]);
      var c := cs[|cs| - 1];
      TallyValid(cs[..|cs| - 1]);
      if Present(c.champion) {
        PutValid(d, c.champion.value, d.Get(c.champion.value, 0) + 1);
      }
    }
  }

  /** The tally holds exactly the champions, each with its number of titles. */
  lemma {:induction false} TallyCounts(cs: seq<Championship>)
    ensures Tally(cs).Valid()
    ensures forall name :: name in Tally(cs).entries <==> WonBy(cs, name)
    ensures forall name :: name in Tally(cs).entries ==> Tally(cs).entries[name] == ChampionshipCount(cs, name)
  {
    if cs != [] {
      var p := cs[..|cs| - 1];
      var c := cs[|cs| - 1];
      assert cs == p + [c];
      TallyCounts(p);
      TallySnoc(p, c);
      TallyCountsStep(p, c, Tally(p));
    }
  }

  /** One more row: the tally of the prefix, updated as the loop does, counts the longer table. */
  lemma TallyCountsStep(p: seq<Championship>, c: Championship, d: Dict<string, int>)
    requires d.Valid()
    requires forall name :: name in d.entries <==> WonBy(p, name)
    requires forall name :: name in d.entries ==> d.entries[name] == ChampionshipCount(p, name)
    ensures var d' := if Present(c.champion) then d.Put(c.champion.value, d.Get(c.champion.value, 0) + 1) else d;
      && d'.Valid()
      && (forall name :: name in d'.entries <==> WonBy(p + [c], name))
      && (forall name :: name in d'.entries ==> d'.entries[name] == ChampionshipCount(p + [c], name))
  {
    WonBySnoc(p, c);
    var d' := if Present(c.champion) then d.Put(c.champion.value, d.Get(c.champion.value, 0) + 1) else d;
    if Present(c.champion) {
      PutValid(d, c.champion.value, d.Get(c.champion.value, 0) + 1);
    }
    forall name | name in d'.entries ensures d'.entries[name] == ChampionshipCount(p + [c], name) {
      CountSnoc(p, c, name);
      if Present(c.champion) && name == c.champion.value && name !in d.entries {
        CountNone(p, name);
      }
    }
  }

  lemma WonBySnoc(p: seq<Championship>, c: Championship)
    ensures forall name :: WonBy(p + [c], name) <==> WonBy(p, name) || (Present(c.champion) && c.champion.value == name)
  {
    var cs := p + [c];
    forall name ensures WonBy(cs, name) <==> WonBy(p, name) || (Present(c.champion) && c.champion.value == name) {
      if WonBy(cs, name) && c.champion != Some(name) {
        var i :| 0 <= i < |cs| && cs[i].champion == Some(name);
        assert p[i] == cs[i];
      }
      if WonBy(p, name) {
        var i :| 0 <= i < |p| && p[i].champion == Some(name);
        assert cs[i] == p[i];
      }
      if Present(c.champion) && c.champion.value == name {
        assert cs[|p|].champion == Some(name);
      }
    }
  }

  lemma CountSnoc(p: seq<Championship>, c: Championship, name: string)
    ensures ChampionshipCount(p + [c], name) == ChampionshipCount(p, name) + (if c.champion == Some(name) then 1 else 0)
  {
    assert (p + [c])[..|p|] == p;
    assert CountWhere(p + [c], ChampionIs(name)) == CountWhere(p, ChampionIs(name)) + (if ChampionIs(name)(c) then 1 else 0);
  }

  /** A manager with no title has a count of zero. */
  lemma {:induction false} CountNone(cs: seq<Championship>, name: string)
    requires name != "" && !WonBy(cs, name)
    ensures ChampionshipCount(cs, name) == 0
  {
    if cs != [] {
      var p := cs[..|cs| - 1];
      forall i | 0 <= i < |p| ensures p[i].champion != Some(name) {
        assert p[i] == cs[i];
      }
      CountNone(p, name);
    }
  }

  /** Sum of the counts of a list of entries. */
  function EntrySum(es: seq<Entry>): int {
    if es == [] then 0 else EntrySum(es[..|es| - 1]) + es[|es| - 1].count
  }

  lemma {:induction false} EntrySumAppend(a: seq<Entry>, b: seq<Entry>)
    ensures EntrySum(a + b) == EntrySum(a) + EntrySum(b)
    decreases |b|
  {
    if b == [] {
      assert a + b == a;
    } else {
      assert (a + b)[..|a + b| - 1] == a + b[..|b| - 1];
      EntrySumAppend(a, b[..|b| - 1]);
    }
  }

  lemma EntrySumSnoc(a: seq<Entry>, x: Entry)
    ensures EntrySum(a + [x]) == EntrySum(a) + x.count
  {
    assert (a + [x])[..|a|] == a;
  }

  /** Taking one entry out of a list takes its count off the sum. */
  lemma EntrySumRemove(b: seq<Entry>, j: nat)
    requires j < |b|
    ensures EntrySum(b) == EntrySum(b[..j] + b[j + 1..]) + b[j].count
  {
    var pre, post := b[..j], b[j + 1..];
    SplitAt(b, j);
    EntrySumAppend(pre + [b[j]], post);
    EntrySumSnoc(pre, b[j]);
    EntrySumAppend(pre, post);
  }

  lemma MultisetRemove<T>(b: seq<T>, j: nat)
    requires j < |b|
    ensures multiset(b[..j] + b[j + 1..]) == multiset(b) - multiset{b[j]}
  {
    assert b == b[..j] + [b[j]] + b[j + 1..];
  }

  /** Reordering entries keeps their sum. */
  lemma {:induction false} EntrySumPermutation(a: seq<Entry>, b: seq<Entry>)
    requires multiset(a) == multiset(b)
    ensures EntrySum(a) == EntrySum(b)
    decreases |a|
  {
    if a != [] {
      var x := a[|a| - 1];
      var p := a[..|a| - 1];
      assert a == p + [x];
      assert x in multiset(b);
      var j :| 0 <= j < |b| && b[j] == x;
      MultisetRemove(b, j);
      assert multiset(p) == multiset(a) - multiset{x};
      EntrySumPermutation(p, b[..j] + b[j + 1..]);
      EntrySumRemove(b, j);
    }
  }

  /** Changing the value of key `k` changes the entry sum by the difference, if `k` is listed. */
  lemma {:induction false} EntrySumUpdate(keys: seq<string>, m: map<string, int>, k: string, v: int)
    requires Distinct(keys) && k in m
    ensures EntrySum(EntriesOf(keys, m[k := v])) == EntrySum(EntriesOf(keys, m)) + (if k in keys then v - m[k] else 0)
  {
    if keys != [] {
      var p := keys[..|keys| - 1];
      assert Distinct(p);
      EntrySumUpdate(p, m, k, v);
      if keys[|keys| - 1] == k {
        assert k !in p;
      } else {
        assert k in keys <==> k in p;
      }
    }
  }

  /** The same with `k` not yet a key. */
  lemma {:induction false} EntrySumFresh(keys: seq<string>, m: map<string, int>, k: string, v: int)
    requires k !in keys
    ensures EntrySum(EntriesOf(keys, m[k := v])) == EntrySum(EntriesOf(keys, m))
  {
    if keys != [] {
      EntrySumFresh(keys[..|keys| - 1], m, k, v);
    }
  }

  /** A title for a manager already counted adds one to the entry sum. */
  lemma PutSumListed(d: Dict<string, int>, k: string)
    requires d.Valid() && k in d.entries
    ensures EntrySum(EntriesOf(d.keys, d.entries[k := d.entries[k] + 1])) == EntrySum(EntriesOf(d.keys, d.entries)) + 1
  {
    KeyListed(d, k);
    EntrySumUpdate(d.keys, d.entries, k, d.entries[k] + 1);
  }

  /** So does the first title of a manager, who is appended to the keys. */
  lemma PutSumFresh(d: Dict<string, int>, k: string)
    requires d.Valid() && k !in d.entries
    ensures EntrySum(EntriesOf(d.keys + [k], d.entries[k := 1])) == EntrySum(EntriesOf(d.keys, d.entries)) + 1
  {
    KeyListed(d, k);
    var keys, m := d.keys + [k], d.entries[k := 1];
    assert keys[..|keys| - 1] == d.keys;
    assert EntriesOf(keys, m) == EntriesOf(d.keys, m) + [Entry(k, 1)];
    EntrySumSnoc(EntriesOf(d.keys, m), Entry(k, 1));
    EntrySumFresh(d.keys, d.entries, k, 1);
  }

  /** One more row counts one more title for its champion, if it has one. */
  lemma TallySnoc(p: seq<Championship>, c: Championship)
    ensures Tally(p + [c]) == (if Present(c.champion) then Tally(p).Put(c.champion.value, Tally(p).Get(c.champion.value, 0) + 1) else Tally(p))
  {
    assert (p + [c])[..|p|] == p;
  }

  /** One more row adds one to the entry sum when it has a champion, and nothing otherwise. */
  lemma TallySumStep(p: seq<Championship>, c: Championship)
    ensures EntrySum(EntriesOf(Tally(p + [c]).keys, Tally(p + [c]).entries))
      == EntrySum(EntriesOf(Tally(p).keys, Tally(p).entries)) + (if HasChampion(c) then 1 else 0)
  {
    TallySnoc(p, c);
    if Present(c.champion) {
      var d, k := Tally(p), c.champion.value;
      TallyValid(p);
      if k in d.entries {
        assert Tally(p + [c]) == Dict(d.keys, d.entries[k := d.entries[k] + 1]);
        PutSumListed(d, k);
      } else {
        assert Tally(p + [c]) == Dict(d.keys + [k], d.entries[k := 1]);
        PutSumFresh(d, k);
      }
    } else {
      assert Tally(p + [c]) == Tally(p);
    }
  }

  /** The tallied counts add up to the number of rows with a champion. */
  lemma {:induction false} TallySum(cs: seq<Championship>)
    ensures EntrySum(EntriesOf(Tally(cs).keys, Tally(cs).entries)) == CountWhere(cs, HasChampion)
  {
    if cs != [] {
      var p := cs[..|cs| - 1];
      assert cs == p + [cs[|cs| - 1]];
      TallySum(p);
      TallySumStep(p, cs[|cs| - 1]);
    }
  }

  /** Every entry is a champion with their number of titles, and every champion has an entry. */
  lemma LeaderboardEntries(cs: seq<Championship>)
    ensures var r := Leaderboard(cs);
      && (forall i :: 0 <= i < |r| ==> WonBy(cs, r[i].name) && r[i].count == ChampionshipCount(cs, r[i].name))
      && (forall name :: WonBy(cs, name) ==> exists i :: 0 <= i < |r| && r[i].name == name)
  {
    var t := Tally(cs);
    var pre := EntriesOf(t.keys, t.entries);
    var r := Leaderboard(cs);
    TallyCounts(cs);
    forall i | 0 <= i < |r| ensures WonBy(cs, r[i].name) && r[i].count == ChampionshipCount(cs, r[i].name) {
      assert r[i] in multiset(pre);
      var k :| 0 <= k < |pre| && pre[k] == r[i];
      assert t.keys[k] in (set x | x in t.keys);
    }
    forall name | WonBy(cs, name) ensures exists i :: 0 <= i < |r| && r[i].name == name {
      assert name in (set x | x in t.keys);
      var k :| 0 <= k < |t.keys| && t.keys[k] == name;
      assert pre[k] in multiset(r);
      var i :| 0 <= i < |r| && r[i] == pre[k];
    }
  }

  /** Each champion has one entry only. */
  lemma LeaderboardNames(cs: seq<Championship>)
    ensures var r := Leaderboard(cs);
      forall i, j :: 0 <= i < j < |r| ==> r[i].name != r[j].name
  {
    var t := Tally(cs);
    var pre := EntriesOf(t.keys, t.entries);
    var r := Leaderboard(cs);
    LeaderboardEntries(cs);
    TallyValid(cs);
    assert Distinct(pre) by {
      forall a, b | 0 <= a < b < |pre| ensures pre[a] != pre[b] {
        assert pre[a].name == t.keys[a] && pre[b].name == t.keys[b];
      }
    }
    DistinctOnce(pre);
    forall i, j | 0 <= i < j < |r| ensures r[i].name != r[j].name {
      SameAtTwo(r, i, j);
      assert multiset(r)[r[i]] <= 1;
    }
  }

  /** The entries are sorted by count descending, ties by name ascending. */
  lemma LeaderboardOrder(cs: seq<Championship>)
    ensures var r := Leaderboard(cs);
      forall i, j :: 0 <= i < j < |r| ==>
        r[i].count > r[j].count || (r[i].count == r[j].count && StrLt(r[i].name, r[j].name))
  {
    var t := Tally(cs);
    var r := Leaderboard(cs);
    LeaderBeforeStrict();
    SortByIsSorted(EntriesOf(t.keys, t.entries), LeaderBefore);
    LeaderboardNames(cs);
    forall i, j | 0 <= i < j < |r| ensures r[i].count > r[j].count || (r[i].count == r[j].count && StrLt(r[i].name, r[j].name)) {
      StrLtTotal(r[i].name, r[j].name);
    }
  }

  /** The counts on the leaderboard add up to the number of seasons with a champion. */
  lemma LeaderboardSum(cs: seq<Championship>)
    ensures EntrySum(Leaderboard(cs)) == CountWhere(cs, HasChampion)
  {
    var t := Tally(cs);
    TallySum(cs);
    EntrySumPermutation(Leaderboard(cs), EntriesOf(t.keys, t.entries));
  }

  // ---------------------------------------------------------------------
  // getBackToBackChampions (lines 295-326)
  // ---------------------------------------------------------------------

  datatype Streak = Streak(manager: string, startYear: int, endYear: int, count: int)

  /** No two rows are for the same season. */
  predicate DistinctYears(cs: seq<Championship>) {
    forall a, b :: 0 <= a < |cs| && 0 <= b < |cs| && a != b ==> cs[a].year != cs[b].year
  }

  /** The comparator `a.year - b.year`. */
  predicate EarlierYear(a: Championship, b: Championship) {
    a.year < b.year
  }

  /** `sortedChamps` */
  function SortedRows(cs: seq<Championship>): seq<Championship> {
    SortBy(cs, EarlierYear)
  }

  /** `current.champion && previous.champion && current.champion === previous.champion` */
  predicate SameChampion(previous: Championship, current: Championship) {
    Present(current.champion) && Present(previous.champion) && current.champion == previous.champion
  }

  function Name(c: Championship): string {
    if c.champion.Some? then c.champion.value else ""
  }

  /** The test of `backToBack.find(...)`. */
  function Continues(manager: string, endYear: int): Streak -> bool {
    (b: Streak) => b.manager == manager && b.endYear == endYear
  }

  /** `backToBack` once the loop has looked at the rows before `n` of the sorted table. */
  function StreaksUpTo(s: seq<Championship>, n: nat): seq<Streak>
    requires n <= |s|
  {
    if n <= 1 then []
    else
      StreakStep(StreaksUpTo(s, n - 1), s[n - 2], s[n - 1])
  }

  /** One iteration: extend the streak `previous` ended, or open a new one. */
  function StreakStep(b: seq<Streak>, previous: Championship, current: Championship): seq<Streak> {
    if SameChampion(previous, current) then
      match FirstWhere(b, Continues(current.champion.value, previous.year)) {
        case Some(k) => b[k := b[k].(endYear := current.year)]
        case None => b + [Streak(current.champion.value, previous.year, current.year, 2)]
      }
    else b
  }

  /** `streak.count = streak.endYear - streak.startYear + 1` */
  function WithCount(b: Streak): Streak {
    b.(count := b.endYear - b.startYear + 1)
  }

  /** The comparator `b.count - a.count`. */
  predicate LongerStreak(a: Streak, b: Streak) {
    b.count < a.count
  }

  function BackToBackChampions(cs: seq<Championship>): seq<Streak> {
    var s := SortedRows(cs);
    SortBy(MapSeq(StreaksUpTo(s, |s|), WithCount), LongerStreak)
  }

  method GetBackToBackChampions(cs: seq<Championship>) returns (backToBack: seq<Streak>)
    ensures backToBack == BackToBackChampions(cs)
  {
    var sortedChamps := SortedRows(cs);
    backToBack := CollectStreaks(sortedChamps);
    backToBack := FixCounts(backToBack);
    backToBack := SortBy(backToBack, LongerStreak);
  }

  /** The `for` loop over the sorted rows. */
  method CollectStreaks(sortedChamps: seq<Championship>) returns (backToBack: seq<Streak>)
    ensures backToBack == StreaksUpTo(sortedChamps, |sortedChamps|)
  {
    backToBack := [];
    var i := 1;
    while i < |sortedChamps|
      invariant 1 <= i <= Max(1, |sortedChamps|)
      invariant backToBack == StreaksUpTo(sortedChamps, Min(i, |sortedChamps|))
    {
      var current := sortedChamps[i];
      var previous := sortedChamps[i - 1];
      if Present(current.champion) && Present(previous.champion) && current.champion == previous.champion {
        var existing := FirstWhere(backToBack, Continues(current.champion.value, previous.year));
        if existing.Some? {
          backToBack := backToBack[existing.value := backToBack[existing.value].(endYear := current.year)];
        } else {
          backToBack := backToBack + [Streak(current.champion.value, previous.year, current.year, 2)];
        }
      }
      i := i + 1;
    }
  }

  /** The `forEach` that sets each streak's count from its years. */
  method FixCounts(found: seq<Streak>) returns (backToBack: seq<Streak>)
    ensures backToBack == MapSeq(found, WithCount)
  {
    backToBack := found;
    for j := 0 to |backToBack|
      invariant |backToBack| == |found|
      invariant forall k :: 0 <= k < j ==> backToBack[k] == WithCount(found[k])
      invariant forall k :: j <= k < |found| ==> backToBack[k] == found[k]
    {
      backToBack := backToBack[j := backToBack[j].(count := backToBack[j].endYear - backToBack[j].startYear + 1)];
    }
  }

  // The reference: maximal runs of one champion in the sorted table.

  /** Rows `f` to `l` all have the same champion. */
  ghost predicate Chain(s: seq<Championship>, f: nat, l: nat) {
    f <= l < |s| && forall k :: f <= k < l ==> SameChampion(s[k], s[k + 1])
  }

  /**
   * Rows `f` to `l` (at least two) are a run of one champion among the
   * first `n` rows that the row before does not extend, nor, inside the
   * first `n`, the row after.
   */
  ghost predicate RunIn(s: seq<Championship>, n: nat, f: nat, l: nat) {
    && f < l < n <= |s|
    && Chain(s, f, l)
    && (f == 0 || !SameChampion(s[f - 1], s[f]))
    && (l == n - 1 || !SameChampion(s[l], s[l + 1]))
  }

  /** A maximal run of at least two titles in a row. */
  ghost predicate MaximalRun(s: seq<Championship>, f: nat, l: nat) {
    RunIn(s, |s|, f, l)
  }

  lemma ChainInside(s: seq<Championship>, f: nat, l: nat, g: nat)
    requires Chain(s, f, l)
    ensures f < g <= l ==> SameChampion(s[g - 1], s[g])
  {
  }

  lemma {:induction false} ChainChampion(s: seq<Championship>, f: nat, l: nat)
    requires Chain(s, f, l) && f < l
    ensures Present(s[f].champion) && s[f].champion == s[l].champion
    decreases l
  {
    if f < l - 1 {
      ChainChampion(s, f, l - 1);
    }
    assert SameChampion(s[l - 1], s[l]);
  }

  datatype Run = Run(first: nat, last: nat)

  /** The runs among the first `n` rows, in table order, as index pairs. */
  ghost function Runs(s: seq<Championship>, n: nat): seq<Run>
    requires n <= |s|
  {
    if n <= 1 then [] else NextRuns(s, n, Runs(s, n - 1))
  }

  /** Row `n - 1` extends the run the previous row ended, opens a run with it, or leaves the runs alone. */
  ghost function NextRuns(s: seq<Championship>, n: nat, r: seq<Run>): seq<Run>
    requires 2 <= n <= |s|
  {
    if SameChampion(s[n - 2], s[n - 1]) then
      if r != [] && r[|r| - 1].last == n - 2 then r[..|r| - 1] + [Run(r[|r| - 1].first, n - 1)]
      else r + [Run(n - 2, n - 1)]
    else r
  }

  /** Each listed run is a run, they come in order without overlapping, and the last row extends the last run. */
  ghost predicate SoundRuns(s: seq<Championship>, n: nat, r: seq<Run>) {
    && n <= |s|
    && (forall t :: 0 <= t < |r| ==> RunIn(s, n, r[t].first, r[t].last))
    && (forall t, u :: 0 <= t < u < |r| ==> r[t].last < r[u].first)
    && (n >= 2 && SameChampion(s[n - 2], s[n - 1]) ==> r != [] && r[|r| - 1].last == n - 1)
  }

  /** Every run among the first `n` rows is listed. */
  ghost predicate CompleteRuns(s: seq<Championship>, n: nat, r: seq<Run>) {
    forall f: nat, l: nat :: RunIn(s, n, f, l) ==> exists t :: 0 <= t < |r| && r[t] == Run(f, l)
  }

  lemma SoundExtend(s: seq<Championship>, n: nat, r: seq<Run>)
    requires 2 <= n <= |s| && SoundRuns(s, n - 1, r)
    requires SameChampion(s[n - 2], s[n - 1]) && r != [] && r[|r| - 1].last == n - 2
    ensures SoundRuns(s, n, r[..|r| - 1] + [Run(r[|r| - 1].first, n - 1)])
  {
    forall t | 0 <= t < |r| - 1 ensures RunIn(s, n, r[t].first, r[t].last) {
      assert r[t].last < r[|r| - 1].first;
    }
  }

  lemma SoundOpen(s: seq<Championship>, n: nat, r: seq<Run>)
    requires 2 <= n <= |s| && SoundRuns(s, n - 1, r)
    requires SameChampion(s[n - 2], s[n - 1]) && !(r != [] && r[|r| - 1].last == n - 2)
    ensures SoundRuns(s, n, r + [Run(n - 2, n - 1)])
  {
    forall t | 0 <= t < |r| ensures RunIn(s, n, r[t].first, r[t].last) && r[t].last < n - 2 {
      if t < |r| - 1 {
        assert r[t].last < r[t + 1].first;
      }
    }
  }

  lemma SoundSkip(s: seq<Championship>, n: nat, r: seq<Run>)
    requires 2 <= n <= |s| && SoundRuns(s, n - 1, r)
    requires !SameChampion(s[n - 2], s[n - 1])
    ensures SoundRuns(s, n, r)
  {
    forall t | 0 <= t < |r| ensures RunIn(s, n, r[t].first, r[t].last) {
    }
  }

  lemma {:induction false} RunsSound(s: seq<Championship>, n: nat)
    requires n <= |s|
    ensures SoundRuns(s, n, Runs(s, n))
  {
    if n >= 2 {
      RunsSound(s, n - 1);
      var r := Runs(s, n - 1);
      if SameChampion(s[n - 2], s[n - 1]) && r != [] && r[|r| - 1].last == n - 2 {
        SoundExtend(s, n, r);
      } else if SameChampion(s[n - 2], s[n - 1]) {
        SoundOpen(s, n, r);
      } else {
        SoundSkip(s, n, r);
      }
    }
  }

  /** A run that ends before the last row was listed before it, and stays where it was. */
  lemma CompleteEarlier(s: seq<Championship>, n: nat, r: seq<Run>, f: nat, l: nat, t: nat)
    requires 2 <= n <= |s| && Runs(s, n - 1) == r
    requires l < n - 1 && (l == n - 2 ==> !SameChampion(s[l], s[l + 1])) && t < |r| && r[t] == Run(f, l)
    ensures t < |Runs(s, n)| && Runs(s, n)[t] == Run(f, l)
  {
    if SameChampion(s[n - 2], s[n - 1]) && r[|r| - 1].last == n - 2 {
      assert t < |r| - 1;
      assert Runs(s, n) == r[..|r| - 1] + [Run(r[|r| - 1].first, n - 1)];
    } else if SameChampion(s[n - 2], s[n - 1]) {
      assert Runs(s, n) == r + [Run(n - 2, n - 1)];
    }
  }

  /** A run that ends before the last row was a run before it too. */
  lemma EarlierListed(s: seq<Championship>, n: nat, r: seq<Run>, f: nat, l: nat) returns (t: nat)
    requires 2 <= n <= |s| && CompleteRuns(s, n - 1, r)
    requires RunIn(s, n, f, l) && l < n - 1
    ensures t < |r| && r[t] == Run(f, l)
  {
    assert RunIn(s, n - 1, f, l);
    t :| 0 <= t < |r| && r[t] == Run(f, l);
  }

  /** A run that ends at the last row is the last listed run. */
  lemma CompleteLast(s: seq<Championship>, n: nat, r: seq<Run>, f: nat, l: nat)
    requires 2 <= n <= |s| && SoundRuns(s, n - 1, r) && Runs(s, n - 1) == r
    requires RunIn(s, n, f, l) && l == n - 1
    ensures Runs(s, n) != [] && Runs(s, n)[|Runs(s, n)| - 1] == Run(f, l)
  {
    ChainInside(s, f, l, n - 2);
    ChainInside(s, f, l, n - 1);
    if r != [] && r[|r| - 1].last == n - 2 {
      ChainInside(s, r[|r| - 1].first, n - 2, f);
      ChainInside(s, f, n - 1, r[|r| - 1].first);
    }
  }

  lemma {:induction false} RunsComplete(s: seq<Championship>, n: nat)
    requires n <= |s|
    ensures CompleteRuns(s, n, Runs(s, n))
  {
    if n >= 2 {
      RunsComplete(s, n - 1);
      var r := Runs(s, n - 1);
      forall f: nat, l: nat | RunIn(s, n, f, l) ensures exists t :: 0 <= t < |Runs(s, n)| && Runs(s, n)[t] == Run(f, l) {
        if l < n - 1 {
          var t := EarlierListed(s, n, r, f, l);
          CompleteEarlier(s, n, r, f, l, t);
        } else {
          RunsSound(s, n - 1);
          CompleteLast(s, n, r, f, l);
        }
      }
    }
  }

  /** The streak of a run, before its count is fixed. */
  function StreakOf(s: seq<Championship>, r: Run): Streak
    requires r.first < |s| && r.last < |s|
  {
    Streak(Name(s[r.first]), s[r.first].year, s[r.last].year, 2)
  }

  /** Streak `t` of `b` is the streak of run `t` of `r`. */
  ghost predicate Mirrors(s: seq<Championship>, b: seq<Streak>, r: seq<Run>) {
    && |b| == |r|
    && (forall t :: 0 <= t < |r| ==> r[t].first < |s| && r[t].last < |s|)
    && (forall t :: 0 <= t < |r| ==> b[t] == StreakOf(s, r[t]))
  }

  /** When the previous row ends the last run, `find` returns that run's streak. */
  lemma StreaksFind(s: seq<Championship>, n: nat, r: seq<Run>, b: seq<Streak>)
    requires 2 <= n <= |s| && Chronological(s) && SoundRuns(s, n - 1, r) && Mirrors(s, b, r)
    requires SameChampion(s[n - 2], s[n - 1]) && r != [] && r[|r| - 1].last == n - 2
    ensures FirstWhere(b, Continues(s[n - 1].champion.value, s[n - 2].year)) == Some(|r| - 1)
  {
    ChainChampion(s, r[|r| - 1].first, n - 2);
    assert Continues(s[n - 1].champion.value, s[n - 2].year)(b[|r| - 1]);
    forall j | 0 <= j < |r| - 1 ensures b[j].endYear < s[n - 2].year {
      assert r[j].last < r[|r| - 1].first;
    }
  }

  /** ... and the step then extends the last streak as the last run is extended. */
  lemma StreaksExtend(s: seq<Championship>, n: nat, r: seq<Run>, b: seq<Streak>)
    requires 2 <= n <= |s| && Chronological(s) && SoundRuns(s, n - 1, r) && Mirrors(s, b, r)
    requires SameChampion(s[n - 2], s[n - 1]) && r != [] && r[|r| - 1].last == n - 2
    ensures Mirrors(s, StreakStep(b, s[n - 2], s[n - 1]), r[..|r| - 1] + [Run(r[|r| - 1].first, n - 1)])
  {
    StreaksFind(s, n, r, b);
    var k := |r| - 1;
    var moved := r[..k] + [Run(r[k].first, n - 1)];
    var c := StreakStep(b, s[n - 2], s[n - 1]);
    assert c == b[k := b[k].(endYear := s[n - 1].year)];
    forall t | 0 <= t < |r| ensures moved[t].first < |s| && moved[t].last < |s| && c[t] == StreakOf(s, moved[t]) {
      if t < k {
        assert moved[t] == r[t];
      }
    }
  }

  /** Otherwise every streak ended before the previous row's season. */
  lemma StreaksEndBefore(s: seq<Championship>, n: nat, r: seq<Run>, b: seq<Streak>)
    requires 2 <= n <= |s| && Chronological(s) && SoundRuns(s, n - 1, r) && Mirrors(s, b, r)
    requires !(r != [] && r[|r| - 1].last == n - 2)
    ensures forall j :: 0 <= j < |b| ==> b[j].endYear < s[n - 2].year
  {
    forall j | 0 <= j < |r| ensures b[j].endYear < s[n - 2].year {
      if j < |r| - 1 {
        assert r[j].last < r[|r| - 1].first;
      }
    }
  }

  /** ... so `find` comes back empty and the step opens a streak for the two rows. */
  lemma StreaksOpen(s: seq<Championship>, n: nat, r: seq<Run>, b: seq<Streak>)
    requires 2 <= n <= |s| && Chronological(s) && SoundRuns(s, n - 1, r) && Mirrors(s, b, r)
    requires SameChampion(s[n - 2], s[n - 1]) && !(r != [] && r[|r| - 1].last == n - 2)
    ensures Mirrors(s, StreakStep(b, s[n - 2], s[n - 1]), r + [Run(n - 2, n - 1)])
  {
    StreaksEndBefore(s, n, r, b);
    var found := Continues(s[n - 1].champion.value, s[n - 2].year);
    assert FirstWhere(b, found).None?;
    var started := Streak(s[n - 1].champion.value, s[n - 2].year, s[n - 1].year, 2);
    assert StreakStep(b, s[n - 2], s[n - 1]) == b + [started];
    assert started == StreakOf(s, Run(n - 2, n - 1));
  }

  /**
   * On a chronological table the streak list is the list of runs: the
   * `find` picks up exactly the streak the previous row ended.
   */
  lemma {:induction false} StreaksAreRuns(s: seq<Championship>, n: nat)
    requires n <= |s| && Chronological(s)
    ensures Mirrors(s, StreaksUpTo(s, n), Runs(s, n))
  {
    if n >= 2 {
      var r, b := Runs(s, n - 1), StreaksUpTo(s, n - 1);
      assert Runs(s, n) == NextRuns(s, n, r);
      assert StreaksUpTo(s, n) == StreakStep(b, s[n - 2], s[n - 1]);
      assert Mirrors(s, StreakStep(b, s[n - 2], s[n - 1]), NextRuns(s, n, r)) by {
        StreaksAreRuns(s, n - 1);
        RunsSound(s, n - 1);
        StreaksNext(s, n, r, b);
      }
    }
  }

  /** One step of the streak list follows one step of the runs. */
  lemma StreaksNext(s: seq<Championship>, n: nat, r: seq<Run>, b: seq<Streak>)
    requires 2 <= n <= |s| && Chronological(s) && SoundRuns(s, n - 1, r) && Mirrors(s, b, r)
    ensures Mirrors(s, StreakStep(b, s[n - 2], s[n - 1]), NextRuns(s, n, r))
  {
    if SameChampion(s[n - 2], s[n - 1]) && r != [] && r[|r| - 1].last == n - 2 {
      StreaksExtend(s, n, r, b);
    } else if SameChampion(s[n - 2], s[n - 1]) {
      StreaksOpen(s, n, r, b);
    }
  }

  /** Seasons present for every year between the first and last make a year gap the number of rows between. */
  lemma {:induction false} ConsecutiveYears(s: seq<Championship>, f: nat, l: nat)
    requires f <= l < |s|
    requires forall k :: 0 <= k < |s| - 1 ==> s[k + 1].year == s[k].year + 1
    ensures s[l].year - s[f].year == l - f
    decreases l
  {
    if f < l {
      ConsecutiveYears(s, f, l - 1);
    }
  }

  /** A table without repeated seasons sorts into a chronological one. */
  lemma SortedRowsChronological(cs: seq<Championship>)
    requires DistinctYears(cs)
    ensures Chronological(SortedRows(cs))
  {
    var s := SortedRows(cs);
    SortByIsSorted(cs, EarlierYear);
    assert Distinct(cs);
    DistinctOnce(cs);
    forall i, j | 0 <= i < j < |s| ensures s[i].year < s[j].year {
      SameAtTwo(s, i, j);
      assert s[i] in multiset(cs) && s[j] in multiset(cs);
      var a :| 0 <= a < |cs| && cs[a] == s[i];
      var b :| 0 <= b < |cs| && cs[b] == s[j];
    }
  }

  // What getBackToBackChampions reports.

  /** The streak reported for rows `f` to `l`, with its count set from its years. */
  function RunStreak(s: seq<Championship>, f: nat, l: nat): Streak
    requires f <= l < |s|
  {
    Streak(Name(s[f]), s[f].year, s[l].year, s[l].year - s[f].year + 1)
  }

  /** A reported streak names the champion of every season of its run, spans at least two seasons, and counts one per season when no year is skipped. */
  lemma RunStreakMeaning(s: seq<Championship>, f: nat, l: nat)
    requires Chronological(s) && MaximalRun(s, f, l)
    ensures forall k :: f <= k <= l ==> s[k].champion == Some(RunStreak(s, f, l).manager)
    ensures RunStreak(s, f, l).startYear < RunStreak(s, f, l).endYear && RunStreak(s, f, l).count >= 2
    ensures (forall k :: 0 <= k < |s| - 1 ==> s[k + 1].year == s[k].year + 1) ==> RunStreak(s, f, l).count == l - f + 1
  {
    forall k | f < k <= l ensures s[k].champion == s[f].champion {
      ChainChampion(s, f, k);
    }
    ChainChampion(s, f, l);
    if forall k :: 0 <= k < |s| - 1 ==> s[k + 1].year == s[k].year + 1 {
      ConsecutiveYears(s, f, l);
    }
  }

  /** The streaks before sorting are the runs of the sorted table, one for one and in table order. */
  lemma StreaksListRuns(s: seq<Championship>)
    requires Chronological(s)
    ensures |MapSeq(StreaksUpTo(s, |s|), WithCount)| == |Runs(s, |s|)|
    ensures forall t :: 0 <= t < |Runs(s, |s|)| ==>
      Runs(s, |s|)[t].first <= Runs(s, |s|)[t].last < |s| &&
      MapSeq(StreaksUpTo(s, |s|), WithCount)[t] == RunStreak(s, Runs(s, |s|)[t].first, Runs(s, |s|)[t].last)
  {
    StreaksAreRuns(s, |s|);
    RunsSound(s, |s|);
    MirrorsCounted(s, StreaksUpTo(s, |s|), Runs(s, |s|));
  }

  /** Setting the counts of mirrored streaks gives the reported streak of each run. */
  lemma MirrorsCounted(s: seq<Championship>, b: seq<Streak>, r: seq<Run>)
    requires Mirrors(s, b, r) && SoundRuns(s, |s|, r)
    ensures |MapSeq(b, WithCount)| == |r|
    ensures forall t :: 0 <= t < |r| ==>
      r[t].first <= r[t].last < |s| && MapSeq(b, WithCount)[t] == RunStreak(s, r[t].first, r[t].last)
  {
    forall t | 0 <= t < |r| ensures r[t].first <= r[t].last < |s| && MapSeq(b, WithCount)[t] == RunStreak(s, r[t].first, r[t].last) {
      assert RunIn(s, |s|, r[t].first, r[t].last);
    }
  }

  /** Every reported streak is a maximal run of one champion in the sorted table. */
  lemma BackToBackAreRuns(cs: seq<Championship>)
    requires DistinctYears(cs)
    ensures forall x :: x in BackToBackChampions(cs) ==>
      exists f: nat, l: nat :: MaximalRun(SortedRows(cs), f, l) && x == RunStreak(SortedRows(cs), f, l)
  {
    var s := SortedRows(cs);
    SortedRowsChronological(cs);
    StreaksListRuns(s);
    RunsSound(s, |s|);
    var r := Runs(s, |s|);
    var m := MapSeq(StreaksUpTo(s, |s|), WithCount);
    forall x | x in BackToBackChampions(cs)
      ensures exists f: nat, l: nat :: MaximalRun(s, f, l) && x == RunStreak(s, f, l)
    {
      assert x in multiset(BackToBackChampions(cs));
      assert x in multiset(m);
      var t :| 0 <= t < |m| && m[t] == x;
      assert MaximalRun(s, r[t].first, r[t].last);
    }
  }

  /** Before sorting no streak is listed twice: the runs start at different seasons. */
  lemma StreaksDistinct(s: seq<Championship>)
    requires Chronological(s)
    ensures Distinct(MapSeq(StreaksUpTo(s, |s|), WithCount))
  {
    StreaksListRuns(s);
    RunsSound(s, |s|);
    var r := Runs(s, |s|);
    var m := MapSeq(StreaksUpTo(s, |s|), WithCount);
    forall i, j | 0 <= i < j < |m| ensures m[i] != m[j] {
      assert r[i].last < r[j].first;
      assert m[i].startYear < m[j].startYear;
    }
  }

  /** Every maximal run of one champion is reported, exactly once. */
  lemma BackToBackReportsEachRunOnce(cs: seq<Championship>)
    requires DistinctYears(cs)
    ensures forall f: nat, l: nat :: MaximalRun(SortedRows(cs), f, l) ==>
      multiset(BackToBackChampions(cs))[RunStreak(SortedRows(cs), f, l)] == 1
  {
    var s := SortedRows(cs);
    SortedRowsChronological(cs);
    StreaksListRuns(s);
    StreaksDistinct(s);
    RunsComplete(s, |s|);
    var r := Runs(s, |s|);
    var m := MapSeq(StreaksUpTo(s, |s|), WithCount);
    forall f: nat, l: nat | MaximalRun(s, f, l) ensures multiset(BackToBackChampions(cs))[RunStreak(s, f, l)] == 1 {
      var t :| 0 <= t < |r| && r[t] == Run(f, l);
      DistinctAt(m, t);
    }
  }

  /** The report lists longer streaks first. */
  lemma BackToBackLongestFirst(cs: seq<Championship>)
    ensures forall i, j :: 0 <= i < j < |BackToBackChampions(cs)| ==>
      BackToBackChampions(cs)[i].count >= BackToBackChampions(cs)[j].count
  {
    var s := SortedRows(cs);
    SortByIsSorted(MapSeq(StreaksUpTo(s, |s|), WithCount), LongerStreak);
  }
}
