/**
 * Value helpers shared by every part of the model: optional values, the
 * ASCII subset of Python's and JavaScript's string operations, code-point
 * string order, sequence filtering and an insertion-ordered dictionary
 * (Python's `dict`, JavaScript's `Map`/`Set` keep insertion order).
 */
module Core {

  datatype Option<T> = None | Some(value: T)

  function Min(a: int, b: int): int { if a <= b then a else b }

  function Max(a: int, b: int): int { if a <= b then b else a }

  /** Python and JavaScript truthiness of an optional string: null and "" are falsy. */
  predicate Present(s: Option<string>) {
    s.Some? && s.value != ""
  }

  // ---------------------------------------------------------------------
  // Characters and strings (ASCII letters and digits only)
  // ---------------------------------------------------------------------

  predicate IsDigit(c: char) { '0' <= c <= '9' }

  predicate AllDigits(s: string) { forall i :: 0 <= i < |s| ==> IsDigit(s[i]) }

  function LowerChar(c: char): char {
    if 'A' <= c <= 'Z' then (c as int + 32) as char else c
  }

  function UpperChar(c: char): char {
    if 'a' <= c <= 'z' then (c as int - 32) as char else c
  }

  /** `s.lower()` */
  function Lower(s: string): (r: string)
    ensures |r| == |s|
    ensures forall i :: 0 <= i < |s| ==> r[i] == LowerChar(s[i])
  {
    if s == [] then [] else [LowerChar(s[0])] + Lower(s[1..])
  }

  /** `s.upper()` */
  function Upper(s: string): (r: string)
    ensures |r| == |s|
    ensures forall i :: 0 <= i < |s| ==> r[i] == UpperChar(s[i])
  {
    if s == [] then [] else [UpperChar(s[0])] + Upper(s[1..])
  }

  /** Python's `sub in s`. */
  predicate Contains(s: string, sub: string)
    decreases |s|
  {
    sub <= s || (s != [] && Contains(s[1..], sub))
  }

  lemma {:induction false} ContainsAt(s: string, sub: string, i: nat)
    requires i + |sub| <= |s| && s[i..i + |sub|] == sub
    ensures Contains(s, sub)
    decreases i
  {
    if i > 0 {
      assert s[1..][i - 1..i - 1 + |sub|] == sub;
      ContainsAt(s[1..], sub, i - 1);
    }
  }

  /** Code-point lexicographic order on strings: Python's `<` on `str`. */
  predicate StrLt(a: string, b: string)
    decreases |a|
  {
    if a == [] then b != []
    else if b == [] then false
    else if a[0] != b[0] then a[0] < b[0]
    else StrLt(a[1..], b[1..])
  }

  lemma {:induction false} StrLtIrreflexive(a: string)
    ensures !StrLt(a, a)
    decreases |a|
  {
    if a != [] { StrLtIrreflexive(a[1..]); }
  }

  lemma {:induction false} StrLtTransitive(a: string, b: string, c: string)
    requires StrLt(a, b) && StrLt(b, c)
    ensures StrLt(a, c)
    decreases |a|
  {
    if a != [] && b != [] && c != [] && a[0] == b[0] && b[0] == c[0] {
      StrLtTransitive(a[1..], b[1..], c[1..]);
    }
  }

  lemma {:induction false} StrLtAsymmetric(a: string, b: string)
    requires StrLt(a, b)
    ensures !StrLt(b, a)
    decreases |a|
  {
    if a != [] && b != [] && a[0] == b[0] {
      StrLtAsymmetric(a[1..], b[1..]);
    }
  }

  lemma {:induction false} StrLtTotal(a: string, b: string)
    requires a != b
    ensures StrLt(a, b) || StrLt(b, a)
    decreases |a|
  {
    if a != [] && b != [] && a[0] == b[0] {
      assert a[1..] != b[1..] by {
        assert a == [a[0]] + a[1..] && b == [b[0]] + b[1..];
      }
      StrLtTotal(a[1..], b[1..]);
    }
  }

  /** Decimal rendering of a natural number, as Python's `f"{n}"`. */
  function NatToString(n: nat): (r: string)
    ensures r != [] && AllDigits(r)
  {
    var d := ['0', '1', '2', '3', '4', '5', '6', '7', '8', '9'][n % 10];
    if n < 10 then [d] else NatToString(n / 10) + [d]
  }

  // ---------------------------------------------------------------------
  // Sequences
  // ---------------------------------------------------------------------

  /** `[x for x in s if p(x)]` */
  function Filter<T>(s: seq<T>, p: T -> bool): (r: seq<T>)
    ensures |r| <= |s|
    ensures forall i :: 0 <= i < |r| ==> r[i] in s && p(r[i])
    ensures forall i :: 0 <= i < |s| && p(s[i]) ==> s[i] in r
  {
    if s == [] then [] else Filter(s[..|s| - 1], p) + (if p(s[|s| - 1]) then [s[|s| - 1]] else [])
  }

  lemma FilterAppend<T>(s: seq<T>, t: seq<T>, p: T -> bool)
    ensures Filter(s + t, p) == Filter(s, p) + Filter(t, p)
    decreases |t|
  {
    if t != [] {
      assert (s + t)[..|s + t| - 1] == s + t[..|t| - 1];
      FilterAppend(s, t[..|t| - 1], p);
    } else {
      assert s + t == s;
    }
  }

  /** A prefix holds no element more often than the whole sequence. */
  lemma PrefixMultiset<T>(s: seq<T>, k: nat)
    requires k <= |s|
    ensures multiset(s[..k]) <= multiset(s)
  {
    assert s == s[..k] + s[k..];
  }

  /** The prefix as long as the sequence is the sequence. */
  lemma WholePrefix<T>(s: seq<T>, n: nat)
    requires n == |s|
    ensures s[..n] == s
  {
  }

  /** Filtering keeps nothing when no element passes. */
  lemma {:induction false} FilterNone<T>(s: seq<T>, p: T -> bool)
    requires forall x :: x in s ==> !p(x)
    ensures Filter(s, p) == []
  {
    if s != [] {
      FilterNone(s[..|s| - 1], p);
    }
  }

  /** Filtering keeps everything when every element passes. */
  lemma {:induction false} FilterAll<T>(s: seq<T>, p: T -> bool)
    requires forall x :: x in s ==> p(x)
    ensures Filter(s, p) == s
  {
    if s != [] {
      FilterAll(s[..|s| - 1], p);
      assert s == s[..|s| - 1] + [s[|s| - 1]];
    }
  }

  /** Appending elements that do not pass leaves the filtered list as it was. */
  lemma FilterSkips<T>(s: seq<T>, t: seq<T>, p: T -> bool)
    requires forall x :: x in t ==> !p(x)
    ensures Filter(s + t, p) == Filter(s, p)
  {
    FilterAppend(s, t, p);
    FilterNone(t, p);
    assert Filter(s, p) + [] == Filter(s, p);
  }

  /**
   * `r` is `s` read at the increasing positions `idx`, and `idx` holds
   * exactly the positions whose elements satisfy `p`.
   */
  ghost predicate PicksPositions<T>(r: seq<T>, s: seq<T>, p: T -> bool, idx: seq<int>) {
    && |idx| == |r|
    && (forall k :: 0 <= k < |idx| ==> 0 <= idx[k] < |s| && s[idx[k]] == r[k] && p(r[k]))
    && (forall k, l :: 0 <= k < l < |idx| ==> idx[k] < idx[l])
    && (forall i :: 0 <= i < |s| && p(s[i]) ==> i in idx)
  }

  /** A passing element appended to `s` is picked at the end. */
  lemma PicksTake<T>(r: seq<T>, q: seq<T>, x: T, p: T -> bool, idx: seq<int>)
    requires PicksPositions(r, q, p, idx) && p(x)
    ensures PicksPositions(r + [x], q + [x], p, idx + [|q|])
  {
    var s, r', idx' := q + [x], r + [x], idx + [|q|];
    forall k | 0 <= k < |idx'| ensures 0 <= idx'[k] < |s| && s[idx'[k]] == r'[k] && p(r'[k]) {
      if k < |idx| {
        assert idx'[k] == idx[k] && r'[k] == r[k] && s[idx[k]] == q[idx[k]];
      }
    }
    forall i | 0 <= i < |s| && p(s[i]) ensures i in idx' {
      if i < |q| {
        assert q[i] == s[i];
      }
    }
  }

  /** A failing element appended to `s` is not picked. */
  lemma PicksSkip<T>(r: seq<T>, q: seq<T>, x: T, p: T -> bool, idx: seq<int>)
    requires PicksPositions(r, q, p, idx) && !p(x)
    ensures PicksPositions(r, q + [x], p, idx)
  {
    var s := q + [x];
    forall k | 0 <= k < |idx| ensures s[idx[k]] == q[idx[k]] {
    }
    forall i | 0 <= i < |s| && p(s[i]) ensures i in idx {
      assert i < |q| && q[i] == s[i];
    }
  }

  /** Filtering keeps order and multiplicity: it reads `s` at the passing positions, in order. */
  lemma {:induction false} FilterInOrder<T>(s: seq<T>, p: T -> bool)
    ensures exists idx :: PicksPositions(Filter(s, p), s, p, idx)
  {
    if s == [] {
      assert PicksPositions(Filter(s, p), s, p, []);
    } else {
      var q := s[..|s| - 1];
      var x := s[|s| - 1];
      assert q + [x] == s;
      FilterInOrder(q, p);
      var idx :| PicksPositions(Filter(q, p), q, p, idx);
      if p(x) {
        assert Filter(s, p) == Filter(q, p) + [x];
        PicksTake(Filter(q, p), q, x, p, idx);
        assert PicksPositions(Filter(s, p), s, p, idx + [|q|]);
      } else {
        assert Filter(s, p) == Filter(q, p);
        PicksSkip(Filter(q, p), q, x, p, idx);
        assert PicksPositions(Filter(s, p), s, p, idx);
      }
    }
  }

  /** A list-filtering loop, the shape of every `for m in ms: if p(m): out.append(m)`. */
  method FilterLoop<T>(s: seq<T>, p: T -> bool) returns (r: seq<T>)
    ensures r == Filter(s, p)
  {
    r := [];
    var i := 0;
    while i < |s|
      invariant 0 <= i <= |s|
      invariant r == Filter(s[..i], p)
    {
      assert s[..i + 1][..i] == s[..i];
      if p(s[i]) {
        r := r + [s[i]];
      }
      i := i + 1;
    }
    assert s[..|s|] == s;
  }

  /** Number of elements of `s` that satisfy `p`. */
  function CountWhere<T>(s: seq<T>, p: T -> bool): (n: nat)
    ensures n <= |s|
  {
    if s == [] then 0 else CountWhere(s[..|s| - 1], p) + (if p(s[|s| - 1]) then 1 else 0)
  }

  /** Counting the elements that satisfy `p` is measuring the filtered list. */
  lemma {:induction false} CountIsFilterLength<T>(s: seq<T>, p: T -> bool)
    ensures CountWhere(s, p) == |Filter(s, p)|
  {
    if s != [] {
      CountIsFilterLength(s[..|s| - 1], p);
    }
  }

  lemma CountWhereAppend<T>(s: seq<T>, t: seq<T>, p: T -> bool)
    ensures CountWhere(s + t, p) == CountWhere(s, p) + CountWhere(t, p)
    decreases |t|
  {
    if t != [] {
      assert (s + t)[..|s + t| - 1] == s + t[..|t| - 1];
      CountWhereAppend(s, t[..|t| - 1], p);
    } else {
      assert s + t == s;
    }
  }

  /** `[f(x) for x in s]` */
  function MapSeq<A, B>(s: seq<A>, f: A -> B): (r: seq<B>)
    ensures |r| == |s| && forall i :: 0 <= i < |s| ==> r[i] == f(s[i])
  {
    if s == [] then [] else MapSeq(s[..|s| - 1], f) + [f(s[|s| - 1])]
  }

  lemma MapSeqStep<A, B>(s: seq<A>, j: nat, f: A -> B)
    requires j < |s|
    ensures MapSeq(s[..j + 1], f) == MapSeq(s[..j], f) + [f(s[j])]
  {
    assert s[..j + 1][..j] == s[..j];
  }

  lemma AppendSnoc<T>(a: seq<T>, b: seq<T>, x: T)
    ensures a + (b + [x]) == (a + b) + [x]
  {
  }

  /** A sequence is what comes before position `j`, its element there, and what follows. */
  lemma SplitAt<T>(s: seq<T>, j: nat)
    requires j < |s|
    ensures s == s[..j] + [s[j]] + s[j + 1..]
  {
  }

  lemma MapSeqAppend<A, B>(s: seq<A>, t: seq<A>, f: A -> B)
    ensures MapSeq(s + t, f) == MapSeq(s, f) + MapSeq(t, f)
  {
  }

  predicate Distinct<T(==)>(s: seq<T>) {
    forall i, j :: 0 <= i < j < |s| ==> s[i] != s[j]
  }

  /** An element at two positions occurs at least twice. */
  lemma RemoveAt<T>(s: seq<T>, i: nat, j: nat, x: T)
    requires i < j < |s| && s[i] == x && s[j] == x
    ensures multiset(s)[x] >= 2
  {
    assert s == s[..i] + [s[i]] + s[i + 1..j] + [s[j]] + s[j + 1..];
  }

  /** Equal elements at two positions make an element occurring twice. */
  lemma SameAtTwo<T>(s: seq<T>, i: nat, j: nat)
    requires i < j < |s|
    ensures s[i] == s[j] ==> multiset(s)[s[i]] >= 2
  {
    if s[i] == s[j] {
      RemoveAt(s, i, j, s[i]);
    }
  }

  /** Appending an element not yet present keeps a sequence free of repeats. */
  lemma DistinctSnoc<T>(s: seq<T>, x: T)
    requires Distinct(s) && x !in s
    ensures Distinct(s + [x])
  {
    var t := s + [x];
    forall a, b | 0 <= a < b < |t| ensures t[a] != t[b] {
      assert t[a] == s[a];
      if b < |s| { assert t[b] == s[b]; }
    }
  }

  /** A list without repeats has as many elements as the set of its elements. */
  lemma {:induction false} DistinctCard<T>(s: seq<T>)
    requires Distinct(s)
    ensures |(set x | x in s)| == |s|
  {
    if s != [] {
      var p, last := s[..|s| - 1], s[|s| - 1];
      assert Distinct(p);
      DistinctCard(p);
      assert last !in p by {
        forall k | 0 <= k < |p| ensures p[k] != last {
          assert p[k] == s[k];
        }
      }
      assert (set x | x in s) == (set x | x in p) + {last};
    }
  }

  /** The element at position `i` of a list without repeats occurs once. */
  lemma {:induction false} DistinctAt<T>(s: seq<T>, i: nat)
    requires Distinct(s) && i < |s|
    ensures multiset(s)[s[i]] == 1
  {
    assert s == s[..i] + [s[i]] + s[i + 1..];
    assert s[i] !in s[..i];
    assert s[i] !in s[i + 1..];
  }

  /** In a list without repeats every element occurs at most once. */
  lemma {:induction false} DistinctOnce<T>(s: seq<T>)
    requires Distinct(s)
    ensures forall x :: multiset(s)[x] <= 1
  {
    if s != [] {
      var p := s[..|s| - 1];
      assert s == p + [s[|s| - 1]];
      assert Distinct(p);
      DistinctOnce(p);
      assert s[|s| - 1] !in multiset(p) by {
        forall k | 0 <= k < |p| ensures p[k] != s[|s| - 1] {
          assert p[k] == s[k];
        }
      }
    }
  }

  /** An element occurring twice sits at two positions. */
  lemma {:induction false} TwoPositions<T>(s: seq<T>, x: T)
    requires multiset(s)[x] >= 2
    ensures exists a, b :: 0 <= a < b < |s| && s[a] == x && s[b] == x
  {
    assert s != [];
    var p := s[..|s| - 1];
    assert s == p + [s[|s| - 1]];
    if s[|s| - 1] == x {
      assert multiset(p)[x] >= 1;
      var a :| 0 <= a < |p| && p[a] == x;
      assert s[a] == x;
    } else {
      TwoPositions(p, x);
      var a, b :| 0 <= a < b < |p| && p[a] == x && p[b] == x;
      assert s[a] == x && s[b] == x;
    }
  }

  /** The first position of `s` satisfying `p` (JavaScript `find`, Python `next(...)`). */
  function FirstWhere<T>(s: seq<T>, p: T -> bool): (r: Option<nat>)
    ensures r.None? ==> forall j :: 0 <= j < |s| ==> !p(s[j])
    ensures r.Some? ==> r.value < |s| && p(s[r.value]) && forall j :: 0 <= j < r.value ==> !p(s[j])
  {
    if s == [] then None
    else if p(s[0]) then Some(0)
    else match FirstWhere(s[1..], p) {
      case None => None
      case Some(i) => Some(i + 1)
    }
  }

  /** Reverse of a sequence (`[...s].reverse()`). */
  function Reverse<T>(s: seq<T>): (r: seq<T>)
    ensures |r| == |s|
    ensures forall i :: 0 <= i < |s| ==> r[i] == s[|s| - 1 - i]
  {
    if s == [] then [] else [s[|s| - 1]] + Reverse(s[..|s| - 1])
  }

  lemma {:induction false} ReverseReverse<T>(s: seq<T>)
    ensures Reverse(Reverse(s)) == s
  {
    var r := Reverse(Reverse(s));
    assert |r| == |s|;
    forall i | 0 <= i < |s| ensures r[i] == s[i] {
      assert r[i] == Reverse(s)[|s| - 1 - i];
    }
  }

  // ---------------------------------------------------------------------
  // An insertion-ordered dictionary
  // ---------------------------------------------------------------------

  /**
   * Python's `dict`: `keys` lists the keys in insertion order, `entries`
   * maps each key to its value. Assigning an existing key keeps its place.
   */
  datatype Dict<K, V> = Dict(keys: seq<K>, entries: map<K, V>) {

    ghost predicate Valid() {
      Distinct(keys) && entries.Keys == (set x | x in keys)
    }

    /** `d.get(k, default)` */
    function Get(k: K, default: V): V {
      if k in entries then entries[k] else default
    }

    /** `d[k] = v` */
    function Put(k: K, v: V): (d: Dict<K, V>)
      ensures d.entries == entries[k := v]
      ensures k in entries ==> d.keys == keys
      ensures k !in entries ==> d.keys == keys + [k]
    {
      if k in entries then Dict(keys, entries[k := v]) else Dict(keys + [k], entries[k := v])
    }
  }

  /** Assigning a key keeps the keys distinct and in step with the entries. */
  lemma PutValid<K, V>(d: Dict<K, V>, k: K, v: V)
    requires d.Valid()
    ensures d.Put(k, v).Valid()
  {
    var r := d.Put(k, v);
    if k !in d.entries {
      assert k !in d.keys by {
        assert k !in (set x | x in d.keys);
      }
      forall i, j | 0 <= i < j < |r.keys| ensures r.keys[i] != r.keys[j] {
        if j == |d.keys| {
          assert r.keys[i] == d.keys[i];
        }
      }
    }
    assert r.entries.Keys == (set x | x in r.keys);
  }

  function EmptyDict<K, V>(): (d: Dict<K, V>)
    ensures d.Valid() && d.keys == [] && d.entries == map[]
  {
    Dict([], map[])
  }

  /** In a valid dictionary a key has an entry exactly when it is listed. */
  lemma KeyListed<K, V>(d: Dict<K, V>, k: K)
    requires d.Valid()
    ensures k in d.entries <==> k in d.keys
  {
    assert k in d.entries <==> k in (set x | x in d.keys);
  }

  lemma KeysPresent<K, V>(d: Dict<K, V>)
    requires d.Valid()
    ensures forall i :: 0 <= i < |d.keys| ==> d.keys[i] in d.entries
  {
    forall i | 0 <= i < |d.keys| ensures d.keys[i] in d.entries {
      assert d.keys[i] in (set x | x in d.keys);
    }
  }

  // ---------------------------------------------------------------------
  // defaultdict accumulation: `d[k] += v` over a list of pairs
  // ---------------------------------------------------------------------

  /** The dictionary left by `for k, v in kvs: d[k] += v`, `d` a `defaultdict` holding `start`. */
  function Accumulate<K, V>(start: Dict<K, V>, kvs: seq<(K, V)>, zero: V, plus: (V, V) -> V): Dict<K, V> {
    if kvs == [] then start
    else
      var d := Accumulate(start, kvs[..|kvs| - 1], zero, plus);
      var k := kvs[|kvs| - 1].0;
      d.Put(k, plus(d.Get(k, zero), kvs[|kvs| - 1].1))
  }

  lemma {:induction false} AccumulateValid<K, V>(start: Dict<K, V>, kvs: seq<(K, V)>, zero: V, plus: (V, V) -> V)
    requires start.Valid()
    ensures Accumulate(start, kvs, zero, plus).Valid()
  {
    if kvs != [] {
      var d := Accumulate(start, kvs[..|kvs| - 1], zero, plus);
      AccumulateValid(start, kvs[..|kvs| - 1], zero, plus);
      PutValid(d, kvs[|kvs| - 1].0, plus(d.Get(kvs[|kvs| - 1].0, zero), kvs[|kvs| - 1].1));
    }
  }

  /** `t` plus, under `plus`, the values listed for key `k`. */
  function KeyTotal<K(==), V>(t: V, kvs: seq<(K, V)>, k: K, plus: (V, V) -> V): V {
    if kvs == [] then t
    else
      var r := KeyTotal(t, kvs[..|kvs| - 1], k, plus);
      if kvs[|kvs| - 1].0 == k then plus(r, kvs[|kvs| - 1].1) else r
  }

  predicate Listed<K(==), V>(kvs: seq<(K, V)>, k: K) {
    exists i :: 0 <= i < |kvs| && kvs[i].0 == k
  }

  /** Each key holds its starting value plus its listed values, and a key is present iff it was or is listed. */
  lemma {:induction false} AccumulateByKey<K, V>(start: Dict<K, V>, kvs: seq<(K, V)>, k: K, zero: V, plus: (V, V) -> V)
    ensures Accumulate(start, kvs, zero, plus).Get(k, zero) == KeyTotal(start.Get(k, zero), kvs, k, plus)
    ensures k in Accumulate(start, kvs, zero, plus).entries <==> k in start.entries || Listed(kvs, k)
  {
    if kvs != [] {
      var p := kvs[..|kvs| - 1];
      AccumulateByKey(start, p, k, zero, plus);
      if Listed(p, k) {
        var i :| 0 <= i < |p| && p[i].0 == k;
        assert kvs[i].0 == k;
      }
      if Listed(kvs, k) && kvs[|kvs| - 1].0 != k {
        var i :| 0 <= i < |kvs| && kvs[i].0 == k;
        assert p[i].0 == k;
      }
    }
  }

  lemma AccumulateSnoc<K, V>(start: Dict<K, V>, kvs: seq<(K, V)>, k: K, v: V, zero: V, plus: (V, V) -> V)
    ensures Accumulate(start, kvs + [(k, v)], zero, plus)
      == Accumulate(start, kvs, zero, plus).Put(k, plus(Accumulate(start, kvs, zero, plus).Get(k, zero), v))
  {
    assert (kvs + [(k, v)])[..|kvs|] == kvs;
  }

  /** Accumulating two lists one after the other is accumulating their concatenation. */
  lemma {:induction false} AccumulateConcat<K, V>(start: Dict<K, V>, a: seq<(K, V)>, b: seq<(K, V)>, zero: V, plus: (V, V) -> V)
    ensures Accumulate(Accumulate(start, a, zero, plus), b, zero, plus) == Accumulate(start, a + b, zero, plus)
    decreases |b|
  {
    if b == [] {
      assert a + b == a;
    } else {
      var p := b[..|b| - 1];
      AccumulateConcat(start, a, p, zero, plus);
      assert (a + b)[..|a + b| - 1] == a + p;
    }
  }
}
