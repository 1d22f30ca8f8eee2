/** The collection operations the invocation history is queried with, written
    out over sequences: a stable descending sort (`ORDER BY ... DESC`,
    `OrderByDescending`), `LIMIT`/`Take`, and a counting dictionary that keeps
    its keys in first-insertion order, as `Dictionary` does when nothing is
    removed. */
module Aggregates {

  // ---------------------------------------------------------------------------
  // Stable descending sort
  // ---------------------------------------------------------------------------

  predicate NonIncreasing<T>(s: seq<T>, key: T -> int) {
    forall i, j :: 0 <= i < j < |s| ==> key(s[i]) >= key(s[j])
  }

  /** Put `x` in front of the first element whose key it is at least, so that
      it stays before equal keys that came after it. */
  function Insert<T>(x: T, s: seq<T>, key: T -> int): (r: seq<T>)
    ensures |r| == |s| + 1
    ensures multiset(r) == multiset(s) + multiset{x}
  {
    if s == [] || key(x) >= key(s[0]) then [x] + s
    else
      assert s == [s[0]] + s[1..];
      [s[0]] + Insert(x, s[1..], key)
  }

  lemma {:induction false} InsertKeepsOrder<T>(x: T, s: seq<T>, key: T -> int)
    requires NonIncreasing(s, key)
    ensures NonIncreasing(Insert(x, s, key), key)
  {
    if s == [] || key(x) >= key(s[0]) {
      var r := [x] + s;
      forall i, j | 0 <= i < j < |r| ensures key(r[i]) >= key(r[j]) {
        if i > 0 {
          assert r[i] == s[i - 1] && r[j] == s[j - 1];
        } else {
          assert r[j] == s[j - 1];
        }
      }
    } else {
      var tail := s[1..];
      var rest := Insert(x, tail, key);
      assert NonIncreasing(tail, key) by {
        forall i, j | 0 <= i < j < |tail| ensures key(tail[i]) >= key(tail[j]) {
          assert tail[i] == s[i + 1] && tail[j] == s[j + 1];
        }
      }
      InsertKeepsOrder(x, tail, key);
      assert forall i :: 0 <= i < |tail| ==> key(tail[i]) <= key(s[0]) by {
        forall i | 0 <= i < |tail| ensures key(tail[i]) <= key(s[0]) {
          assert tail[i] == s[i + 1];
        }
      }
      InsertBounded(x, tail, key, key(s[0]));
      var r := [s[0]] + rest;
      assert Insert(x, s, key) == r;
      forall i, j | 0 <= i < j < |r| ensures key(r[i]) >= key(r[j]) {
        if i > 0 {
          assert r[i] == rest[i - 1] && r[j] == rest[j - 1];
        } else {
          assert r[j] == rest[j - 1];
        }
      }
    }
  }

  /** Inserting an element whose key is at most `b` into a list whose keys
      are at most `b` gives a list whose keys are at most `b`. */
  lemma {:induction false} InsertBounded<T>(x: T, s: seq<T>, key: T -> int, b: int)
    requires key(x) <= b
    requires forall i :: 0 <= i < |s| ==> key(s[i]) <= b
    ensures forall i :: 0 <= i < |Insert(x, s, key)| ==> key(Insert(x, s, key)[i]) <= b
  {
    var r := Insert(x, s, key);
    if s == [] || key(x) >= key(s[0]) {
      assert r == [x] + s;
      forall i | 0 <= i < |r| ensures key(r[i]) <= b {
        if i > 0 {
          assert r[i] == s[i - 1];
        }
      }
    } else {
      var tail := s[1..];
      assert forall i :: 0 <= i < |tail| ==> key(tail[i]) <= b by {
        forall i | 0 <= i < |tail| ensures key(tail[i]) <= b {
          assert tail[i] == s[i + 1];
        }
      }
      InsertBounded(x, tail, key, b);
      var rest := Insert(x, tail, key);
      assert r == [s[0]] + rest;
      forall i | 0 <= i < |r| ensures key(r[i]) <= b {
        if i > 0 {
          assert r[i] == rest[i - 1];
        }
      }
    }
  }

  /** The elements of `s` ordered by `key`, largest first, elements with equal
      keys keeping their order. */
  function SortDesc<T>(s: seq<T>, key: T -> int): (r: seq<T>)
    ensures |r| == |s|
    ensures multiset(r) == multiset(s)
    ensures NonIncreasing(r, key)
  {
    if s == [] then []
    else
      var rest := SortDesc(s[1..], key);
      InsertKeepsOrder(s[0], rest, key);
      InsertPermutes(s, rest, key);
      Insert(s[0], rest, key)
  }

  /** Inserting the first element of `s` into a permutation of the rest of `s`
      gives a permutation of `s`. */
  lemma InsertPermutes<T>(s: seq<T>, rest: seq<T>, key: T -> int)
    requires s != [] && multiset(rest) == multiset(s[1..])
    ensures multiset(Insert(s[0], rest, key)) == multiset(s)
  {
    assert s == [s[0]] + s[1..];
    assert multiset(s) == multiset(s[1..]) + multiset{s[0]};
  }

  /** The elements of `s` whose key is `v`, in their order in `s`. */
  function WithKey<T>(s: seq<T>, key: T -> int, v: int): seq<T> {
    if s == [] then []
    else (if key(s[0]) == v then [s[0]] else []) + WithKey(s[1..], key, v)
  }

  /** `Insert` puts `x` ahead of every element with the same key as its own
      and leaves the order among the other elements alone. */
  lemma {:induction false} InsertWithKey<T>(x: T, s: seq<T>, key: T -> int, v: int)
    ensures WithKey(Insert(x, s, key), key, v) == (if key(x) == v then [x] else []) + WithKey(s, key, v)
  {
    var ins := Insert(x, s, key);
    if s == [] || key(x) >= key(s[0]) {
      assert ins == [x] + s;
      WithKeyCons(x, s, key, v);
    } else {
      var rest := Insert(x, s[1..], key);
      assert ins == [s[0]] + rest;
      var first := if key(s[0]) == v then [s[0]] else [];
      var tail := WithKey(s[1..], key, v);
      WithKeyCons(s[0], rest, key, v);
      assert WithKey(ins, key, v) == first + WithKey(rest, key, v);
      InsertWithKey(x, s[1..], key, v);
      assert [s[0]] + s[1..] == s;
      WithKeyCons(s[0], s[1..], key, v);
      assert WithKey(s, key, v) == first + tail;
      if key(x) == v {
        assert first == [];
        assert WithKey(rest, key, v) == [x] + tail;
        assert WithKey(ins, key, v) == [x] + tail;
      } else {
        assert WithKey(rest, key, v) == tail;
        assert WithKey(ins, key, v) == first + tail;
      }
    }
  }

  /** Filtering a list with a first element in front keeps that element
      exactly when its key is `v`. */
  lemma WithKeyCons<T>(h: T, t: seq<T>, key: T -> int, v: int)
    ensures WithKey([h] + t, key, v) == (if key(h) == v then [h] else []) + WithKey(t, key, v)
  {
    assert ([h] + t)[0] == h && ([h] + t)[1..] == t;
  }

  /** The sort is stable: for every key, the elements with that key come out
      in the order they went in. */
  lemma {:induction false} SortDescStable<T>(s: seq<T>, key: T -> int, v: int)
    ensures WithKey(SortDesc(s, key), key, v) == WithKey(s, key, v)
  {
    if s != [] {
      SortDescStable(s[1..], key, v);
      InsertWithKey(s[0], SortDesc(s[1..], key), key, v);
    }
  }

  /** `LIMIT n` as SQLite reads it (a negative limit means no limit), which is
      also `Take(n)` for a non-negative `n`. */
  function Limit<T>(s: seq<T>, n: int): (r: seq<T>)
    ensures n < 0 ==> r == s
    ensures 0 <= n ==> |r| == if n < |s| then n else |s|
    ensures r == s[..|r|]
  {
    if n < 0 || |s| <= n then s else s[..n]
  }

  // ---------------------------------------------------------------------------
  // A counting dictionary: key -> (total, successes)
  // ---------------------------------------------------------------------------

  /** One thing counted: its key and whether it succeeded. */
  datatype Observation<K> = Observation(key: K, succeeded: bool)

  /** A dictionary entry. */
  datatype Entry<K> = Entry(key: K, total: nat, success: nat)

  function EntryTotal<K>(e: Entry<K>): int {
    e.total
  }

  predicate DistinctKeys<K(==,!new)>(t: seq<Entry<K>>) {
    forall i, j :: 0 <= i < j < |t| ==> t[i].key != t[j].key
  }

  /** Every entry has been seen at least once, and has no more successes than
      occurrences. */
  predicate WellCounted<K>(t: seq<Entry<K>>) {
    forall i :: 0 <= i < |t| ==> 0 < t[i].total && t[i].success <= t[i].total
  }

  /** The occurrences recorded for `key` (over all entries for it). */
  function TotalFor<K(==,!new)>(t: seq<Entry<K>>, key: K): nat {
    if t == [] then 0 else (if t[0].key == key then t[0].total else 0) + TotalFor(t[1..], key)
  }

  function SuccessFor<K(==,!new)>(t: seq<Entry<K>>, key: K): nat {
    if t == [] then 0 else (if t[0].key == key then t[0].success else 0) + SuccessFor(t[1..], key)
  }

  function SumTotals<K>(t: seq<Entry<K>>): nat {
    if t == [] then 0 else t[0].total + SumTotals(t[1..])
  }

  /** Count one observation: the existing entry for its key is updated in
      place; a new key gets an entry at the end. */
  function Bump<K(==,!new)>(t: seq<Entry<K>>, key: K, succeeded: bool): (r: seq<Entry<K>>)
    ensures SumTotals(r) == SumTotals(t) + 1
  {
    if t == [] then [Entry(key, 1, if succeeded then 1 else 0)]
    else if t[0].key == key then [Entry(key, t[0].total + 1, t[0].success + if succeeded then 1 else 0)] + t[1..]
    else [t[0]] + Bump(t[1..], key, succeeded)
  }

  /** Counting an observation adds one occurrence to its key, and one success
      when it succeeded, and leaves every other key as it was. */
  lemma {:induction false} BumpCounts<K(!new)>(t: seq<Entry<K>>, key: K, succeeded: bool, k: K)
    ensures TotalFor(Bump(t, key, succeeded), k) == TotalFor(t, k) + (if k == key then 1 else 0)
    ensures SuccessFor(Bump(t, key, succeeded), k) == SuccessFor(t, k) + (if k == key && succeeded then 1 else 0)
  {
    if t != [] && t[0].key != key {
      BumpCounts(t[1..], key, succeeded, k);
      assert ([t[0]] + Bump(t[1..], key, succeeded))[1..] == Bump(t[1..], key, succeeded);
    } else if t != [] {
      assert Bump(t, key, succeeded)[1..] == t[1..];
    }
  }

  /** Counting keeps one entry per key and never more successes than
      occurrences. */
  lemma {:induction false} BumpKeepsShape<K(!new)>(t: seq<Entry<K>>, key: K, succeeded: bool)
    requires DistinctKeys(t) && WellCounted(t)
    ensures DistinctKeys(Bump(t, key, succeeded)) && WellCounted(Bump(t, key, succeeded))
    ensures forall i :: 0 <= i < |Bump(t, key, succeeded)| ==> Bump(t, key, succeeded)[i].key == key || Bump(t, key, succeeded)[i].key in KeysOf(t)
  {
    if t == [] {
    } else if t[0].key == key {
      var r := Bump(t, key, succeeded);
      assert forall i :: 1 <= i < |r| ==> r[i] == t[i];
      assert forall i :: 0 <= i < |t| ==> t[i].key in KeysOf(t);
    } else {
      var tail := t[1..];
      assert forall i :: 0 <= i < |tail| ==> tail[i] == t[i + 1];
      BumpKeepsShape(tail, key, succeeded);
      assert t[0].key !in KeysOf(tail);
      assert KeysOf(tail) <= KeysOf(t);
      ConsKeepsShape(t[0], Bump(tail, key, succeeded), key, KeysOf(tail), KeysOf(t));
    }
  }

  /** Putting an entry with a fresh key in front of a well-shaped dictionary
      keeps it well shaped. */
  lemma ConsKeepsShape<K(!new)>(x: Entry<K>, rest: seq<Entry<K>>, key: K, keys: set<K>, keys': set<K>)
    requires DistinctKeys(rest) && WellCounted(rest) && 0 < x.total && x.success <= x.total
    requires forall i :: 0 <= i < |rest| ==> rest[i].key == key || rest[i].key in keys
    requires x.key != key && x.key !in keys && keys <= keys' && x.key in keys'
    ensures DistinctKeys([x] + rest) && WellCounted([x] + rest)
    ensures forall i :: 0 <= i < |[x] + rest| ==> ([x] + rest)[i].key == key || ([x] + rest)[i].key in keys'
  {
    var r := [x] + rest;
    assert forall i :: 1 <= i < |r| ==> r[i] == rest[i - 1];
  }

  /** The keys of a dictionary. */
  function KeysOf<K>(t: seq<Entry<K>>): (r: set<K>)
    ensures forall i :: 0 <= i < |t| ==> t[i].key in r
  {
    set i | 0 <= i < |t| :: t[i].key
  }

  /** The dictionary after counting every observation in order. */
  function TallyAll<K(==,!new)>(obs: seq<Observation<K>>): seq<Entry<K>> {
    if obs == [] then []
    else
      var last := obs[|obs| - 1];
      Bump(TallyAll(obs[..|obs| - 1]), last.key, last.succeeded)
  }

  /** How many observations have `key`, and how many of those succeeded. */
  function Occurrences<K(==,!new)>(obs: seq<Observation<K>>, key: K): nat {
    if obs == [] then 0 else Occurrences(obs[..|obs| - 1], key) + (if obs[|obs| - 1].key == key then 1 else 0)
  }

  function Successes<K(==,!new)>(obs: seq<Observation<K>>, key: K): nat {
    if obs == [] then 0
    else Successes(obs[..|obs| - 1], key) + (if obs[|obs| - 1].key == key && obs[|obs| - 1].succeeded then 1 else 0)
  }

  lemma TallyAppend<K(!new)>(obs: seq<Observation<K>>, o: Observation<K>)
    ensures TallyAll(obs + [o]) == Bump(TallyAll(obs), o.key, o.succeeded)
  {
    assert (obs + [o])[..|obs|] == obs;
  }

  /** The dictionary counts every observation exactly once under its key: one
      entry per key, holding the key's occurrences and successes, never more
      successes than occurrences, and the totals adding up to the number of
      observations. */
  lemma {:induction false} TallyCounts<K(!new)>(obs: seq<Observation<K>>)
    ensures DistinctKeys(TallyAll(obs)) && WellCounted(TallyAll(obs))
    ensures SumTotals(TallyAll(obs)) == |obs|
    ensures forall k :: TotalFor(TallyAll(obs), k) == Occurrences(obs, k)
    ensures forall k :: SuccessFor(TallyAll(obs), k) == Successes(obs, k)
  {
    if obs != [] {
      var front := obs[..|obs| - 1];
      var last := obs[|obs| - 1];
      TallyCounts(front);
      BumpKeepsShape(TallyAll(front), last.key, last.succeeded);
      forall k ensures TotalFor(TallyAll(obs), k) == Occurrences(obs, k) && SuccessFor(TallyAll(obs), k) == Successes(obs, k) {
        BumpCounts(TallyAll(front), last.key, last.succeeded, k);
      }
    }
  }

  /** Sorted by count, the dictionary still holds for each entry the
      occurrences and successes of its key, and its totals still add up to the
      number of observations. */
  lemma SortedTallyCounts<K(!new)>(obs: seq<Observation<K>>)
    ensures var g := SortDesc(TallyAll(obs), EntryTotal);
            && SumTotals(g) == |obs|
            && (forall i :: 0 <= i < |g| ==>
                  && g[i].total == Occurrences(obs, g[i].key) && g[i].success == Successes(obs, g[i].key)
                  && 0 < g[i].total && g[i].success <= g[i].total)
            && (forall i, j :: 0 <= i < j < |g| ==> g[i].total >= g[j].total)
            && DistinctKeys(g)
            && (forall k :: Occurrences(obs, k) > 0 ==> exists i :: 0 <= i < |g| && g[i].key == k)
  {
    SortedEntriesCounted(obs);
    SortedByTotal(obs);
    SortedSum(obs);
    SortedKeysDistinct(obs);
    SortedKeysComplete(obs);
  }

  /** Each sorted entry holds its key's occurrences and successes. */
  lemma SortedEntriesCounted<K(!new)>(obs: seq<Observation<K>>)
    ensures var g := SortDesc(TallyAll(obs), EntryTotal);
            forall i :: 0 <= i < |g| ==>
              && g[i].total == Occurrences(obs, g[i].key) && g[i].success == Successes(obs, g[i].key)
              && 0 < g[i].total && g[i].success <= g[i].total
  {
    var g := SortDesc(TallyAll(obs), EntryTotal);
    forall i | 0 <= i < |g|
      ensures g[i].total == Occurrences(obs, g[i].key) && g[i].success == Successes(obs, g[i].key)
      ensures 0 < g[i].total && g[i].success <= g[i].total
    {
      SortedEntryCounts(obs, i);
    }
  }

  /** The sorted entries come largest total first. */
  lemma SortedByTotal<K(!new)>(obs: seq<Observation<K>>)
    ensures var g := SortDesc(TallyAll(obs), EntryTotal);
            forall i, j :: 0 <= i < j < |g| ==> g[i].total >= g[j].total
  {
    var g := SortDesc(TallyAll(obs), EntryTotal);
    assert forall i, j :: 0 <= i < j < |g| ==> EntryTotal(g[i]) >= EntryTotal(g[j]);
  }

  /** Sorting keeps one entry per key. */
  lemma SortedKeysDistinct<K(!new)>(obs: seq<Observation<K>>)
    ensures DistinctKeys(SortDesc(TallyAll(obs), EntryTotal))
  {
    TallyCounts(obs);
    DistinctKeysOfPermutation(TallyAll(obs), SortDesc(TallyAll(obs), EntryTotal));
  }

  /** Every observed key has an entry after sorting. */
  lemma SortedKeysComplete<K(!new)>(obs: seq<Observation<K>>)
    ensures forall k :: Occurrences(obs, k) > 0 ==>
              exists i :: 0 <= i < |SortDesc(TallyAll(obs), EntryTotal)| && SortDesc(TallyAll(obs), EntryTotal)[i].key == k
  {
    forall k | Occurrences(obs, k) > 0
      ensures exists i :: 0 <= i < |SortDesc(TallyAll(obs), EntryTotal)| && SortDesc(TallyAll(obs), EntryTotal)[i].key == k
    {
      SortedKeyPresent(obs, k);
    }
  }

  /** Every observation's key occurs. */
  lemma {:induction false} ObservedKeyOccurs<K(!new)>(obs: seq<Observation<K>>, a: nat)
    requires a < |obs|
    ensures Occurrences(obs, obs[a].key) > 0
  {
    if a < |obs| - 1 {
      assert obs[..|obs| - 1][a] == obs[a];
      ObservedKeyOccurs(obs[..|obs| - 1], a);
    }
  }

  /** A key that was observed has an entry in the sorted dictionary. */
  lemma SortedKeyPresent<K(!new)>(obs: seq<Observation<K>>, k: K)
    requires Occurrences(obs, k) > 0
    ensures exists i :: 0 <= i < |SortDesc(TallyAll(obs), EntryTotal)| && SortDesc(TallyAll(obs), EntryTotal)[i].key == k
  {
    var t := TallyAll(obs);
    var g := SortDesc(t, EntryTotal);
    TallyCounts(obs);
    var a := KeyPresent(t, k);
    assert t[a] in multiset(g);
    var i :| 0 <= i < |g| && g[i] == t[a];
    assert g[i].key == k;
  }

  /** Reordering a dictionary keeps its keys distinct. */
  lemma DistinctKeysOfPermutation<K(!new)>(t: seq<Entry<K>>, g: seq<Entry<K>>)
    requires DistinctKeys(t) && multiset(g) == multiset(t)
    ensures DistinctKeys(g)
  {
    forall i, j | 0 <= i < j < |g| ensures g[i].key != g[j].key {
      assert g[i] in multiset(t);
      var a :| 0 <= a < |t| && t[a] == g[i];
      assert g[j] in multiset(t);
      var b :| 0 <= b < |t| && t[b] == g[j];
      OnceInDistinct(t, a);
      OnceMeansDistinct(g, i, j);
      assert a != b;
    }
  }

  /** With one entry per key, every entry occurs once. */
  lemma {:induction false} OnceInDistinct<K(!new)>(t: seq<Entry<K>>, a: nat)
    requires DistinctKeys(t) && a < |t|
    ensures multiset(t)[t[a]] == 1
  {
    assert t == [t[0]] + t[1..];
    if a == 0 {
      assert forall k :: 0 <= k < |t[1..]| ==> t[1..][k] == t[k + 1];
      assert t[0] !in multiset(t[1..]);
    } else {
      assert DistinctKeys(t[1..]) by {
        forall c, d | 0 <= c < d < |t[1..]| ensures t[1..][c].key != t[1..][d].key {
          assert t[1..][c] == t[c + 1] && t[1..][d] == t[d + 1];
        }
      }
      assert t[1..][a - 1] == t[a];
      OnceInDistinct(t[1..], a - 1);
    }
  }

  /** An element occurring once sits at one position only. */
  lemma OnceMeansDistinct<T>(s: seq<T>, i: nat, j: nat)
    requires i < j < |s| && multiset(s)[s[i]] <= 1
    ensures s[i] != s[j]
  {
    assert s == s[..j] + [s[j]] + s[j + 1..];
    assert s[..j][i] == s[i];
  }

  /** Sorting the dictionary keeps one occurrence per observation. */
  lemma SortedSum<K(!new)>(obs: seq<Observation<K>>)
    ensures SumTotals(SortDesc(TallyAll(obs), EntryTotal)) == |obs|
  {
    var t := TallyAll(obs);
    TallyCounts(obs);
    SumPermutation(SortDesc(t, EntryTotal), t);
  }

  /** One entry of the sorted dictionary holds its key's counts. */
  lemma SortedEntryCounts<K(!new)>(obs: seq<Observation<K>>, i: nat)
    requires i < |SortDesc(TallyAll(obs), EntryTotal)|
    ensures var e := SortDesc(TallyAll(obs), EntryTotal)[i];
            e.total == Occurrences(obs, e.key) && e.success == Successes(obs, e.key) && 0 < e.total && e.success <= e.total
  {
    var t := TallyAll(obs);
    var g := SortDesc(t, EntryTotal);
    TallyCounts(obs);
    assert g[i] in multiset(t);
    var a :| 0 <= a < |t| && t[a] == g[i];
    EntryHoldsKeyTotal(t, a);
  }

  /** With one entry per key, an entry holds everything recorded for its key. */
  lemma {:induction false} EntryHoldsKeyTotal<K(!new)>(t: seq<Entry<K>>, i: nat)
    requires DistinctKeys(t) && i < |t|
    ensures TotalFor(t, t[i].key) == t[i].total
    ensures SuccessFor(t, t[i].key) == t[i].success
  {
    if i == 0 {
      KeyAbsent(t[1..], t[0].key);
    } else {
      assert DistinctKeys(t[1..]) by {
        forall a, b | 0 <= a < b < |t[1..]| ensures t[1..][a].key != t[1..][b].key {
          assert t[1..][a] == t[a + 1] && t[1..][b] == t[b + 1];
        }
      }
      assert t[1..][i - 1] == t[i];
      EntryHoldsKeyTotal(t[1..], i - 1);
    }
  }

  /** A key with something recorded for it has an entry. */
  lemma {:induction false} KeyPresent<K(!new)>(t: seq<Entry<K>>, key: K) returns (a: nat)
    requires TotalFor(t, key) > 0
    ensures a < |t| && t[a].key == key
  {
    if t[0].key == key {
      a := 0;
    } else {
      var b := KeyPresent(t[1..], key);
      assert t[1..][b] == t[b + 1];
      a := b + 1;
    }
  }

  lemma {:induction false} KeyAbsent<K(!new)>(t: seq<Entry<K>>, key: K)
    requires forall i :: 0 <= i < |t| ==> t[i].key != key
    ensures TotalFor(t, key) == 0 && SuccessFor(t, key) == 0
  {
    if t != [] {
      assert forall i :: 0 <= i < |t[1..]| ==> t[1..][i] == t[i + 1];
      KeyAbsent(t[1..], key);
    }
  }

  // ---------------------------------------------------------------------------
  // Sums are independent of order
  // ---------------------------------------------------------------------------

  lemma {:induction false} SumConcat<K>(a: seq<Entry<K>>, b: seq<Entry<K>>)
    ensures SumTotals(a + b) == SumTotals(a) + SumTotals(b)
  {
    if a != [] {
      assert a + b == [a[0]] + (a[1..] + b);
      SumConcat(a[1..], b);
    } else {
      assert a + b == b;
    }
  }

  /** Reordering entries does not change the sum of their totals. */
  lemma {:induction false} SumPermutation<K>(s: seq<Entry<K>>, t: seq<Entry<K>>)
    requires multiset(s) == multiset(t)
    ensures SumTotals(s) == SumTotals(t)
    decreases |s|
  {
    if s == [] {
      assert |t| == |multiset(t)| == 0;
    } else {
      assert s[0] in multiset(t);
      var j :| 0 <= j < |t| && t[j] == s[0];
      var rest := t[..j] + t[j + 1..];
      RemoveOne(t, j);
      assert multiset(s[1..]) == multiset(s) - multiset{s[0]} by {
        assert s == [s[0]] + s[1..];
      }
      assert multiset(s[1..]) == multiset(rest);
      SumPermutation(s[1..], rest);
    }
  }

  /** Taking the element at `j` out of `t` removes its total from the sum and
      one copy of it from the multiset. */
  lemma RemoveOne<K>(t: seq<Entry<K>>, j: nat)
    requires j < |t|
    ensures multiset(t[..j] + t[j + 1..]) == multiset(t) - multiset{t[j]}
    ensures SumTotals(t) == t[j].total + SumTotals(t[..j] + t[j + 1..])
  {
    RemoveOneMultiset(t, j);
    RemoveOneSumAt(t, j);
  }

  lemma RemoveOneSumAt<K>(t: seq<Entry<K>>, j: nat)
    requires j < |t|
    ensures SumTotals(t) == t[j].total + SumTotals(t[..j] + t[j + 1..])
  {
    var x, front, back := t[j], t[..j], t[j + 1..];
    assert t == front + [x] + back;
    RemoveOneSum(front, x, back);
  }

  lemma RemoveOneMultiset<K>(t: seq<Entry<K>>, j: nat)
    requires j < |t|
    ensures multiset(t[..j] + t[j + 1..]) == multiset(t) - multiset{t[j]}
  {
    assert t == t[..j] + [t[j]] + t[j + 1..];
  }

  lemma RemoveOneSum<K>(front: seq<Entry<K>>, x: Entry<K>, back: seq<Entry<K>>)
    ensures SumTotals(front + [x] + back) == x.total + SumTotals(front + back)
  {
    SumConcat(front + [x], back);
    SumConcat(front, [x]);
    SumConcat(front, back);
    assert [x][1..] == [];
  }
}
