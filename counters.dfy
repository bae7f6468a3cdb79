/**
 * Insertion-ordered counters (`collections.defaultdict(int)` as the engine
 * uses it) and the stable sort by count that ranks them.
 */
module Counters {
  /** One entry of a counter: a key and how often it was counted. */
  datatype Entry<K> = Entry(key: K, count: nat)

  /** A counter lists each key once, in the order the dictionary met it. */
  predicate DistinctKeys<K(==,!new)>(cs: seq<Entry<K>>)
  {
    forall i, j :: 0 <= i < j < |cs| ==> cs[i].key != cs[j].key
  }

  /** The values of `xs`, as a set. */
  function Elements<T(!new)>(xs: seq<T>): (r: set<T>)
    ensures forall x :: x in r <==> x in xs
  {
    set x | x in xs
  }

  /** One more value in the sequence is one more in the set. */
  lemma ElementsSnoc<T(!new)>(xs: seq<T>, x: T)
    ensures Elements(xs + [x]) == Elements(xs) + {x}
  {
  }

  /** `counter[key]` of a `defaultdict(int)`: 0 for a key never counted. */
  function CountOf<K(==,!new)>(cs: seq<Entry<K>>, key: K): nat
  {
    if cs == [] then 0
    else if cs[0].key == key then cs[0].count
    else CountOf(cs[1..], key)
  }

  /** The keys the counter holds. */
  predicate Counted<K(==,!new)>(cs: seq<Entry<K>>, key: K)
  {
    exists i :: 0 <= i < |cs| && cs[i].key == key
  }

  /** `counter[key] += 1`: that key's count grows by one, a new key goes last, nothing else changes. */
  function Bump<K(==,!new)>(cs: seq<Entry<K>>, key: K): (r: seq<Entry<K>>)
    requires DistinctKeys(cs)
    ensures DistinctKeys(r)
    ensures forall x :: CountOf(r, x) == CountOf(cs, x) + (if x == key then 1 else 0)
    ensures |r| == |cs| + (if Counted(cs, key) then 0 else 1)
    ensures forall i :: 0 <= i < |cs| ==> r[i].key == cs[i].key
    ensures !Counted(cs, key) ==> r[|cs|] == Entry(key, 1)
  {
    if cs == [] then [Entry(key, 1)]
    else if cs[0].key == key then
      assert !Counted(cs[1..], key) by {
        forall i | 0 <= i < |cs[1..]| ensures cs[1..][i].key != key {
          assert cs[1..][i] == cs[i + 1];
        }
      }
      NotCountedIsZero(cs[1..], key);
      [cs[0].(count := cs[0].count + 1)] + cs[1..]
    else
      var rest := Bump(cs[1..], key);
      assert Counted(cs, key) <==> Counted(cs[1..], key) by {
        if Counted(cs, key) {
          var i :| 0 <= i < |cs| && cs[i].key == key;
          assert cs[1..][i - 1] == cs[i];
        }
        if Counted(cs[1..], key) {
          var i :| 0 <= i < |cs[1..]| && cs[1..][i].key == key;
          assert cs[i + 1] == cs[1..][i];
        }
      }
      [cs[0]] + rest
  }

  /** A key the counter does not hold counts 0. */
  lemma {:induction false} NotCountedIsZero<K(!new)>(cs: seq<Entry<K>>, key: K)
    requires !Counted(cs, key)
    ensures CountOf(cs, key) == 0
  {
    if cs != [] {
      assert cs[0].key != key;
      assert !Counted(cs[1..], key) by {
        forall i | 0 <= i < |cs[1..]| ensures cs[1..][i].key != key {
          assert cs[1..][i] == cs[i + 1];
        }
      }
      NotCountedIsZero(cs[1..], key);
    }
  }

  /** In a counter that lists each key once, an entry's count is that key's count. */
  lemma {:induction false} CountAt<K(!new)>(cs: seq<Entry<K>>, i: nat)
    requires DistinctKeys(cs) && i < |cs|
    ensures CountOf(cs, cs[i].key) == cs[i].count
  {
    if i > 0 {
      assert cs[0].key != cs[i].key;
      assert cs[1..][i - 1] == cs[i];
      assert DistinctKeys(cs[1..]) by {
        forall p, q | 0 <= p < q < |cs[1..]| ensures cs[1..][p].key != cs[1..][q].key {
          assert cs[1..][p] == cs[p + 1] && cs[1..][q] == cs[q + 1];
        }
      }
      CountAt(cs[1..], i - 1);
    }
  }

  /** The entries counted more than once, in counter order. */
  function Repeated<K>(cs: seq<Entry<K>>): seq<Entry<K>>
  {
    if cs == [] then []
    else Repeated(cs[..|cs| - 1]) + (if cs[|cs| - 1].count > 1 then [cs[|cs| - 1]] else [])
  }

  /** `Repeated` keeps exactly the entries whose count exceeds one. */
  lemma {:induction false} RepeatedMembers<K(!new)>(cs: seq<Entry<K>>, e: Entry<K>)
    ensures e in Repeated(cs) <==> e in cs && e.count > 1
  {
    if cs != [] {
      RepeatedMembers(cs[..|cs| - 1], e);
      assert cs == cs[..|cs| - 1] + [cs[|cs| - 1]];
    }
  }

  /** A key is among the repeated entries exactly when it was counted more than once, and then with its count. */
  lemma RepeatedIff<K(!new)>(cs: seq<Entry<K>>, x: K)
    requires DistinctKeys(cs)
    ensures (exists e :: e in Repeated(cs) && e.key == x) <==> CountOf(cs, x) > 1
    ensures forall e :: e in Repeated(cs) ==> e.count == CountOf(cs, e.key)
  {
    forall e | e in Repeated(cs) ensures e in cs && e.count == CountOf(cs, e.key) {
      RepeatedMembers(cs, e);
      var i :| 0 <= i < |cs| && cs[i] == e;
      CountAt(cs, i);
    }
    if CountOf(cs, x) > 1 {
      if !Counted(cs, x) {
        NotCountedIsZero(cs, x);
      }
      var i :| 0 <= i < |cs| && cs[i].key == x;
      CountAt(cs, i);
      RepeatedMembers(cs, cs[i]);
    }
  }

  /** The sum of all counts. */
  function Total<K(==,!new)>(cs: seq<Entry<K>>): nat
  {
    if cs == [] then 0 else cs[0].count + Total(cs[1..])
  }

  /** Each increment adds exactly one to the counter's total. */
  lemma {:induction false} BumpTotal<K(!new)>(cs: seq<Entry<K>>, key: K)
    requires DistinctKeys(cs)
    ensures Total(Bump(cs, key)) == Total(cs) + 1
  {
    if cs != [] && cs[0].key != key {
      BumpTotal(cs[1..], key);
      assert Bump(cs, key)[1..] == Bump(cs[1..], key);
    }
  }

  /** Counting every key of `ks` in turn (`for k in ks: counter[k] += 1`). */
  function BumpAll<K(==,!new)>(cs: seq<Entry<K>>, ks: seq<K>): (r: seq<Entry<K>>)
    requires DistinctKeys(cs)
    ensures DistinctKeys(r)
  {
    if ks == [] then cs else Bump(BumpAll(cs, ks[..|ks| - 1]), ks[|ks| - 1])
  }

  /** Counting one more key is one more `Bump`. */
  lemma BumpAllSnoc<K(!new)>(cs: seq<Entry<K>>, ks: seq<K>, k: K)
    requires DistinctKeys(cs)
    ensures BumpAll(cs, ks + [k]) == Bump(BumpAll(cs, ks), k)
  {
    assert (ks + [k])[..|ks|] == ks;
  }

  /** Counting `ks + ts` is counting `ks`, then `ts`. */
  lemma {:induction false} BumpAllAppend<K(!new)>(cs: seq<Entry<K>>, ks: seq<K>, ts: seq<K>)
    requires DistinctKeys(cs)
    ensures BumpAll(cs, ks + ts) == BumpAll(BumpAll(cs, ks), ts)
  {
    if ts == [] {
      assert ks + ts == ks;
    } else {
      assert (ks + ts)[..|ks + ts| - 1] == ks + ts[..|ts| - 1];
      BumpAllAppend(cs, ks, ts[..|ts| - 1]);
    }
  }

  /** After counting `ks`, every key's count grew by its number of occurrences in `ks`. */
  lemma {:induction false} BumpAllCounts<K(!new)>(cs: seq<Entry<K>>, ks: seq<K>, x: K)
    requires DistinctKeys(cs)
    ensures CountOf(BumpAll(cs, ks), x) == CountOf(cs, x) + multiset(ks)[x]
  {
    if ks != [] {
      BumpAllCounts(cs, ks[..|ks| - 1], x);
      assert ks == ks[..|ks| - 1] + [ks[|ks| - 1]];
    }
  }

  /** After counting `ks`, the total grew by `|ks|`. */
  lemma {:induction false} BumpAllTotal<K(!new)>(cs: seq<Entry<K>>, ks: seq<K>)
    requires DistinctKeys(cs)
    ensures Total(BumpAll(cs, ks)) == Total(cs) + |ks|
  {
    if ks != [] {
      BumpAllTotal(cs, ks[..|ks| - 1]);
      BumpTotal(BumpAll(cs, ks[..|ks| - 1]), ks[|ks| - 1]);
    }
  }

  /** A set that holds exactly the counted keys still does once `ks` are counted and added to it. */
  lemma CountedKeys<K(!new)>(cs: seq<Entry<K>>, ks: seq<K>, keys: set<K>)
    requires DistinctKeys(cs)
    requires forall x :: x in keys <==> CountOf(cs, x) > 0
    ensures forall x :: x in keys + Elements(ks) <==> CountOf(BumpAll(cs, ks), x) > 0
  {
    forall x ensures x in keys + Elements(ks) <==> CountOf(BumpAll(cs, ks), x) > 0 {
      BumpAllCounts(cs, ks, x);
    }
  }

  /** Counts never increase along `s`. */
  predicate NonIncreasing<K(==,!new)>(s: seq<Entry<K>>)
  {
    forall i, j :: 0 <= i < j < |s| ==> s[i].count >= s[j].count
  }

  /** Inserts `x` after every entry whose count is at least its own, so equal counts keep their order. */
  function Insert<K(==,!new)>(x: Entry<K>, s: seq<Entry<K>>): (r: seq<Entry<K>>)
    requires NonIncreasing(s)
    ensures NonIncreasing(r)
    ensures |r| == |s| + 1
    ensures r[0] == if s == [] || s[0].count < x.count then x else s[0]
  {
    if s == [] then [x]
    else if s[0].count >= x.count then
      var rest := Insert(x, s[1..]);
      assert s[0].count >= rest[0].count;
      [s[0]] + rest
    else
      [x] + s
  }

  /** Insertion adds exactly `x`. */
  lemma {:induction false} InsertAdds<K(!new)>(x: Entry<K>, s: seq<Entry<K>>)
    requires NonIncreasing(s)
    ensures multiset(Insert(x, s)) == multiset(s) + multiset{x}
  {
    if s != [] && s[0].count >= x.count {
      InsertAdds(x, s[1..]);
      assert s == [s[0]] + s[1..];
    }
  }

  /** `sorted(items, key=count, reverse=True)`: Python's sort is stable, also when reversed. */
  function SortByCount<K(==,!new)>(s: seq<Entry<K>>): (r: seq<Entry<K>>)
    ensures NonIncreasing(r)
    ensures multiset(r) == multiset(s)
    ensures |r| == |s|
  {
    if s == [] then []
    else
      var prior := SortByCount(s[..|s| - 1]);
      InsertAdds(s[|s| - 1], prior);
      assert s == s[..|s| - 1] + [s[|s| - 1]];
      Insert(s[|s| - 1], prior)
  }

  /** The entries of `s` with count `c`, in order. */
  function WithCount<K(==,!new)>(s: seq<Entry<K>>, c: nat): seq<Entry<K>>
  {
    if s == [] then []
    else (if s[0].count == c then [s[0]] else []) + WithCount(s[1..], c)
  }

  /** Filtering distributes over appending one entry. */
  lemma {:induction false} WithCountAppend<K(!new)>(s: seq<Entry<K>>, x: Entry<K>, c: nat)
    ensures WithCount(s + [x], c) == WithCount(s, c) + (if x.count == c then [x] else [])
  {
    if s != [] {
      assert (s + [x])[1..] == s[1..] + [x];
      WithCountAppend(s[1..], x, c);
    }
  }

  /** Nothing passes the filter when every count is smaller. */
  lemma {:induction false} WithCountNone<K(!new)>(s: seq<Entry<K>>, c: nat)
    requires forall i :: 0 <= i < |s| ==> s[i].count < c
    ensures WithCount(s, c) == []
  {
    if s != [] {
      WithCountNone(s[1..], c);
    }
  }

  /** Filtering a sequence with a known first entry. */
  lemma WithCountCons<K(!new)>(y: Entry<K>, t: seq<Entry<K>>, c: nat)
    ensures WithCount([y] + t, c) == (if y.count == c then [y] else []) + WithCount(t, c)
  {
    assert ([y] + t)[1..] == t;
  }

  /** Insertion puts `x` after the entries with its own count. */
  lemma {:induction false} InsertStable<K(!new)>(x: Entry<K>, s: seq<Entry<K>>, c: nat)
    requires NonIncreasing(s)
    ensures WithCount(Insert(x, s), c) == WithCount(s, c) + (if x.count == c then [x] else [])
  {
    if s == [] {
      WithCountCons(x, [], c);
    } else if s[0].count >= x.count {
      var rest := Insert(x, s[1..]);
      assert Insert(x, s) == [s[0]] + rest;
      InsertStable(x, s[1..], c);
      WithCountCons(s[0], rest, c);
    } else {
      assert Insert(x, s) == [x] + s;
      WithCountCons(x, s, c);
      if x.count == c {
        WithCountNone(s, c);
      }
    }
  }

  /** The sort is stable: for every count, the entries with that count keep their original order. */
  lemma {:induction false} SortStable<K(!new)>(s: seq<Entry<K>>, c: nat)
    ensures WithCount(SortByCount(s), c) == WithCount(s, c)
  {
    if s != [] {
      var prior := s[..|s| - 1];
      var last := s[|s| - 1];
      assert SortByCount(s) == Insert(last, SortByCount(prior));
      SortStable(prior, c);
      InsertStable(last, SortByCount(prior), c);
      assert s == prior + [last];
      WithCountAppend(prior, last, c);
    }
  }

  /** Python's `s[:limit]`, where a negative `limit` counts from the end. */
  function PyHead<T>(s: seq<T>, limit: int): (r: seq<T>)
    ensures r <= s
    ensures |r| == if limit >= 0 then (if limit <= |s| then limit else |s|)
                   else (if -limit <= |s| then |s| + limit else 0)
  {
    if limit >= 0 then (if limit <= |s| then s[..limit] else s)
    else if -limit <= |s| then s[..|s| + limit] else []
  }

  /** The counter sorted by count, highest first, cut at `limit` (`get_most_common_invalid_codes`). */
  function TopCounts<K(==,!new)>(cs: seq<Entry<K>>, limit: int): (r: seq<Entry<K>>)
    ensures NonIncreasing(r)
    ensures limit >= 0 ==> |r| == if limit <= |cs| then limit else |cs|
    ensures multiset(r) <= multiset(cs)
    ensures limit >= |cs| ==> multiset(r) == multiset(cs)
  {
    var sorted := SortByCount(cs);
    var r := PyHead(sorted, limit);
    assert sorted == r + sorted[|r|..];
    r
  }

  /** No entry left out of the top list has a higher count than an entry in it. */
  lemma TopCountsAreLargest<K(!new)>(cs: seq<Entry<K>>, limit: int)
    ensures forall x, y :: x in cs && x !in TopCounts(cs, limit) && y in TopCounts(cs, limit) ==> y.count >= x.count
  {
    var sorted := SortByCount(cs);
    var r := TopCounts(cs, limit);
    assert r == sorted[..|r|];
    forall x, y | x in cs && x !in r && y in r ensures y.count >= x.count {
      assert x in multiset(sorted);
      var p :| 0 <= p < |sorted| && sorted[p] == x;
      var q :| 0 <= q < |r| && r[q] == y;
      assert sorted[q] == y;
    }
  }
}
