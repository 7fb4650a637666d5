/**
 * The collection idioms the reports are built from: an insertion-ordered
 * counter (a Python dict or `defaultdict(int)` whose values are bumped in a
 * loop), `sorted(items, key=..., reverse=True)[:n]`, and `max(items, key=...)`.
 */
module Tally {
  import JsonValue

  /** A counter as a Python dict holds it: (key, value) pairs, keys in first-seen order. */
  type Counts<K> = seq<(K, int)>

  predicate DistinctKeys<K(==)>(c: Counts<K>) {
    forall i, j :: 0 <= i < j < |c| ==> c[i].0 != c[j].0
  }

  /** `counter[k]` of a defaultdict: 0 for a key never bumped. */
  function Get<K(==)>(c: Counts<K>, k: K): int {
    if c == [] then 0 else if c[0].0 == k then c[0].1 else Get(c[1..], k)
  }

  /** The sum of all values, `sum(counter.values())`. */
  function SumValues<K>(c: Counts<K>): int {
    if c == [] then 0 else c[0].1 + SumValues(c[1..])
  }

  /** `counter[k] += w`: an existing key keeps its place, a new key is appended. */
  function Bump<K(==)>(c: Counts<K>, k: K, w: int): Counts<K> {
    if c == [] then [(k, w)]
    else if c[0].0 == k then [(k, c[0].1 + w)] + c[1..]
    else [c[0]] + Bump(c[1..], k, w)
  }

  /** The counter a loop builds by bumping `ps[i].0` by `ps[i].1` for i = 0, 1, ... */
  function Fold<K(==)>(ps: seq<(K, int)>): Counts<K> {
    if ps == [] then [] else Bump(Fold(ps[..|ps| - 1]), ps[|ps| - 1].0, ps[|ps| - 1].1)
  }

  /** The total weight the pairs give to key `k`. */
  function WeightOf<K(==)>(ps: seq<(K, int)>, k: K): int {
    if ps == [] then 0
    else WeightOf(ps[..|ps| - 1], k) + (if ps[|ps| - 1].0 == k then ps[|ps| - 1].1 else 0)
  }

  /** The total weight of all pairs. */
  function TotalWeight<K>(ps: seq<(K, int)>): int {
    if ps == [] then 0 else TotalWeight(ps[..|ps| - 1]) + ps[|ps| - 1].1
  }

  /** The keys of `ks` with repeats removed, each at its first occurrence. */
  function FirstSeen<K(==)>(ks: seq<K>): seq<K> {
    if ks == [] then []
    else
      var d := FirstSeen(ks[..|ks| - 1]);
      if ks[|ks| - 1] in d then d else d + [ks[|ks| - 1]]
  }

  function PairKeys<K>(ps: seq<(K, int)>): (ks: seq<K>)
    ensures |ks| == |ps|
    ensures forall i :: 0 <= i < |ps| ==> ks[i] == ps[i].0
  {
    seq(|ps|, i requires 0 <= i < |ps| => ps[i].0)
  }

  // ------------------------------------------------------------ one bump

  lemma {:induction false} BumpGet<K>(c: Counts<K>, k: K, w: int, k': K)
    ensures Get(Bump(c, k, w), k') == Get(c, k') + (if k' == k then w else 0)
  {
    if c != [] && c[0].0 != k {
      BumpGet(c[1..], k, w, k');
    }
  }

  lemma {:induction false} BumpSum<K>(c: Counts<K>, k: K, w: int)
    ensures SumValues(Bump(c, k, w)) == SumValues(c) + w
  {
    if c != [] && c[0].0 != k {
      BumpSum(c[1..], k, w);
    }
  }

  lemma {:induction false} BumpKeys<K>(c: Counts<K>, k: K, w: int)
    ensures JsonValue.KeysOf(Bump(c, k, w)) == if k in JsonValue.KeysOf(c) then JsonValue.KeysOf(c) else JsonValue.KeysOf(c) + [k]
  {
    if c == [] {
    } else if c[0].0 == k {
      assert JsonValue.KeysOf(Bump(c, k, w)) == [k] + JsonValue.KeysOf(c[1..]);
    } else {
      BumpKeys(c[1..], k, w);
      assert JsonValue.KeysOf(c) == [c[0].0] + JsonValue.KeysOf(c[1..]);
      assert JsonValue.KeysOf(Bump(c, k, w)) == [c[0].0] + JsonValue.KeysOf(Bump(c[1..], k, w));
    }
  }

  // ------------------------------------------------------------ the fold

  /** One more turn of the counting loop. */
  lemma FoldSnoc<K>(ps: seq<(K, int)>, p: (K, int))
    ensures Fold(ps + [p]) == Bump(Fold(ps), p.0, p.1)
  {
    assert (ps + [p])[..|ps|] == ps;
  }

  /** After the loop, `counter[k]` is the total weight given to `k`. */
  lemma {:induction false} FoldGet<K>(ps: seq<(K, int)>, k: K)
    ensures Get(Fold(ps), k) == WeightOf(ps, k)
  {
    if ps != [] {
      FoldGet(ps[..|ps| - 1], k);
      BumpGet(Fold(ps[..|ps| - 1]), ps[|ps| - 1].0, ps[|ps| - 1].1, k);
    }
  }

  /** Summed over all keys, the counter holds the total weight: every pair is counted once. */
  lemma {:induction false} FoldSum<K>(ps: seq<(K, int)>)
    ensures SumValues(Fold(ps)) == TotalWeight(ps)
  {
    if ps != [] {
      FoldSum(ps[..|ps| - 1]);
      BumpSum(Fold(ps[..|ps| - 1]), ps[|ps| - 1].0, ps[|ps| - 1].1);
    }
  }

  /** The counter's keys are the distinct keys of the pairs, in first-seen order. */
  lemma {:induction false} FoldKeys<K>(ps: seq<(K, int)>)
    ensures JsonValue.KeysOf(Fold(ps)) == FirstSeen(PairKeys(ps))
  {
    if ps != [] {
      var p := ps[..|ps| - 1];
      FoldKeys(p);
      BumpKeys(Fold(p), ps[|ps| - 1].0, ps[|ps| - 1].1);
      assert PairKeys(ps)[..|ps| - 1] == PairKeys(p);
    }
  }

  lemma {:induction false} FirstSeenDistinct<K>(ks: seq<K>)
    ensures forall i, j :: 0 <= i < j < |FirstSeen(ks)| ==> FirstSeen(ks)[i] != FirstSeen(ks)[j]
    ensures forall x :: x in FirstSeen(ks) <==> x in ks
  {
    if ks != [] {
      var p := ks[..|ks| - 1];
      FirstSeenDistinct(p);
      assert ks == p + [ks[|ks| - 1]];
      forall x
        ensures x in FirstSeen(ks) <==> x in ks
      {
        if x in ks && x !in p {
          assert x == ks[|ks| - 1];
        }
      }
    }
  }

  /** The counter never holds a key twice, and it holds exactly the keys of the pairs. */
  lemma FoldDistinct<K>(ps: seq<(K, int)>)
    ensures DistinctKeys(Fold(ps))
    ensures forall k :: k in JsonValue.KeysOf(Fold(ps)) <==> k in PairKeys(ps)
  {
    FoldKeys(ps);
    FirstSeenDistinct(PairKeys(ps));
  }

  /** A sequence without repeats is as long as the set of its elements. */
  lemma {:induction false} DistinctCard<K>(ks: seq<K>)
    requires forall i, j :: 0 <= i < j < |ks| ==> ks[i] != ks[j]
    ensures |set x | x in ks| == |ks|
  {
    if ks != [] {
      var p := ks[..|ks| - 1];
      DistinctCard(p);
      var last := ks[|ks| - 1];
      assert (set x | x in ks) == (set x | x in p) + {last} by {
        assert ks == p + [last];
      }
      assert last !in (set x | x in p);
    }
  }

  /** The number of keys in the counter is the number of distinct keys among the pairs. */
  lemma FoldSize<K>(ps: seq<(K, int)>)
    ensures |Fold(ps)| == |set k | k in PairKeys(ps)|
  {
    var keys := JsonValue.KeysOf(Fold(ps));
    FoldDistinct(ps);
    assert forall i, j :: 0 <= i < j < |keys| ==> keys[i] != keys[j];
    DistinctCard(keys);
    SameMembers(keys, PairKeys(ps));
  }

  lemma SameMembers<K>(a: seq<K>, b: seq<K>)
    requires forall k :: k in a <==> k in b
    ensures (set k | k in a) == (set k | k in b)
  {
  }

  // ------------------------------------------------------------ stable descending sort

  predicate Descending<T>(s: seq<T>, key: T -> int) {
    forall i, j :: 0 <= i < j < |s| ==> key(s[i]) >= key(s[j])
  }

  /** The elements of `s` whose key is `v`, in their order in `s`. */
  function WithKey<T>(s: seq<T>, key: T -> int, v: int): seq<T> {
    if s == [] then [] else (if key(s[0]) == v then [s[0]] else []) + WithKey(s[1..], key, v)
  }

  lemma {:induction false} WithKeyAppend<T>(a: seq<T>, b: seq<T>, key: T -> int, v: int)
    ensures WithKey(a + b, key, v) == WithKey(a, key, v) + WithKey(b, key, v)
  {
    if a != [] {
      assert (a + b)[1..] == a[1..] + b;
      WithKeyAppend(a[1..], b, key, v);
    } else {
      assert a + b == b;
    }
  }

  lemma {:induction false} WithKeyNone<T>(s: seq<T>, key: T -> int, v: int)
    requires forall i :: 0 <= i < |s| ==> key(s[i]) < v
    ensures WithKey(s, key, v) == []
  {
    if s != [] {
      WithKeyNone(s[1..], key, v);
    }
  }

  /** An element that dominates `t` and `x` dominates whatever holds the elements of `t` and `x`. */
  lemma Dominates<T>(h: T, t: seq<T>, x: T, rest: seq<T>, key: T -> int)
    requires forall i :: 0 <= i < |t| ==> key(t[i]) <= key(h)
    requires key(x) <= key(h)
    requires multiset(rest) == multiset(t) + multiset{x}
    ensures forall i :: 0 <= i < |rest| ==> key(rest[i]) <= key(h)
  {
    forall i | 0 <= i < |rest|
      ensures key(rest[i]) <= key(h)
    {
      var y := rest[i];
      assert y in multiset(rest);
      if y != x {
        assert y in multiset(t);
        var j :| 0 <= j < |t| && t[j] == y;
      }
    }
  }

  /** Inserts `x` after every element whose key is at least `x`'s: later equal keys stay later. */
  function Insert<T>(x: T, s: seq<T>, key: T -> int): (r: seq<T>)
    requires Descending(s, key)
    ensures multiset(r) == multiset(s) + multiset{x}
    ensures Descending(r, key)
    ensures |r| == |s| + 1
  {
    if s == [] then [x]
    else if key(s[0]) >= key(x) then
      DescendingTail(s, key);
      var rest := Insert(x, s[1..], key);
      Dominates(s[0], s[1..], x, rest, key);
      ConsDescending(s[0], rest, key);
      [s[0]] + rest
    else
      ConsDescending(x, s, key);
      [x] + s
  }

  /** The tail of a descending sequence is descending and dominated by the head. */
  lemma DescendingTail<T>(s: seq<T>, key: T -> int)
    requires Descending(s, key) && s != []
    ensures Descending(s[1..], key)
    ensures forall i :: 0 <= i < |s[1..]| ==> key(s[1..][i]) <= key(s[0])
    ensures multiset(s) == multiset{s[0]} + multiset(s[1..])
  {
    assert s == [s[0]] + s[1..];
  }

  /** A head whose key dominates a descending tail makes a descending sequence. */
  lemma ConsDescending<T>(h: T, t: seq<T>, key: T -> int)
    requires Descending(t, key)
    requires forall i :: 0 <= i < |t| ==> key(t[i]) <= key(h)
    ensures Descending([h] + t, key)
    ensures multiset([h] + t) == multiset{h} + multiset(t)
  {
    var r := [h] + t;
    forall i, j | 0 <= i < j < |r|
      ensures key(r[i]) >= key(r[j])
    {
      assert r[j] == t[j - 1];
      if i > 0 {
        assert r[i] == t[i - 1];
      }
    }
  }

  lemma WithKeyCons<T>(h: T, t: seq<T>, key: T -> int, v: int)
    ensures WithKey([h] + t, key, v) == (if key(h) == v then [h] else []) + WithKey(t, key, v)
  {
    assert ([h] + t)[0] == h;
    assert ([h] + t)[1..] == t;
  }

  lemma {:induction false} InsertWithKey<T>(x: T, s: seq<T>, key: T -> int, v: int)
    requires Descending(s, key)
    ensures WithKey(Insert(x, s, key), key, v) == WithKey(s, key, v) + (if key(x) == v then [x] else [])
  {
    if s == [] {
      assert Insert(x, s, key) == [x];
      WithKeyCons(x, [], key, v);
    } else if key(s[0]) >= key(x) {
      var rest := Insert(x, s[1..], key);
      var h := if key(s[0]) == v then [s[0]] else [];
      var tail := if key(x) == v then [x] else [];
      DescendingTail(s, key);
      InsertWithKey(x, s[1..], key, v);
      InsertUnfold(x, s, key);
      WithKeyCons(s[0], rest, key, v);
      assert WithKey(s, key, v) == h + WithKey(s[1..], key, v);
      JsonValue.ConcatAssoc(h, WithKey(s[1..], key, v), tail);
    } else {
      InsertUnfold(x, s, key);
      InsertFront(x, s, key, v);
    }
  }

  lemma InsertUnfold<T>(x: T, s: seq<T>, key: T -> int)
    requires Descending(s, key) && s != []
    ensures Descending(s[1..], key)
    ensures Insert(x, s, key) == if key(s[0]) >= key(x) then [s[0]] + Insert(x, s[1..], key) else [x] + s
  {
    DescendingTail(s, key);
  }

  /** An element placed before a descending sequence of smaller keys is the last of its key. */
  lemma InsertFront<T>(x: T, s: seq<T>, key: T -> int, v: int)
    requires Descending(s, key) && s != [] && key(s[0]) < key(x)
    ensures WithKey([x] + s, key, v) == WithKey(s, key, v) + (if key(x) == v then [x] else [])
  {
    WithKeyCons(x, s, key, v);
    if key(x) == v {
      WithKeyNone(s, key, v);
    }
  }

  /** `sorted(s, key=key, reverse=True)`: Python's sort is stable, even when reversed. */
  function SortDesc<T>(s: seq<T>, key: T -> int): (r: seq<T>)
    ensures multiset(r) == multiset(s)
    ensures Descending(r, key)
    ensures |r| == |s|
  {
    if s == [] then []
    else
      assert s == s[..|s| - 1] + [s[|s| - 1]];
      Insert(s[|s| - 1], SortDesc(s[..|s| - 1], key), key)
  }

  /** The sort is stable: the elements sharing one key come out in their input order. */
  lemma {:induction false} SortDescStable<T>(s: seq<T>, key: T -> int, v: int)
    ensures WithKey(SortDesc(s, key), key, v) == WithKey(s, key, v)
  {
    if s != [] {
      var p, x := s[..|s| - 1], s[|s| - 1];
      assert s == p + [x];
      WithKeyAppend(p, [x], key, v);
      assert WithKey([x], key, v) == if key(x) == v then [x] else [];
      var t := SortDesc(p, key);
      SortDescStable(p, key, v);
      InsertWithKey(x, t, key, v);
    }
  }

  /** `s[:n]`. */
  function Take<T>(s: seq<T>, n: nat): (r: seq<T>)
    ensures |r| == if |s| <= n then |s| else n
    ensures r == s[..|r|]
  {
    if |s| <= n then s else s[..n]
  }

  /** `sorted(s, key=key, reverse=True)[:n]`. */
  function TopN<T>(s: seq<T>, key: T -> int, n: nat): seq<T> {
    Take(SortDesc(s, key), n)
  }

  /**
   * The top-n list holds min(n, |s|) elements of `s`, largest key first, and
   * no element left out has a larger key than any element kept.
   */
  lemma TopNSpec<T>(s: seq<T>, key: T -> int, n: nat)
    ensures |TopN(s, key, n)| == if |s| <= n then |s| else n
    ensures Descending(TopN(s, key, n), key)
    ensures multiset(TopN(s, key, n)) <= multiset(s)
    ensures forall x, y :: x in multiset(s) - multiset(TopN(s, key, n)) && y in TopN(s, key, n) ==> key(x) <= key(y)
  {
    var r := SortDesc(s, key);
    var t := TopN(s, key, n);
    assert t == r[..|t|];
    SplitParts(r, |t|);
    DescendingSplit(r, |t|, key);
  }

  /** A sequence's elements are those of its two halves around any split point. */
  lemma SplitParts<T>(r: seq<T>, k: nat)
    requires k <= |r|
    ensures multiset(r) == multiset(r[..k]) + multiset(r[k..])
    ensures multiset(r) - multiset(r[..k]) == multiset(r[k..])
  {
    assert r == r[..k] + r[k..];
  }

  /** In a descending sequence, nothing after a split point has a larger key than anything before it. */
  lemma DescendingSplit<T>(r: seq<T>, k: nat, key: T -> int)
    requires Descending(r, key) && k <= |r|
    ensures forall x, y :: x in multiset(r[k..]) && y in r[..k] ==> key(x) <= key(y)
  {
    forall x, y | x in multiset(r[k..]) && y in r[..k]
      ensures key(x) <= key(y)
    {
      var i :| k <= i < |r| && r[i] == x;
      var j :| 0 <= j < k && r[j] == y;
    }
  }

  /**
   * Ties keep their input order in a top-n list: the kept elements with key
   * `v` are the first elements of `s` with key `v`, in their order in `s`.
   */
  lemma TopNStable<T>(s: seq<T>, key: T -> int, n: nat, v: int)
    ensures |WithKey(TopN(s, key, n), key, v)| <= |WithKey(s, key, v)|
    ensures WithKey(TopN(s, key, n), key, v) == WithKey(s, key, v)[..|WithKey(TopN(s, key, n), key, v)|]
  {
    var r := SortDesc(s, key);
    var t := TopN(s, key, n);
    assert r == t + r[|t|..];
    WithKeyAppend(t, r[|t|..], key, v);
    SortDescStable(s, key, v);
  }

  // ------------------------------------------------------------ max with a key

  /** `max(s, key=key)`: the first element with the largest key. */
  function MaxFirst<T>(s: seq<T>, key: T -> int): (r: T)
    requires |s| > 0
    ensures r in s
    ensures forall i :: 0 <= i < |s| ==> key(s[i]) <= key(r)
    ensures exists i :: 0 <= i < |s| && s[i] == r && forall j :: 0 <= j < i ==> key(s[j]) < key(r)
  {
    if |s| == 1 then s[0]
    else
      var best := MaxFirst(s[..|s| - 1], key);
      if key(s[|s| - 1]) > key(best) then s[|s| - 1] else best
  }

  /** `max(c.items(), key=value) if c else default`. */
  function Peak<K(==)>(c: Counts<K>, default: (K, int)): (r: (K, int))
    ensures c == [] ==> r == default
    ensures c != [] ==> r in c && forall i :: 0 <= i < |c| ==> c[i].1 <= r.1
    ensures c != [] ==> exists i :: 0 <= i < |c| && c[i] == r && forall j :: 0 <= j < i ==> c[j].1 < r.1
  {
    if c == [] then default else MaxFirst(c, (p: (K, int)) => p.1)
  }

  // ------------------------------------------------------------ the busiest key

  lemma {:induction false} GetDistinct<K>(c: Counts<K>, i: nat)
    requires DistinctKeys(c) && i < |c|
    ensures Get(c, c[i].0) == c[i].1
  {
    if i > 0 {
      assert c[0].0 != c[i].0;
      assert c[1..][i - 1] == c[i];
      GetDistinct(c[1..], i - 1);
    }
  }

  lemma {:induction false} GetMissing<K>(c: Counts<K>, k: K)
    requires k !in JsonValue.KeysOf(c)
    ensures Get(c, k) == 0
  {
    if c != [] {
      assert JsonValue.KeysOf(c) == [c[0].0] + JsonValue.KeysOf(c[1..]);
      GetMissing(c[1..], k);
    }
  }

  lemma {:induction false} WeightNonneg<K>(ps: seq<(K, int)>, k: K)
    requires forall i :: 0 <= i < |ps| ==> ps[i].1 >= 0
    ensures WeightOf(ps, k) >= 0
  {
    if ps != [] {
      WeightNonneg(ps[..|ps| - 1], k);
    }
  }

  /**
   * `max(counter.items(), key=value) if counter else default` after a
   * counting loop: the default when nothing was counted, and otherwise a key
   * whose count is its total weight and is at least every key's total weight.
   */
  lemma FoldPeak<K>(ps: seq<(K, int)>, default: (K, int))
    requires forall i :: 0 <= i < |ps| ==> ps[i].1 >= 0
    ensures ps == [] ==> Peak(Fold(ps), default) == default
    ensures ps != [] ==> Peak(Fold(ps), default).1 == WeightOf(ps, Peak(Fold(ps), default).0)
    ensures ps != [] ==> forall k :: WeightOf(ps, k) <= Peak(Fold(ps), default).1
  {
    var c := Fold(ps);
    if ps != [] {
      FoldDistinct(ps);
      assert PairKeys(ps)[0] == ps[0].0;
      assert |JsonValue.KeysOf(c)| > 0;
      var p := Peak(c, default);
      assert p in c;
      var i :| 0 <= i < |c| && c[i] == p;
      GetDistinct(c, i);
      FoldGet(ps, p.0);
      WeightNonneg(ps, p.0);
      forall k
        ensures WeightOf(ps, k) <= p.1
      {
        CountBound(ps, k, p.1);
      }
    }
  }

  /** No key weighs more than a bound on every count of a counter with distinct keys, if the bound is not negative. */
  lemma CountBound<K>(ps: seq<(K, int)>, k: K, top: int)
    requires DistinctKeys(Fold(ps)) && top >= 0
    requires forall i :: 0 <= i < |Fold(ps)| ==> Fold(ps)[i].1 <= top
    ensures WeightOf(ps, k) <= top
  {
    var c := Fold(ps);
    FoldGet(ps, k);
    if k in JsonValue.KeysOf(c) {
      var j :| 0 <= j < |c| && JsonValue.KeysOf(c)[j] == k;
      GetDistinct(c, j);
    } else {
      GetMissing(c, k);
    }
  }
}
