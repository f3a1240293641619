/**
 * JavaScript collection behaviour the dashboard depends on: plain objects used
 * as dictionaries (`Record<string, V>`), whose keys keep insertion order and
 * are unique; `[...new Set(xs)]`, which keeps the first appearance of each
 * element; and `reduce((sum, x) => sum + x, 0)`.
 */
module Collections {
  import opened Wrappers

  // ---------------------------------------------------------------- records

  /** A plain object: its own enumerable keys in insertion order, with their values. */
  type Record<V> = seq<(string, V)>

  /** `Object.keys(r)`. */
  function Keys<V>(r: Record<V>): (ks: seq<string>)
    ensures |ks| == |r|
    ensures forall i :: 0 <= i < |r| ==> ks[i] == r[i].0
  {
    seq(|r|, i requires 0 <= i < |r| => r[i].0)
  }

  /** No key occurs twice, as in every JavaScript object. */
  predicate DistinctKeys<V>(r: Record<V>) {
    forall i, j :: 0 <= i < j < |r| ==> r[i].0 != r[j].0
  }

  /** `r[k]`, with `undefined` as `None`. */
  function Get<V>(r: Record<V>, k: string): (v: Option<V>)
    ensures v.Some? <==> k in Keys(r)
    ensures v.Some? ==> (k, v.value) in r
  {
    if r == [] then None
    else if r[0].0 == k then Some(r[0].1)
    else
      assert Keys(r) == [r[0].0] + Keys(r[1..]);
      Get(r[1..], k)
  }

  /**
   * `r[k] = v`: an existing key keeps its position and takes the new value,
   * a new key is appended at the end.
   */
  function Put<V>(r: Record<V>, k: string, v: V): (r': Record<V>)
    ensures |r'| == if k in Keys(r) then |r| else |r| + 1
  {
    if r == [] then [(k, v)]
    else if r[0].0 == k then [(k, v)] + r[1..]
    else
      assert Keys(r) == [r[0].0] + Keys(r[1..]);
      [r[0]] + Put(r[1..], k, v)
  }

  /** In an object with distinct keys, reading the `i`-th key gives the `i`-th value. */
  lemma {:induction false} GetDistinct<V>(r: Record<V>, i: nat)
    requires i < |r|
    requires DistinctKeys(r)
    ensures Get(r, r[i].0) == Some(r[i].1)
  {
    if i > 0 {
      assert r[1..][i - 1] == r[i];
      GetDistinct(r[1..], i - 1);
    }
  }

  /** After `r[k] = v`, reading `k` gives `v` and every other key reads as before. */
  lemma {:induction false} PutGet<V>(r: Record<V>, k: string, v: V, k': string)
    ensures Get(Put(r, k, v), k') == if k' == k then Some(v) else Get(r, k')
  {
    if r != [] && r[0].0 != k {
      PutGet(r[1..], k, v, k');
      assert Put(r, k, v)[1..] == Put(r[1..], k, v);
    }
  }

  /** `r[k] = v` keeps the key order and appends a new key at the end; keys stay unique. */
  lemma {:induction false} PutKeys<V>(r: Record<V>, k: string, v: V)
    ensures Keys(Put(r, k, v)) == if k in Keys(r) then Keys(r) else Keys(r) + [k]
    ensures DistinctKeys(r) ==> DistinctKeys(Put(r, k, v))
  {
    if r != [] {
      var r' := Put(r, k, v);
      assert Keys(r) == [r[0].0] + Keys(r[1..]);
      assert Keys(r') == [r'[0].0] + Keys(r'[1..]);
      if r[0].0 != k {
        PutKeys(r[1..], k, v);
        assert r'[1..] == Put(r[1..], k, v);
        assert DistinctKeys(r) ==> r[0].0 !in Keys(r[1..]);
      } else {
        assert r'[1..] == r[1..];
      }
    }
  }

  /**
   * `pairs.forEach(([k, v]) => { r[k] = v; })` starting from `{}`: each pair
   * is written in turn, so a later pair with the same key overwrites an
   * earlier one in place.
   */
  function Collect<V>(pairs: seq<(string, V)>): Record<V> {
    if pairs == [] then []
    else
      var last := pairs[|pairs| - 1];
      Put(Collect(pairs[..|pairs| - 1]), last.0, last.1)
  }

  /** `pairs.forEach(([k, v]) => { r[k] = v; })` as a loop over a fresh object. */
  method CollectInto<V>(pairs: seq<(string, V)>) returns (r: Record<V>)
    ensures r == Collect(pairs)
  {
    r := [];
    var j := 0;
    while j < |pairs|
      invariant 0 <= j <= |pairs|
      invariant r == Collect(pairs[..j])
    {
      r := Put(r, pairs[j].0, pairs[j].1);
      assert pairs[..j + 1][..j] == pairs[..j];
      j := j + 1;
    }
    assert pairs[..j] == pairs;
  }

  /** The collected keys are the distinct keys of the pairs, in first-appearance order. */
  lemma {:induction false} CollectKeys<V>(pairs: seq<(string, V)>)
    ensures Keys(Collect(pairs)) == Distinct(Keys(pairs))
    ensures DistinctKeys(Collect(pairs))
  {
    if pairs != [] {
      var p := pairs[..|pairs| - 1];
      var last := pairs[|pairs| - 1];
      CollectKeys(p);
      PutKeys(Collect(p), last.0, last.1);
      assert Keys(pairs)[..|pairs| - 1] == Keys(p);
      assert Keys(pairs)[|pairs| - 1] == last.0;
    }
  }

  /** The value collected under a key is the one of the last pair with that key. */
  lemma {:induction false} CollectLastWins<V>(pairs: seq<(string, V)>, i: nat)
    requires i < |pairs|
    requires forall j :: i < j < |pairs| ==> pairs[j].0 != pairs[i].0
    ensures Get(Collect(pairs), pairs[i].0) == Some(pairs[i].1)
  {
    var p := pairs[..|pairs| - 1];
    var last := pairs[|pairs| - 1];
    PutGet(Collect(p), last.0, last.1, pairs[i].0);
    if i < |pairs| - 1 {
      CollectLastWins(p, i);
    }
  }

  /** `r[k] = v` adds no pair other than `(k, v)`. */
  lemma {:induction false} PutFrom<V>(r: Record<V>, k: string, v: V, p: (string, V))
    requires p in Put(r, k, v)
    ensures p in r || p == (k, v)
  {
    if r != [] && r[0].0 != k && p != r[0] {
      assert p in Put(r[1..], k, v);
      PutFrom(r[1..], k, v, p);
    }
  }

  /** Every collected pair is one of the input pairs. */
  lemma {:induction false} CollectFrom<V>(pairs: seq<(string, V)>, p: (string, V))
    requires p in Collect(pairs)
    ensures p in pairs
  {
    var q := pairs[..|pairs| - 1];
    var last := pairs[|pairs| - 1];
    PutFrom(Collect(q), last.0, last.1, p);
    if p in Collect(q) {
      CollectFrom(q, p);
    }
  }

  /** Collecting one more pair is one more assignment. */
  lemma CollectSnoc<V>(pairs: seq<(string, V)>, p: (string, V))
    ensures Collect(pairs + [p]) == Put(Collect(pairs), p.0, p.1)
  {
    assert (pairs + [p])[..|pairs|] == pairs;
  }

  /**
   * When every pair of the tail `b` with key `k` carries `v`, and there is one,
   * the collected object reads `v` at `k`, whatever `a` held for it.
   */
  lemma {:induction false} CollectUniformTail<V>(a: seq<(string, V)>, b: seq<(string, V)>, k: string, v: V)
    requires k in Keys(b)
    requires forall j :: 0 <= j < |b| && b[j].0 == k ==> b[j].1 == v
    ensures Get(Collect(a + b), k) == Some(v)
  {
    var b' := b[..|b| - 1];
    var last := b[|b| - 1];
    assert a + b == (a + b') + [last];
    CollectSnoc(a + b', last);
    PutGet(Collect(a + b'), last.0, last.1, k);
    if last.0 != k {
      var j :| 0 <= j < |b| && Keys(b)[j] == k;
      assert j < |b'|;
      assert b'[j] == b[j];
      assert Keys(b')[j] == k;
      CollectUniformTail(a, b', k, v);
    }
  }

  /** Concatenation is associative; stated once so callers need not rediscover it. */
  lemma AppendAssoc<T>(a: seq<T>, b: seq<T>, c: seq<T>)
    ensures a + (b + c) == (a + b) + c
  {
  }

  // ---------------------------------------------------------------- distinct

  /** No element occurs twice. */
  predicate NoDuplicates<T(==)>(s: seq<T>) {
    forall i, j :: 0 <= i < j < |s| ==> s[i] != s[j]
  }

  /** `[...new Set(s)]`: each element once, at the place of its first appearance. */
  function Distinct<T(==,!new)>(s: seq<T>): (d: seq<T>)
    ensures forall x :: x in d <==> x in s
    ensures NoDuplicates(d)
    ensures |d| <= |s|
  {
    if s == [] then []
    else
      var d := Distinct(s[..|s| - 1]);
      var x := s[|s| - 1];
      assert s == s[..|s| - 1] + [x];
      if x in s[..|s| - 1] then d else d + [x]
  }

  /** Adding an element to the set keeps it only when it is new. */
  lemma DistinctSnoc<T(!new)>(s: seq<T>, x: T)
    ensures Distinct(s + [x]) == if x in s then Distinct(s) else Distinct(s) + [x]
  {
    assert (s + [x])[..|s|] == s;
  }

  /** A sequence without repetitions is its own `Distinct`. */
  lemma {:induction false} DistinctOfNoDuplicates<T(!new)>(s: seq<T>)
    requires NoDuplicates(s)
    ensures Distinct(s) == s
  {
    if s != [] {
      var p := s[..|s| - 1];
      DistinctOfNoDuplicates(p);
      assert s == p + [s[|s| - 1]];
      DistinctSnoc(p, s[|s| - 1]);
    }
  }

  /** Index of the first occurrence of `x` in `s`. */
  function FirstIndex<T(==)>(s: seq<T>, x: T): (i: nat)
    requires x in s
    ensures i < |s| && s[i] == x && x !in s[..i]
  {
    if s[0] == x then 0
    else
      var j := FirstIndex(s[1..], x);
      assert s[..j + 1] == [s[0]] + s[1..][..j];
      1 + j
  }

  /**
   * `Distinct` keeps first-appearance order: an element listed earlier in
   * `Distinct(s)` first appears earlier in `s`.
   */
  lemma {:induction false} DistinctFirstAppearanceOrder<T(!new)>(s: seq<T>)
    ensures forall i, j :: 0 <= i < j < |Distinct(s)| ==>
      FirstIndex(s, Distinct(s)[i]) < FirstIndex(s, Distinct(s)[j])
  {
    if s != [] {
      var p := s[..|s| - 1];
      var x := s[|s| - 1];
      DistinctFirstAppearanceOrder(p);
      var d := Distinct(s);
      forall y | y in p ensures FirstIndex(s, y) == FirstIndex(p, y) {
        FirstIndexOfPrefix(p, s, y);
      }
      forall i, j | 0 <= i < j < |d| ensures FirstIndex(s, d[i]) < FirstIndex(s, d[j]) {
        assert d[i] in p;
        if j < |Distinct(p)| {
          assert d[j] == Distinct(p)[j];
        } else {
          assert d[j] == x && x !in p;
          assert FirstIndex(s, x) == |p| by {
            assert s[..|p|] == p;
          }
        }
      }
    }
  }

  lemma FirstIndexOfPrefix<T>(p: seq<T>, s: seq<T>, y: T)
    requires y in p && p <= s
    ensures FirstIndex(s, y) == FirstIndex(p, y)
  {
    var i := FirstIndex(p, y);
    var k := FirstIndex(s, y);
    assert s[..i] == p[..i];
  }

  // ---------------------------------------------------------------- sums

  /** `s.reduce((sum, x) => sum + x, 0)` over integers. */
  function Sum(s: seq<int>): int {
    if s == [] then 0 else Sum(s[..|s| - 1]) + s[|s| - 1]
  }

  /** `s.reduce((sum, x) => sum + x, 0)` over real numbers. */
  function SumReal(s: seq<real>): real {
    if s == [] then 0.0 else SumReal(s[..|s| - 1]) + s[|s| - 1]
  }

  /** Totals are additive over concatenation. */
  lemma {:induction false} SumAppend(a: seq<int>, b: seq<int>)
    ensures Sum(a + b) == Sum(a) + Sum(b)
    decreases |b|
  {
    if b != [] {
      var b' := b[..|b| - 1];
      assert (a + b)[..|a + b| - 1] == a + b';
      SumAppend(a, b');
    } else {
      assert a + b == a;
    }
  }

  /** A total of non-negative values bounds every value in it. */
  lemma {:induction false} SumBoundsElements(s: seq<int>, k: nat)
    requires forall i :: 0 <= i < |s| ==> s[i] >= 0
    requires k < |s|
    ensures 0 <= s[k] <= Sum(s)
  {
    var p := s[..|s| - 1];
    if k < |s| - 1 {
      SumBoundsElements(p, k);
    } else if p != [] {
      SumBoundsElements(p, 0);
    }
  }
}
