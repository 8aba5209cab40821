/**
 * The array operations the dashboard's JavaScript leans on — `filter`,
 * `filter(...).length`, `reduce` with `+`, `findIndex`, `Math.max(...)`,
 * `splice(i, 1)`, `slice(0, n)` — as functions on sequences, each with the
 * contract that says what the built-in promises.
 */
module Seqs {

  /** `r` is `s` with some elements left out and the rest in their order. */
  predicate IsSubsequence<T(==,!new)>(r: seq<T>, s: seq<T>)
    decreases |s|
  {
    if r == [] then true
    else if s == [] then false
    else if r[0] == s[0] then IsSubsequence(r[1..], s[1..])
    else IsSubsequence(r, s[1..])
  }

  /** `Array.prototype.filter`: the elements satisfying `p`, in order, each as often as in `s`. */
  function Filter<T(==,!new)>(s: seq<T>, p: T -> bool): (r: seq<T>)
    ensures |r| <= |s|
    ensures forall i :: 0 <= i < |r| ==> p(r[i])
    ensures forall x :: x in r <==> x in s && p(x)
    ensures forall x {:trigger multiset(r)[x]} :: multiset(r)[x] == if p(x) then multiset(s)[x] else 0
    ensures IsSubsequence(r, s)
  {
    if s == [] then []
    else
      var rest := Filter(s[1..], p);
      assert s == [s[0]] + s[1..];
      if p(s[0]) then
        var r := [s[0]] + rest;
        assert r[1..] == rest;
        r
      else
        assert rest != [] ==> rest[0] != s[0];
        rest
  }

  /** Filtering by a predicate every element satisfies changes nothing. */
  lemma {:induction false} FilterKeepsAll<T(!new)>(s: seq<T>, p: T -> bool)
    requires forall x :: x in s ==> p(x)
    ensures Filter(s, p) == s
  {
    if s != [] {
      FilterKeepsAll(s[1..], p);
      assert s == [s[0]] + s[1..];
    }
  }

  /** Two tests that agree on every element of `s` filter it alike. */
  lemma {:induction false} FilterSame<T(!new)>(s: seq<T>, p: T -> bool, q: T -> bool)
    requires forall x :: x in s ==> p(x) == q(x)
    ensures Filter(s, p) == Filter(s, q)
  {
    if s != [] {
      assert forall x :: x in s[1..] ==> x in s;
      FilterSame(s[1..], p, q);
      assert s[0] in s;
    }
  }

  /** Nothing passes a test that no element meets. */
  lemma {:induction false} FilterNone<T(!new)>(s: seq<T>, p: T -> bool)
    requires forall x :: x in s ==> !p(x)
    ensures Filter(s, p) == []
  {
    if s != [] {
      assert s[0] in s;
      FilterNone(s[1..], p);
    }
  }

  /** Filtering a sequence with a first element decides that element and filters the rest. */
  lemma FilterCons<T(!new)>(x: T, rest: seq<T>, p: T -> bool)
    ensures Filter([x] + rest, p) == (if p(x) then [x] else []) + Filter(rest, p)
  {
    assert ([x] + rest)[0] == x && ([x] + rest)[1..] == rest;
  }

  lemma ConcatAssoc<T>(a: seq<T>, b: seq<T>, c: seq<T>)
    ensures a + (b + c) == (a + b) + c
  {
  }

  /** Filtering a concatenation filters each part. */
  lemma {:induction false} FilterConcat<T(!new)>(s: seq<T>, t: seq<T>, p: T -> bool)
    ensures Filter(s + t, p) == Filter(s, p) + Filter(t, p)
  {
    if s == [] {
      assert s + t == t;
    } else {
      var head := if p(s[0]) then [s[0]] else [];
      assert s + t == [s[0]] + (s[1..] + t);
      assert s == [s[0]] + s[1..];
      FilterCons(s[0], s[1..] + t, p);
      FilterCons(s[0], s[1..], p);
      FilterConcat(s[1..], t, p);
      ConcatAssoc(head, Filter(s[1..], p), Filter(t, p));
    }
  }

  /** Filtering an extended sequence filters the old part and then the new element. */
  lemma {:induction false} FilterSnoc<T(!new)>(s: seq<T>, x: T, p: T -> bool)
    ensures Filter(s + [x], p) == Filter(s, p) + (if p(x) then [x] else [])
  {
    var t := s + [x];
    if s == [] {
      assert t == [x] && t[1..] == [];
    } else {
      assert t[0] == s[0] && t[1..] == s[1..] + [x];
      FilterSnoc(s[1..], x, p);
      var tail := Filter(s[1..], p);
      var last := if p(x) then [x] else [];
      if p(s[0]) {
        calc {
          Filter(t, p);
          [s[0]] + Filter(s[1..] + [x], p);
          [s[0]] + (tail + last);
          ([s[0]] + tail) + last;
          Filter(s, p) + last;
        }
      } else {
        calc {
          Filter(t, p);
          Filter(s[1..] + [x], p);
          tail + last;
          Filter(s, p) + last;
        }
      }
    }
  }

  /**
   * Filtering by a narrower predicate after a wider one is filtering by the
   * narrower one alone; so the narrower result is a subsequence of the wider.
   */
  lemma {:induction false} FilterNarrower<T(!new)>(s: seq<T>, p: T -> bool, q: T -> bool)
    requires forall x :: p(x) ==> q(x)
    ensures Filter(Filter(s, q), p) == Filter(s, p)
    ensures IsSubsequence(Filter(s, p), Filter(s, q))
  {
    if s != [] {
      FilterNarrower(s[1..], p, q);
      var wide := Filter(s, q);
      if q(s[0]) {
        assert wide[0] == s[0] && wide[1..] == Filter(s[1..], q);
      }
    }
  }

  /**
   * When every element satisfies exactly one of two predicates, the two
   * filters together have as many elements as the sequence.
   */
  lemma {:induction false} FilterSplit<T(!new)>(s: seq<T>, p: T -> bool, q: T -> bool)
    requires forall x :: x in s ==> p(x) != q(x)
    ensures |Filter(s, p)| + |Filter(s, q)| == |s|
  {
    if s != [] {
      assert s[0] in s;
      assert forall x :: x in s[1..] ==> x in s;
      FilterSplit(s[1..], p, q);
    }
  }

  /** `filter(p).length`. */
  function Count<T(==,!new)>(s: seq<T>, p: T -> bool): (n: nat)
    ensures n <= |s|
  {
    |Filter(s, p)|
  }

  /** Replacing one element changes a count by what the old and the new element contribute. */
  lemma {:induction false} CountUpdate<T(!new)>(s: seq<T>, i: int, x: T, p: T -> bool)
    requires 0 <= i < |s|
    ensures Count(s[i := x], p) == Count(s, p) - (if p(s[i]) then 1 else 0) + (if p(x) then 1 else 0)
  {
    var t := s[i := x];
    if i == 0 {
      assert t[0] == x && t[1..] == s[1..];
    } else {
      CountUpdate(s[1..], i - 1, x, p);
      assert t[0] == s[0] && t[1..] == s[1..][i - 1 := x];
    }
  }

  /** How many elements have `key` equal to `v`: `filter(x => x.key === v).length`. */
  function CountOf<T(==,!new), K(==,!new)>(s: seq<T>, key: T -> K, v: K): (n: nat)
    ensures n <= |s|
  {
    Count(s, KeyIs(key, v))
  }

  /** The test `x => key(x) === v`. */
  function KeyIs<T, K(==)>(key: T -> K, v: K): T -> bool
  {
    x => key(x) == v
  }

  lemma CountOfCons<T(!new), K(!new)>(x: T, t: seq<T>, key: T -> K, v: K)
    ensures CountOf([x] + t, key, v) == (if key(x) == v then 1 else 0) + CountOf(t, key, v)
  {
    assert ([x] + t)[0] == x;
    assert ([x] + t)[1..] == t;
  }

  /** The counts of `s` for each value in `vs`, added up. */
  function SumCounts<T(==,!new), K(==,!new)>(s: seq<T>, key: T -> K, vs: seq<K>): nat
  {
    if vs == [] then 0 else CountOf(s, key, vs[0]) + SumCounts(s, key, vs[1..])
  }

  predicate Distinct<K(==,!new)>(vs: seq<K>)
  {
    forall i, j :: 0 <= i < j < |vs| ==> vs[i] != vs[j]
  }

  lemma {:induction false} SumCountsEmpty<T(!new), K(!new)>(key: T -> K, vs: seq<K>)
    ensures SumCounts([], key, vs) == 0
  {
    if vs != [] {
      SumCountsEmpty(key, vs[1..]);
    }
  }

  lemma {:induction false} SumCountsCons<T(!new), K(!new)>(x: T, t: seq<T>, key: T -> K, vs: seq<K>)
    requires Distinct(vs)
    ensures SumCounts([x] + t, key, vs) == SumCounts(t, key, vs) + (if key(x) in vs then 1 else 0)
  {
    if vs != [] {
      CountOfCons(x, t, key, vs[0]);
      SumCountsCons(x, t, key, vs[1..]);
      assert key(x) == vs[0] ==> key(x) !in vs[1..];
      assert key(x) in vs <==> key(x) == vs[0] || key(x) in vs[1..];
    }
  }

  /**
   * When every element's key is one of the distinct values `vs`, the
   * per-value counts add up to the length: each element is counted once.
   */
  lemma {:induction false} CountsCoverAll<T(!new), K(!new)>(s: seq<T>, key: T -> K, vs: seq<K>)
    requires Distinct(vs)
    requires forall x :: x in s ==> key(x) in vs
    ensures SumCounts(s, key, vs) == |s|
  {
    if s == [] {
      SumCountsEmpty(key, vs);
    } else {
      assert s == [s[0]] + s[1..];
      CountsCoverAll(s[1..], key, vs);
      SumCountsCons(s[0], s[1..], key, vs);
    }
  }

  /** `reduce((sum, x) => sum + f(x), 0)`. */
  function Sum<T>(s: seq<T>, f: T -> int): int
  {
    if s == [] then 0 else f(s[0]) + Sum(s[1..], f)
  }

  lemma {:induction false} SumSnoc<T(!new)>(s: seq<T>, x: T, f: T -> int)
    ensures Sum(s + [x], f) == Sum(s, f) + f(x)
  {
    if s == [] {
      assert [x][1..] == [];
    } else {
      assert (s + [x])[0] == s[0];
      assert (s + [x])[1..] == s[1..] + [x];
      SumSnoc(s[1..], x, f);
    }
  }

  /** Summing over a filter is summing the summand masked by the test: `filter(p).reduce(f)`. */
  lemma {:induction false} SumFiltered<T(!new)>(s: seq<T>, p: T -> bool, f: T -> int, g: T -> int)
    requires forall x :: g(x) == if p(x) then f(x) else 0
    ensures Sum(Filter(s, p), f) == Sum(s, g)
  {
    if s != [] {
      SumFiltered(s[1..], p, f, g);
      var r := Filter(s, p);
      if p(s[0]) {
        assert r[0] == s[0] && r[1..] == Filter(s[1..], p);
      }
    }
  }

  /** A count is what its 0/1 indicator adds up to. */
  lemma {:induction false} CountIsSum<T(!new)>(s: seq<T>, p: T -> bool, one: T -> int)
    requires forall x :: one(x) == if p(x) then 1 else 0
    ensures Count(s, p) == Sum(s, one)
  {
    if s != [] {
      CountIsSum(s[1..], p, one);
    }
  }

  /** A sum splits over two disjoint filters when everything outside both adds nothing. */
  lemma {:induction false} SumOverFilters<T(!new)>(s: seq<T>, p: T -> bool, q: T -> bool, f: T -> int)
    requires forall x :: !(p(x) && q(x))
    requires forall x :: !p(x) && !q(x) ==> f(x) == 0
    ensures Sum(Filter(s, p), f) + Sum(Filter(s, q), f) == Sum(s, f)
  {
    if s != [] {
      SumOverFilters(s[1..], p, q, f);
      var fp, fq := Filter(s, p), Filter(s, q);
      if p(s[0]) {
        assert fp[0] == s[0] && fp[1..] == Filter(s[1..], p);
      } else if q(s[0]) {
        assert fq[0] == s[0] && fq[1..] == Filter(s[1..], q);
      }
    }
  }

  /** Negating every term negates the sum. */
  lemma {:induction false} SumNegated<T(!new)>(s: seq<T>, f: T -> int, g: T -> int)
    requires forall i :: 0 <= i < |s| ==> g(s[i]) == -f(s[i])
    ensures Sum(s, g) == -Sum(s, f)
  {
    if s != [] {
      SumNegated(s[1..], f, g);
    }
  }

  /** A sum is monotone in its summand. */
  lemma {:induction false} SumMonotone<T(!new)>(s: seq<T>, f: T -> int, g: T -> int)
    requires forall i :: 0 <= i < |s| ==> f(s[i]) <= g(s[i])
    ensures Sum(s, f) <= Sum(s, g)
  {
    if s != [] {
      SumMonotone(s[1..], f, g);
    }
  }

  /** A sum of non-negative terms is non-negative. */
  lemma {:induction false} SumNonNegative<T(!new)>(s: seq<T>, f: T -> int)
    requires forall i :: 0 <= i < |s| ==> 0 <= f(s[i])
    ensures 0 <= Sum(s, f)
  {
    if s != [] {
      SumNonNegative(s[1..], f);
    }
  }

  /** `map`. */
  function Map<T, U>(s: seq<T>, f: T -> U): (r: seq<U>)
    ensures |r| == |s|
    ensures forall i :: 0 <= i < |s| ==> r[i] == f(s[i])
  {
    seq(|s|, i requires 0 <= i < |s| => f(s[i]))
  }

  /** Mapping an extended sequence maps the old part and then the new element. */
  lemma MapSnoc<T, U>(s: seq<T>, x: T, f: T -> U)
    ensures Map(s + [x], f) == Map(s, f) + [f(x)]
  {
  }

  /** `findIndex`: the first position satisfying `p`, or -1. */
  function FirstIndex<T>(s: seq<T>, p: T -> bool): (i: int)
    ensures -1 <= i < |s|
    ensures i == -1 <==> forall j :: 0 <= j < |s| ==> !p(s[j])
    ensures 0 <= i ==> p(s[i]) && forall j :: 0 <= j < i ==> !p(s[j])
  {
    if s == [] then -1
    else if p(s[0]) then 0
    else
      var k := FirstIndex(s[1..], p);
      if k == -1 then -1 else k + 1
  }

  /** `Math.max(...s)`; on an empty array it is `-Infinity`, which has no integer model. */
  function Max(s: seq<int>): (m: int)
    requires |s| > 0
    ensures m in s
    ensures forall x :: x in s ==> x <= m
  {
    if |s| == 1 then s[0]
    else
      var m := Max(s[1..]);
      assert s == [s[0]] + s[1..];
      if s[0] < m then m else s[0]
  }

  /**
   * `Math.max(...s.map(id)) + 1`: one above the largest key, so it differs
   * from every key present.
   */
  function NextId<T>(s: seq<T>, id: T -> int): (n: int)
    requires |s| > 0
    ensures forall i :: 0 <= i < |s| ==> id(s[i]) < n
    ensures exists i :: 0 <= i < |s| && id(s[i]) == n - 1
  {
    var ids := Map(s, id);
    assert forall i :: 0 <= i < |s| ==> ids[i] in ids;
    Max(ids) + 1
  }

  /** `splice(i, 1)`: drop the element at `i`, keep the rest in order. */
  function RemoveAt<T>(s: seq<T>, i: int): (r: seq<T>)
    requires 0 <= i < |s|
    ensures |r| == |s| - 1
    ensures forall j :: 0 <= j < i ==> r[j] == s[j]
    ensures forall j :: i <= j < |r| ==> r[j] == s[j + 1]
  {
    s[..i] + s[i + 1..]
  }

  /** `splice(i, 1)` removes exactly one copy of the element at `i`. */
  lemma RemoveAtMultiset<T>(s: seq<T>, i: int)
    requires 0 <= i < |s|
    ensures multiset(RemoveAt(s, i)) + multiset{s[i]} == multiset(s)
  {
    assert s == s[..i] + [s[i]] + s[i + 1..];
  }

  /** `slice(0, n)`. */
  function Take<T>(s: seq<T>, n: nat): (r: seq<T>)
    ensures |r| == if n < |s| then n else |s|
    ensures forall i :: 0 <= i < |r| ==> r[i] == s[i]
  {
    if n < |s| then s[..n] else s
  }

  /**
   * The distinct keys of `s` in order of first appearance. Only the set of
   * keys matters to the tallies: a JS object would list integer-like keys
   * in ascending order, which the maps of this model do not record.
   */
  function Keys<T, K(==,!new)>(s: seq<T>, key: T -> K): (ks: seq<K>)
    ensures Distinct(ks)
    ensures forall k :: k in ks <==> exists i :: 0 <= i < |s| && key(s[i]) == k
  {
    if s == [] then []
    else
      var init := s[..|s| - 1];
      var ks := Keys(init, key);
      var k := key(s[|s| - 1]);
      assert forall i :: 0 <= i < |init| ==> init[i] == s[i];
      if k in ks then ks else ks + [k]
  }

  /**
   * The object a `forEach` builds with `tally[key] = (tally[key] || 0) + 1`,
   * one element at a time from the front.
   */
  function Tally<T, K>(s: seq<T>, key: T -> K): map<K, nat>
  {
    if s == [] then map[]
    else
      var m := Tally(s[..|s| - 1], key);
      var k := key(s[|s| - 1]);
      m[k := (if k in m then m[k] else 0) + 1]
  }

  /** Tallying one more element bumps the count of its key. */
  lemma TallySnoc<T, K>(s: seq<T>, x: T, key: T -> K)
    ensures Tally(s + [x], key) ==
      Tally(s, key)[key(x) := (if key(x) in Tally(s, key) then Tally(s, key)[key(x)] else 0) + 1]
  {
    assert (s + [x])[..|s|] == s;
  }

  /** A tally has exactly the keys that occur and counts each one's occurrences. */
  lemma {:induction false} TallyCounts<T(!new), K(!new)>(s: seq<T>, key: T -> K)
    ensures forall k :: k in Tally(s, key) <==> k in Keys(s, key)
    ensures forall k :: k in Tally(s, key) ==> Tally(s, key)[k] == CountOf(s, key, k)
  {
    if s != [] {
      var init, x := s[..|s| - 1], s[|s| - 1];
      assert s == init + [x];
      TallyCounts(init, key);
      forall k | k in Tally(s, key)
        ensures Tally(s, key)[k] == CountOf(s, key, k)
      {
        FilterSnoc(init, x, y => key(y) == k);
        if k != key(x) {
          assert k in Keys(init, key);
        }
      }
    }
  }

  /** The values of `m` at the keys `ks` (absent keys as 0), added up. */
  function SumAt<K>(m: map<K, nat>, ks: seq<K>): nat
  {
    if ks == [] then 0 else (if ks[0] in m then m[ks[0]] else 0) + SumAt(m, ks[1..])
  }

  lemma {:induction false} SumAtTally<T(!new), K(!new)>(s: seq<T>, key: T -> K, ks: seq<K>)
    requires forall k :: k in ks ==> k in Keys(s, key)
    ensures SumAt(Tally(s, key), ks) == SumCounts(s, key, ks)
  {
    TallyCounts(s, key);
    if ks != [] {
      SumAtTally(s, key, ks[1..]);
    }
  }

  /** The entries of a tally add up to the number of elements tallied. */
  lemma TallyTotal<T(!new), K(!new)>(s: seq<T>, key: T -> K)
    ensures SumAt(Tally(s, key), Keys(s, key)) == |s|
  {
    TallyCounts(s, key);
    SumAtTally(s, key, Keys(s, key));
    CountsCoverAll(s, key, Keys(s, key));
  }
}
