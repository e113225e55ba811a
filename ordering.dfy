/**
 * The orderings the hosted store applies to query results (`order(column)`), modelled as a
 * stable insertion sort by an integer key, together with `limit(n)`.
 */
module Ordering {

  /** `s` is in non-decreasing order of `key`. */
  ghost predicate SortedBy<T>(s: seq<T>, key: T -> int) {
    forall i, j :: 0 <= i < j < |s| ==> key(s[i]) <= key(s[j])
  }

  /** No element occurs twice in `s`. */
  ghost predicate Distinct<T>(s: seq<T>) {
    forall i, j :: 0 <= i < j < |s| ==> s[i] != s[j]
  }

  /** Inserts `x` before the first element of `s` whose key is not smaller than its own. */
  function Insert<T>(x: T, s: seq<T>, key: T -> int): (r: seq<T>)
    ensures |r| == |s| + 1
  {
    if s == [] || key(x) <= key(s[0]) then [x] + s
    else [s[0]] + Insert(x, s[1..], key)
  }

  /** An element no greater than the head of a sorted sequence can be put in front of it. */
  lemma SortedCons<T>(h: T, t: seq<T>, key: T -> int)
    requires SortedBy(t, key)
    requires t == [] || key(h) <= key(t[0])
    ensures SortedBy([h] + t, key)
  {
    var r := [h] + t;
    forall i, j | 0 <= i < j < |r| ensures key(r[i]) <= key(r[j]) {
      assert r[j] == t[j - 1];
      if i > 0 {
        assert r[i] == t[i - 1];
      }
    }
  }

  /** Inserting into a sorted sequence keeps it sorted; the result starts with `x` or with the old head. */
  lemma {:induction false} InsertKeepsOrder<T>(x: T, s: seq<T>, key: T -> int)
    requires SortedBy(s, key)
    ensures SortedBy(Insert(x, s, key), key)
    ensures Insert(x, s, key)[0] == x || (s != [] && Insert(x, s, key)[0] == s[0])
    decreases |s|
  {
    if s == [] || key(x) <= key(s[0]) {
      SortedCons(x, s, key);
    } else {
      var tail := Insert(x, s[1..], key);
      assert SortedBy(s[1..], key);
      InsertKeepsOrder(x, s[1..], key);
      assert key(s[0]) <= key(tail[0]);
      SortedCons(s[0], tail, key);
    }
  }

  /** Inserting adds the one element and loses none. */
  lemma {:induction false} InsertAdds<T>(x: T, s: seq<T>, key: T -> int)
    ensures multiset(Insert(x, s, key)) == multiset(s) + multiset{x}
    decreases |s|
  {
    if s != [] && key(x) > key(s[0]) {
      InsertAdds(x, s[1..], key);
      assert s == [s[0]] + s[1..];
    }
  }

  /** `s` ordered by `key` (ascending); elements with equal keys keep their relative order. */
  function SortBy<T>(s: seq<T>, key: T -> int): (r: seq<T>)
    ensures |r| == |s|
  {
    if s == [] then [] else Insert(s[0], SortBy(s[1..], key), key)
  }

  /** The sorted sequence is in order of `key` and is a rearrangement of the input. */
  lemma {:induction false} SortByOrders<T>(s: seq<T>, key: T -> int)
    ensures SortedBy(SortBy(s, key), key)
    ensures multiset(SortBy(s, key)) == multiset(s)
    decreases |s|
  {
    if s != [] {
      SortByOrders(s[1..], key);
      InsertKeepsOrder(s[0], SortBy(s[1..], key), key);
      InsertAdds(s[0], SortBy(s[1..], key), key);
      assert s == [s[0]] + s[1..];
    }
  }

  /** Inserting before the first element whose key is not smaller puts `x` at that position. */
  lemma {:induction false} InsertAt<T>(x: T, s: seq<T>, key: T -> int, m: nat)
    requires m <= |s|
    requires forall k :: 0 <= k < m ==> key(s[k]) < key(x)
    requires m == |s| || key(x) <= key(s[m])
    ensures Insert(x, s, key) == s[..m] + [x] + s[m..]
    decreases m
  {
    if m == 0 {
      assert s[..0] + [x] + s[0..] == [x] + s;
    } else {
      var t := s[1..];
      assert key(s[0]) < key(x);
      assert forall k :: 0 <= k < m - 1 ==> key(t[k]) < key(x) by {
        forall k | 0 <= k < m - 1 ensures key(t[k]) < key(x) {
          assert t[k] == s[k + 1];
        }
      }
      assert m - 1 < |t| ==> t[m - 1] == s[m];
      InsertAt(x, t, key, m - 1);
      var r := [s[0]] + (t[..m - 1] + [x] + t[m - 1..]);
      assert Insert(x, s, key) == r;
      forall k | 0 <= k < |r| ensures r[k] == (s[..m] + [x] + s[m..])[k] {
        if k == 0 {
        } else if k < m {
          assert r[k] == t[k - 1];
        } else if k > m {
          assert r[k] == t[k - 2];
        }
      }
    }
  }

  /** Sorting a sequence that is already in order leaves it as it is. */
  lemma {:induction false} SortSortedIsIdentity<T>(s: seq<T>, key: T -> int)
    requires SortedBy(s, key)
    ensures SortBy(s, key) == s
    decreases |s|
  {
    if s != [] {
      SortSortedIsIdentity(s[1..], key);
      assert s == [s[0]] + s[1..];
    }
  }

  /**
   * `a.sort((x, y) => key(x) - key(y))`: sorts the array in place. The sort is stable, so the
   * result is the one order by `key` that keeps elements with equal keys in their old order.
   */
  method SortInPlace<T>(a: array<T>, key: T -> int)
    modifies a
    ensures a[..] == SortBy(old(a[..]), key)
  {
    ghost var s := a[..];
    var i := a.Length;
    while i > 0
      invariant 0 <= i <= a.Length
      invariant a[..i] == s[..i]
      invariant a[i..] == SortBy(s[i..], key)
    {
      i := i - 1;
      assert s[i..] == [s[i]] + s[i + 1..];
      assert a[i] == s[i];
      InsertDown(a, i, key);
    }
    assert a[..] == a[0..];
    assert s == s[0..];
  }

  /** One step of the sort: moves `a[i]` into the sorted part `a[i+1..]`, shifting smaller elements down. */
  method InsertDown<T>(a: array<T>, i: nat, key: T -> int)
    requires i < a.Length
    modifies a
    ensures a[..i] == old(a[..i])
    ensures a[i..] == Insert(old(a[i]), old(a[i + 1..]), key)
  {
    var x := a[i];
    ghost var t := a[i + 1..];
    var j := i;
    while j + 1 < a.Length && key(a[j + 1]) < key(x)
      invariant i <= j < a.Length
      invariant forall k :: 0 <= k < i ==> a[k] == old(a[k])
      invariant forall k :: i <= k < j ==> a[k] == old(a[k + 1])
      invariant forall k :: j < k < a.Length ==> a[k] == old(a[k])
      invariant forall k :: i < k <= j ==> key(old(a[k])) < key(x)
    {
      a[j] := a[j + 1];
      j := j + 1;
    }
    a[j] := x;
    var m := j - i;
    assert forall k :: 0 <= k < m ==> key(t[k]) < key(x);
    InsertAt(x, t, key, m);
    ghost var r := t[..m] + [x] + t[m..];
    forall k | 0 <= k < |r| ensures a[i..][k] == r[k] {
      if k < m {
        assert r[k] == t[k];
      } else if k > m {
        assert r[k] == t[k - 1];
      }
    }
    assert a[i..] == r;
  }

  /** In a sorted sequence, nothing before a cut has a greater key than anything after it. */
  lemma SortedCut<T>(s: seq<T>, key: T -> int, cut: nat)
    requires SortedBy(s, key) && cut <= |s|
    ensures forall x, y :: x in s[..cut] && y in s[cut..] ==> key(x) <= key(y)
  {
    forall x, y | x in s[..cut] && y in s[cut..] ensures key(x) <= key(y) {
      var i :| 0 <= i < cut && s[..cut][i] == x;
      var j :| 0 <= j < |s| - cut && s[cut..][j] == y;
      assert s[i] == x && s[cut + j] == y;
    }
  }

  /** The identity, as the key of a sort of integers (`(a, b) => a - b`). */
  function Id(k: int): int {
    k
  }

  /** `limit(n)`: the first `n` elements, or all of them when there are fewer. */
  function Take<T>(s: seq<T>, n: nat): (r: seq<T>)
    ensures |r| == if |s| < n then |s| else n
    ensures r == s[..|r|]
  {
    if |s| <= n then s else s[..n]
  }

  /**
   * The first `n` of a sorted sequence (`order(...).limit(n)`): they come from `s`, they are in
   * order, and nothing of `s` left out has a smaller key than one kept.
   */
  lemma {:induction false} TakeOfSortIsSmallest<T>(s: seq<T>, key: T -> int, n: nat)
    ensures var r := Take(SortBy(s, key), n);
      && (forall x :: x in r ==> x in s)
      && SortedBy(r, key)
      && (forall x, y :: x in s && x !in r && y in r ==> key(y) <= key(x))
  {
    var sorted := SortBy(s, key);
    var r := Take(sorted, n);
    SortByOrders(s, key);
    forall x | x in r ensures x in s {
      assert x in multiset(sorted);
    }
    forall x, y | x in s && x !in r && y in r ensures key(y) <= key(x) {
      assert x in multiset(sorted);
      var j :| 0 <= j < |sorted| && sorted[j] == x;
      var i :| 0 <= i < |r| && r[i] == y;
      assert sorted[i] == y;
    }
  }

  lemma {:induction false} DistinctCount<T>(s: seq<T>, v: T)
    requires Distinct(s)
    ensures multiset(s)[v] <= 1
    decreases |s|
  {
    if s != [] {
      assert s == [s[0]] + s[1..];
      assert Distinct(s[1..]);
      DistinctCount(s[1..], v);
      if v == s[0] {
        assert v !in s[1..];
      }
    }
  }

  lemma {:induction false} RepeatCount<T>(s: seq<T>, i: nat, j: nat)
    requires i < j < |s| && s[i] == s[j]
    ensures multiset(s)[s[i]] >= 2
  {
    assert s == s[..j] + [s[j]] + s[j + 1..];
    assert s[i] in s[..j];
    assert multiset(s) == multiset(s[..j]) + multiset{s[j]} + multiset(s[j + 1..]);
  }

  /** A rearrangement of a duplicate-free sequence is duplicate-free. */
  lemma {:induction false} DistinctPermutation<T>(s: seq<T>, r: seq<T>)
    requires Distinct(s) && multiset(r) == multiset(s)
    ensures Distinct(r)
  {
    forall i, j | 0 <= i < j < |r| ensures r[i] != r[j] {
      if r[i] == r[j] {
        RepeatCount(r, i, j);
        DistinctCount(s, r[i]);
      }
    }
  }

  /** Sorting a duplicate-free sequence of integers orders it strictly ascending. */
  lemma {:induction false} SortDistinctIsStrict(s: seq<int>)
    requires Distinct(s)
    ensures var r := SortBy(s, Id);
      forall i, j :: 0 <= i < j < |r| ==> r[i] < r[j]
  {
    var r := SortBy(s, Id);
    SortByOrders(s, Id);
    DistinctPermutation(s, r);
  }
}
