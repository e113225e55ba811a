/**
 * Grouping a sequence by a key, as a loop that pushes every element onto the list filed
 * under its key: the groups, the order in which they are created, and what each holds.
 */
module Grouping {
  import Ordering

  /** The elements of `s` whose key is `k`, in order. */
  function Group<T, K(==)>(s: seq<T>, key: T -> K, k: K): seq<T> {
    if s == [] then []
    else
      var init := Group(s[..|s| - 1], key, k);
      if key(s[|s| - 1]) == k then init + [s[|s| - 1]] else init
  }

  /** The keys of `s` in the order their groups are created: first occurrence first. */
  function KeyOrder<T, K(==)>(s: seq<T>, key: T -> K): seq<K> {
    if s == [] then []
    else
      var init := KeyOrder(s[..|s| - 1], key);
      var k := key(s[|s| - 1]);
      if k in init then init else init + [k]
  }

  /** Every element lands in the group of its own key, as often as it occurs, and in no other group. */
  lemma {:induction false} GroupCount<T, K>(s: seq<T>, key: T -> K, k: K, x: T)
    ensures multiset(Group(s, key, k))[x] == if key(x) == k then multiset(s)[x] else 0
    decreases |s|
  {
    if s != [] {
      var init := s[..|s| - 1];
      GroupCount(init, key, k, x);
      assert s == init + [s[|s| - 1]];
    }
  }

  /** The group keys are distinct and are exactly the keys of the elements. */
  lemma {:induction false} KeyOrderFacts<T, K>(s: seq<T>, key: T -> K)
    ensures Ordering.Distinct(KeyOrder(s, key))
    ensures forall k :: k in KeyOrder(s, key) <==> exists x :: x in s && key(x) == k
    decreases |s|
  {
    if s != [] {
      var init := s[..|s| - 1];
      var last := s[|s| - 1];
      KeyOrderFacts(init, key);
      assert s == init + [last];
      forall k ensures k in KeyOrder(s, key) <==> exists x :: x in s && key(x) == k {
        if k in KeyOrder(s, key) && k != key(last) {
          var x :| x in init && key(x) == k;
          assert x in s;
        }
        if exists x :: x in s && key(x) == k {
          var x :| x in s && key(x) == k;
          if x != last {
            assert x in init;
          }
        }
      }
    }
  }

  /** Pushing one more element extends its own group and leaves the other groups as they were. */
  lemma GroupSnoc<T, K>(s: seq<T>, x: T, key: T -> K, k: K)
    ensures Group(s + [x], key, k) == Group(s, key, k) + (if key(x) == k then [x] else [])
    ensures KeyOrder(s + [x], key) == KeyOrder(s, key) + (if key(x) in KeyOrder(s, key) then [] else [key(x)])
  {
    assert (s + [x])[..|s + [x]| - 1] == s;
  }

  /** A key that no element has has an empty group. */
  lemma {:induction false} GroupOfAbsentKey<T, K>(s: seq<T>, key: T -> K, k: K)
    requires k !in KeyOrder(s, key)
    ensures Group(s, key, k) == []
    decreases |s|
  {
    if s != [] {
      GroupOfAbsentKey(s[..|s| - 1], key, k);
    }
  }

  /**
   * The loop that files every element of `s` under its key: a group is created the first
   * time its key is met, and every element is pushed onto the group of its key.
   */
  method GroupBy<T, K(==)>(s: seq<T>, key: T -> K) returns (groups: map<K, seq<T>>, keys: seq<K>)
    ensures keys == KeyOrder(s, key)
    ensures forall k :: k in groups <==> k in keys
    ensures forall k :: k in groups ==> groups[k] == Group(s, key, k)
  {
    groups := map[];
    keys := [];
    for i := 0 to |s|
      invariant keys == KeyOrder(s[..i], key)
      invariant forall k :: k in groups <==> k in keys
      invariant forall k :: k in groups ==> groups[k] == Group(s[..i], key, k)
    {
      var x := s[i];
      assert s[..i + 1] == s[..i] + [x];
      forall k {
        GroupSnoc(s[..i], x, key, k);
      }
      var k := key(x);
      if k !in groups {
        GroupOfAbsentKey(s[..i], key, k);
        groups := groups[k := []];
        keys := keys + [k];
      }
      groups := groups[k := groups[k] + [x]];
    }
    assert s[..|s|] == s;
  }
}
