/**
 * Descending, stable ordering by an integer key: what `sort((a, b) => key(b) - key(a))`
 * does in the dashboards. Stated once as a function on sequences (used where the source
 * sorts a fresh copy) and once as an in-place method on an array (used where the source
 * sorts a shared array).
 */
module Ranking {

  /** No element is ranked above one with a larger key. */
  ghost predicate SortedDesc<T>(s: seq<T>, key: T -> int) {
    forall i, j :: 0 <= i < j < |s| ==> key(s[i]) >= key(s[j])
  }

  /** Places `x` in front of the first element whose key does not exceed its own. */
  function Insert<T>(x: T, s: seq<T>, key: T -> int): (r: seq<T>)
    ensures multiset(r) == multiset(s) + multiset{x}
  {
    if s == [] || key(s[0]) <= key(x) then [x] + s
    else
      assert s == [s[0]] + s[1..];
      [s[0]] + Insert(x, s[1..], key)
  }

  /** An element no smaller than everything in a ranking can lead it. */
  lemma SortedCons<T>(y: T, s: seq<T>, key: T -> int)
    requires SortedDesc(s, key)
    requires forall i :: 0 <= i < |s| ==> key(y) >= key(s[i])
    ensures SortedDesc([y] + s, key)
  {
    var r := [y] + s;
    forall i, j | 0 <= i < j < |r| ensures key(r[i]) >= key(r[j]) {
      assert r[j] == s[j - 1];
      if i > 0 {
        assert r[i] == s[i - 1];
      }
    }
  }

  /** Inserting into a ranking yields a ranking. */
  lemma {:induction false} InsertSorted<T>(x: T, s: seq<T>, key: T -> int)
    requires SortedDesc(s, key)
    ensures SortedDesc(Insert(x, s, key), key)
  {
    if s == [] || key(s[0]) <= key(x) {
      SortedCons(x, s, key);
    } else {
      InsertSorted(x, s[1..], key);
      var rest := Insert(x, s[1..], key);
      forall i | 0 <= i < |rest| ensures key(s[0]) >= key(rest[i]) {
        var y := rest[i];
        assert y in multiset(rest);
        if y != x {
          assert y in multiset(s[1..]);
          var k :| 0 <= k < |s[1..]| && s[1..][k] == y;
          assert s[k + 1] == y;
        }
      }
      SortedCons(s[0], rest, key);
    }
  }

  /** The elements of `s` whose key is `v`, in their order in `s`. */
  function WithKey<T>(s: seq<T>, key: T -> int, v: int): seq<T> {
    if s == [] then []
    else (if key(s[0]) == v then [s[0]] else []) + WithKey(s[1..], key, v)
  }

  /** Everything picked out for key `v` comes from `s` and has key `v`. */
  lemma {:induction false} WithKeyMembers<T>(s: seq<T>, key: T -> int, v: int, x: T)
    requires x in WithKey(s, key, v)
    ensures x in s && key(x) == v
  {
    if s != [] && !(key(s[0]) == v && x == s[0]) {
      assert x in WithKey(s[1..], key, v);
      WithKeyMembers(s[1..], key, v, x);
      assert s == [s[0]] + s[1..];
    }
  }

  lemma WithKeyCons<T>(s: seq<T>, key: T -> int, v: int)
    requires s != []
    ensures WithKey(s, key, v) == (if key(s[0]) == v then [s[0]] else []) + WithKey(s[1..], key, v)
  {
  }

  lemma {:induction false} WithKeyAppend<T>(a: seq<T>, b: seq<T>, key: T -> int, v: int)
    ensures WithKey(a + b, key, v) == WithKey(a, key, v) + WithKey(b, key, v)
  {
    if a == [] {
      assert a + b == b;
    } else {
      assert (a + b)[1..] == a[1..] + b;
      WithKeyAppend(a[1..], b, key, v);
      WithKeyCons(a + b, key, v);
      WithKeyCons(a, key, v);
      var h := if key(a[0]) == v then [a[0]] else [];
      assert h + (WithKey(a[1..], key, v) + WithKey(b, key, v)) == (h + WithKey(a[1..], key, v)) + WithKey(b, key, v);
    }
  }

  /** `Insert` puts `x` ahead of the elements with its key and moves nothing else. */
  lemma {:induction false} InsertTies<T>(x: T, s: seq<T>, key: T -> int, v: int)
    ensures WithKey(Insert(x, s, key), key, v) == (if key(x) == v then [x] else []) + WithKey(s, key, v)
  {
    if s == [] || key(s[0]) <= key(x) {
      assert Insert(x, s, key) == [x] + s;
      assert ([x] + s)[1..] == s;
      WithKeyCons([x] + s, key, v);
    } else {
      var rest := Insert(x, s[1..], key);
      assert Insert(x, s, key) == [s[0]] + rest;
      InsertTies(x, s[1..], key, v);
      assert ([s[0]] + rest)[1..] == rest;
      WithKeyCons([s[0]] + rest, key, v);
      WithKeyCons(s, key, v);
    }
  }

  /**
   * A stable insertion sort by non-increasing key: elements with equal keys keep the order
   * they had in `s`.
   */
  function SortDesc<T>(s: seq<T>, key: T -> int): (r: seq<T>)
    ensures multiset(r) == multiset(s)
    ensures SortedDesc(r, key)
    ensures forall v :: WithKey(r, key, v) == WithKey(s, key, v)
  {
    if s == [] then []
    else
      assert s == [s[0]] + s[1..];
      var rest := SortDesc(s[1..], key);
      InsertSorted(s[0], rest, key);
      assert forall v :: WithKey(Insert(s[0], rest, key), key, v) == WithKey(s, key, v) by {
        forall v ensures WithKey(Insert(s[0], rest, key), key, v) == WithKey(s, key, v) {
          InsertTies(s[0], rest, key, v);
        }
      }
      Insert(s[0], rest, key)
  }

  /** The leader of a ranking has the largest key. */
  lemma HeadIsMax<T>(r: seq<T>, key: T -> int, x: T)
    requires SortedDesc(r, key) && x in r
    ensures key(x) <= key(r[0])
  {
    var i :| 0 <= i < |r| && r[i] == x;
    if i > 0 {
      assert key(r[0]) >= key(r[i]);
    }
  }

  /** Two rankings that agree on the ties of every key have the same leader. */
  lemma SameLeader<T>(r1: seq<T>, r2: seq<T>, key: T -> int)
    requires r1 != [] && r2 != []
    requires SortedDesc(r1, key) && SortedDesc(r2, key)
    requires forall v :: WithKey(r1, key, v) == WithKey(r2, key, v)
    ensures r1[0] == r2[0]
  {
    var m1, m2 := key(r1[0]), key(r2[0]);
    WithKeyCons(r1, key, m1);
    WithKeyMembers(r2, key, m1, r1[0]);
    HeadIsMax(r2, key, r1[0]);
    WithKeyCons(r2, key, m2);
    WithKeyMembers(r1, key, m2, r2[0]);
    HeadIsMax(r1, key, r2[0]);
    assert WithKey(r1, key, m1)[0] == r1[0];
    assert WithKey(r2, key, m1)[0] == r2[0];
  }

  /** Dropping a common leader keeps the ties of every key in agreement. */
  lemma TailsTie<T>(r1: seq<T>, r2: seq<T>, key: T -> int)
    requires r1 != [] && r2 != [] && r1[0] == r2[0]
    requires forall v :: WithKey(r1, key, v) == WithKey(r2, key, v)
    ensures forall v :: WithKey(r1[1..], key, v) == WithKey(r2[1..], key, v)
  {
    forall v ensures WithKey(r1[1..], key, v) == WithKey(r2[1..], key, v) {
      WithKeyCons(r1, key, v);
      WithKeyCons(r2, key, v);
      var h := if key(r1[0]) == v then [r1[0]] else [];
      assert (h + WithKey(r1[1..], key, v))[|h|..] == WithKey(r1[1..], key, v);
      assert (h + WithKey(r2[1..], key, v))[|h|..] == WithKey(r2[1..], key, v);
    }
  }

  lemma TailsSameElements<T>(r1: seq<T>, r2: seq<T>)
    requires r1 != [] && r2 != [] && r1[0] == r2[0] && multiset(r1) == multiset(r2)
    ensures multiset(r1[1..]) == multiset(r2[1..])
  {
    assert r1 == [r1[0]] + r1[1..] && r2 == [r2[0]] + r2[1..];
    forall x ensures multiset(r1[1..])[x] == multiset(r2[1..])[x] {
      assert multiset(r1)[x] == multiset([r1[0]])[x] + multiset(r1[1..])[x];
      assert multiset(r2)[x] == multiset([r2[0]])[x] + multiset(r2[1..])[x];
    }
  }

  /**
   * Two rankings of the same elements that list the elements of each key in the same order
   * are equal: order plus stability pin down the result of a sort completely.
   */
  lemma {:induction false} TiesDetermineRanking<T>(r1: seq<T>, r2: seq<T>, key: T -> int)
    requires SortedDesc(r1, key) && SortedDesc(r2, key)
    requires multiset(r1) == multiset(r2)
    requires forall v :: WithKey(r1, key, v) == WithKey(r2, key, v)
    ensures r1 == r2
    decreases |r1|
  {
    assert |r1| == |multiset(r1)| == |multiset(r2)| == |r2|;
    if r1 != [] {
      SameLeader(r1, r2, key);
      TailsTie(r1, r2, key);
      TailsSameElements(r1, r2);
      TiesDetermineRanking(r1[1..], r2[1..], key);
      assert r1 == [r1[0]] + r1[1..] && r2 == [r2[0]] + r2[1..];
    }
  }

  /** A prefix of a ranking is still a ranking. */
  lemma PrefixSorted<T>(s: seq<T>, n: nat, key: T -> int)
    requires n <= |s| && SortedDesc(s, key)
    ensures SortedDesc(s[..n], key)
  {
  }

  lemma WithKeyPair<T>(p: T, q: T, key: T -> int, v: int)
    ensures WithKey([p, q], key, v) == (if key(p) == v then [p] else []) + (if key(q) == v then [q] else [])
  {
    assert [p, q][1..] == [q];
    WithKeyCons([p, q], key, v);
    assert [q][1..] == [];
    WithKeyCons([q], key, v);
    var hq := if key(q) == v then [q] else [];
    assert hq + [] == hq;
  }

  /** The elements with key `v` of a list with a pair spliced in the middle. */
  lemma WithKeySplice<T>(front: seq<T>, x: T, y: T, back: seq<T>, key: T -> int, v: int)
    ensures WithKey(front + [x, y] + back, key, v) == WithKey(front, key, v) + WithKey([x, y], key, v) + WithKey(back, key, v)
  {
    WithKeyAppend(front + [x, y], back, key, v);
    WithKeyAppend(front, [x, y], key, v);
  }

  /** Exchanging neighbours with different keys keeps the order within every key. */
  lemma SwapTies<T>(s: seq<T>, j: nat, key: T -> int)
    requires 0 < j < |s| && key(s[j - 1]) != key(s[j])
    ensures forall v :: WithKey(s[j - 1 := s[j]][j := s[j - 1]], key, v) == WithKey(s, key, v)
  {
    forall v ensures WithKey(s[j - 1 := s[j]][j := s[j - 1]], key, v) == WithKey(s, key, v) {
      SwapTiesAt(s, j, key, v);
    }
  }

  lemma SwapTiesAt<T>(s: seq<T>, j: nat, key: T -> int, v: int)
    requires 0 < j < |s| && key(s[j - 1]) != key(s[j])
    ensures WithKey(s[j - 1 := s[j]][j := s[j - 1]], key, v) == WithKey(s, key, v)
  {
    var x, y := s[j - 1], s[j];
    var front, back := s[..j - 1], s[j + 1..];
    assert s == front + [x, y] + back;
    assert s[j - 1 := y][j := x] == front + [y, x] + back;
    WithKeySplice(front, x, y, back, key, v);
    WithKeySplice(front, y, x, back, key, v);
    WithKeyPair(x, y, key, v);
    WithKeyPair(y, x, key, v);
  }

  /**
   * Exchanges two neighbouring elements of `a` whose keys differ, which keeps the order within
   * every key.
   */
  method SwapDown<T>(a: array<T>, j: nat, key: T -> int)
    requires 0 < j < a.Length && key(a[j - 1]) != key(a[j])
    modifies a
    ensures a[..] == old(a[..])[j - 1 := old(a[j])][j := old(a[j - 1])]
    ensures multiset(a[..]) == old(multiset(a[..]))
    ensures forall v :: WithKey(a[..], key, v) == WithKey(old(a[..]), key, v)
  {
    SwapTies(a[..], j, key);
    a[j - 1], a[j] := a[j], a[j - 1];
  }

  /** Sorts `a` in place by non-increasing key, moving an element only past smaller keys. */
  method SortDescInPlace<T>(a: array<T>, key: T -> int)
    modifies a
    ensures SortedDesc(a[..], key)
    ensures multiset(a[..]) == old(multiset(a[..]))
    ensures forall v :: WithKey(a[..], key, v) == WithKey(old(a[..]), key, v)
    ensures a[..] == SortDesc(old(a[..]), key)
  {
    if a.Length == 0 {
      return;
    }
    var i := 1;
    while i < a.Length
      invariant 1 <= i <= a.Length
      invariant forall p, q :: 0 <= p < q < i ==> key(a[p]) >= key(a[q])
      invariant multiset(a[..]) == old(multiset(a[..]))
      invariant forall v :: WithKey(a[..], key, v) == WithKey(old(a[..]), key, v)
    {
      SiftDown(a, i, key);
      i := i + 1;
    }
    TiesDetermineRanking(a[..], SortDesc(old(a[..]), key), key);
  }

  /** One insertion-sort step: moves `a[i]` left past the smaller keys of the ranked prefix. */
  method SiftDown<T>(a: array<T>, i: nat, key: T -> int)
    requires i < a.Length
    requires forall p, q :: 0 <= p < q < i ==> key(a[p]) >= key(a[q])
    modifies a
    ensures forall p, q :: 0 <= p < q <= i ==> key(a[p]) >= key(a[q])
    ensures multiset(a[..]) == old(multiset(a[..]))
    ensures forall v :: WithKey(a[..], key, v) == WithKey(old(a[..]), key, v)
  {
    var j := i;
    while j > 0 && key(a[j - 1]) < key(a[j])
      invariant 0 <= j <= i
      invariant forall p, q :: 0 <= p < q <= i && p != j && q != j ==> key(a[p]) >= key(a[q])
      invariant forall q :: j < q <= i ==> key(a[j]) > key(a[q])
      invariant 0 < j < i ==> key(a[j - 1]) >= key(a[j + 1])
      invariant multiset(a[..]) == old(multiset(a[..]))
      invariant forall v :: WithKey(a[..], key, v) == WithKey(old(a[..]), key, v)
    {
      SwapDown(a, j, key);
      j := j - 1;
    }
  }
}
