/**
 * Python's stable sort with reverse=True on a real-valued key.
 *
 * The sort is described by the order in which it lists the input positions:
 * position a comes before position b when its key is larger, or when the keys
 * are equal and a < b (equal keys keep their input order). StableOrder builds
 * that order by insertion.
 */
module Sorting {

  /** Position a is listed before position b. */
  predicate Precedes(keys: seq<real>, a: nat, b: nat)
    requires a < |keys| && b < |keys|
  {
    keys[a] > keys[b] || (keys[a] == keys[b] && a < b)
  }

  predicate InRange(order: seq<nat>, n: nat)
  {
    forall k :: 0 <= k < |order| ==> order[k] < n
  }

  /** Every earlier position in `order` precedes every later one. */
  predicate Ordered(keys: seq<real>, order: seq<nat>)
    requires InRange(order, |keys|)
  {
    forall i, j :: 0 <= i < j < |order| ==> Precedes(keys, order[i], order[j])
  }

  /** `order` lists each of 0..n-1 exactly once. */
  predicate IsPermutation(order: seq<nat>, n: nat)
  {
    |order| == n && InRange(order, n)
    && (forall k :: 0 <= k < n ==> k in order)
    && (forall i, j :: 0 <= i < j < |order| ==> order[i] != order[j])
  }

  /** Where x goes: in front of the first entry it precedes. */
  function Position(keys: seq<real>, x: nat, order: seq<nat>): (p: nat)
    requires x < |keys| && InRange(order, |keys|)
    ensures p <= |order|
    ensures forall k :: 0 <= k < p ==> !Precedes(keys, x, order[k])
    ensures p < |order| ==> Precedes(keys, x, order[p])
  {
    if order == [] then 0
    else if Precedes(keys, x, order[0]) then 0
    else 1 + Position(keys, x, order[1..])
  }

  function Insert(keys: seq<real>, x: nat, order: seq<nat>): (r: seq<nat>)
    requires x < |keys| && InRange(order, |keys|)
    ensures InRange(r, |keys|)
    ensures |r| == |order| + 1
  {
    var p := Position(keys, x, order);
    order[..p] + [x] + order[p..]
  }

  lemma PrecedesTransitive(keys: seq<real>, a: nat, b: nat, c: nat)
    requires a < |keys| && b < |keys| && c < |keys|
    requires Precedes(keys, a, b) && Precedes(keys, b, c)
    ensures Precedes(keys, a, c)
  {
  }

  lemma InsertOrdered(keys: seq<real>, x: nat, order: seq<nat>)
    requires x < |keys| && InRange(order, |keys|)
    requires Ordered(keys, order) && x !in order
    ensures Ordered(keys, Insert(keys, x, order))
  {
    var p := Position(keys, x, order);
    var r := Insert(keys, x, order);
    assert forall k :: 0 <= k < p ==> r[k] == order[k];
    assert r[p] == x;
    assert forall k :: p < k < |r| ==> r[k] == order[k - 1];
    forall i, j | 0 <= i < j < |r| ensures Precedes(keys, r[i], r[j]) {
      if j == p {
        assert order[i] != x;
      } else if i == p {
        PrecedesTransitiveFrom(keys, x, order, p, j - 1);
      } else if i < p && j > p {
        assert order[i] != x;
        assert Precedes(keys, order[i], x);
        PrecedesTransitiveFrom(keys, x, order, p, j - 1);
        PrecedesTransitive(keys, order[i], x, order[j - 1]);
      }
    }
  }

  lemma PrecedesTransitiveFrom(keys: seq<real>, x: nat, order: seq<nat>, p: nat, k: nat)
    requires x < |keys| && InRange(order, |keys|) && Ordered(keys, order)
    requires p <= k < |order| && Precedes(keys, x, order[p])
    ensures Precedes(keys, x, order[k])
  {
    if k > p {
      PrecedesTransitive(keys, x, order[p], order[k]);
    }
  }

  /** Insertion adds x and keeps every other entry. */
  lemma InsertMembers(keys: seq<real>, x: nat, order: seq<nat>)
    requires x < |keys| && InRange(order, |keys|)
    ensures forall y :: y in Insert(keys, x, order) <==> y == x || y in order
  {
    var p := Position(keys, x, order);
    assert order == order[..p] + order[p..];
  }

  /** The positions 0..n-1 in stable descending key order, by repeated insertion. */
  function StableOrderUpTo(keys: seq<real>, n: nat): (r: seq<nat>)
    requires n <= |keys|
    ensures InRange(r, |keys|) && |r| == n
  {
    if n == 0 then [] else Insert(keys, n - 1, StableOrderUpTo(keys, n - 1))
  }

  lemma {:induction false} StableOrderUpToCorrect(keys: seq<real>, n: nat)
    requires n <= |keys|
    ensures forall k :: k in StableOrderUpTo(keys, n) <==> 0 <= k < n
    ensures Ordered(keys, StableOrderUpTo(keys, n))
  {
    if n > 0 {
      var prev := StableOrderUpTo(keys, n - 1);
      StableOrderUpToCorrect(keys, n - 1);
      InsertOrdered(keys, n - 1, prev);
      InsertMembers(keys, n - 1, prev);
    }
  }

  function StableOrder(keys: seq<real>): seq<nat>
  {
    StableOrderUpTo(keys, |keys|)
  }

  /** The sort lists every input position exactly once, in stable descending order. */
  lemma StableOrderCorrect(keys: seq<real>)
    ensures IsPermutation(StableOrder(keys), |keys|)
    ensures Ordered(keys, StableOrder(keys))
  {
    var o := StableOrder(keys);
    StableOrderUpToCorrect(keys, |keys|);
    forall i, j | 0 <= i < j < |o| ensures o[i] != o[j] {
      assert Precedes(keys, o[i], o[j]);
    }
  }

  /** The elements of xs listed in the given order. */
  function Apply<T>(xs: seq<T>, order: seq<nat>): (r: seq<T>)
    requires InRange(order, |xs|)
    ensures |r| == |order|
  {
    seq(|order|, i requires 0 <= i < |order| => xs[order[i]])
  }

  /** sorted(xs, key=..., reverse=True) where keys[i] is the key of xs[i]. */
  function SortDescending<T>(xs: seq<T>, keys: seq<real>): (r: seq<T>)
    requires |keys| == |xs|
    ensures |r| == |xs|
  {
    Apply(xs, StableOrder(keys))
  }

  /**
   * What the sort promises: its output is xs reordered by a permutation p of
   * the positions, keys do not increase along the output, and equal keys keep
   * their input order.
   */
  lemma SortDescendingSpec<T>(xs: seq<T>, keys: seq<real>)
    requires |keys| == |xs|
    ensures var p := StableOrder(keys);
      IsPermutation(p, |xs|)
      && (forall i :: 0 <= i < |xs| ==> SortDescending(xs, keys)[i] == xs[p[i]])
      && (forall i, j :: 0 <= i < j < |xs| ==> keys[p[i]] >= keys[p[j]])
      && (forall i, j :: 0 <= i < j < |xs| && keys[p[i]] == keys[p[j]] ==> p[i] < p[j])
  {
    StableOrderCorrect(keys);
    var p := StableOrder(keys);
    forall i, j | 0 <= i < j < |xs| ensures keys[p[i]] >= keys[p[j]] {
      assert Precedes(keys, p[i], p[j]);
    }
  }
}
