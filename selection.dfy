/**
 * Order-preserving selection: what a Python list comprehension with an `if`
 * (or a loop that appends the elements passing a test) produces.
 */
module Selection {
  import opened Wrappers

  /** The elements of xs that satisfy keep, in their original order. */
  function Select<T>(xs: seq<T>, keep: T -> bool): (r: seq<T>)
    ensures |r| <= |xs|
    ensures forall x :: x in r ==> x in xs && keep(x)
  {
    if |xs| == 0 then []
    else
      var init := Select(xs[..|xs| - 1], keep);
      var last := xs[|xs| - 1];
      init + (if keep(last) then [last] else [])
  }

  /** The positions of xs that satisfy keep, ascending. */
  function SelectedPositions<T>(xs: seq<T>, keep: T -> bool): (r: seq<nat>)
    ensures |r| == |Select(xs, keep)|
    ensures forall j :: 0 <= j < |r| ==> r[j] < |xs|
  {
    if |xs| == 0 then []
    else
      var init := SelectedPositions(xs[..|xs| - 1], keep);
      init + (if keep(xs[|xs| - 1]) then [|xs| - 1] else [])
  }

  /**
   * Select is an order-preserving subsequence: entry j of the result is the
   * input at the j-th selected position, the positions ascend, and a position
   * is selected exactly when its element passes the test.
   */
  lemma SelectIsSubsequence<T>(xs: seq<T>, keep: T -> bool)
    ensures var r, p := Select(xs, keep), SelectedPositions(xs, keep);
      (forall j :: 0 <= j < |p| ==> r[j] == xs[p[j]])
      && (forall i, j :: 0 <= i < j < |p| ==> p[i] < p[j])
      && (forall k :: 0 <= k < |xs| ==> (k in p <==> keep(xs[k])))
  {
    SelectAtPositions(xs, keep);
    PositionsAscend(xs, keep);
    PositionsExact(xs, keep);
  }

  lemma {:induction false} SelectAtPositions<T>(xs: seq<T>, keep: T -> bool)
    ensures forall j :: 0 <= j < |SelectedPositions(xs, keep)| ==>
      Select(xs, keep)[j] == xs[SelectedPositions(xs, keep)[j]]
  {
    if |xs| > 0 {
      var xs' := xs[..|xs| - 1];
      SelectAtPositions(xs', keep);
      var r', p' := Select(xs', keep), SelectedPositions(xs', keep);
      var r, p := Select(xs, keep), SelectedPositions(xs, keep);
      forall j | 0 <= j < |p| ensures r[j] == xs[p[j]] {
        if j < |p'| {
          assert p[j] == p'[j] && r[j] == r'[j];
          assert xs'[p'[j]] == xs[p'[j]];
        } else {
          assert |r'| == |p'|;
          assert keep(xs[|xs| - 1]);
          assert p[j] == |xs| - 1;
          assert r[j] == xs[|xs| - 1];
        }
      }
    }
  }

  lemma {:induction false} PositionsAscend<T>(xs: seq<T>, keep: T -> bool)
    ensures forall i, j :: 0 <= i < j < |SelectedPositions(xs, keep)| ==>
      SelectedPositions(xs, keep)[i] < SelectedPositions(xs, keep)[j]
  {
    if |xs| > 0 {
      var xs' := xs[..|xs| - 1];
      PositionsAscend(xs', keep);
      var p', p := SelectedPositions(xs', keep), SelectedPositions(xs, keep);
      assert forall j :: 0 <= j < |p'| ==> p'[j] < |xs'|;
      assert forall j :: 0 <= j < |p'| ==> p[j] == p'[j];
      forall i, j | 0 <= i < j < |p| ensures p[i] < p[j] {
        if j == |p'| {
          assert p[j] == |xs| - 1;
          assert p[i] == p'[i];
          assert p'[i] < |xs'|;
        } else {
          assert p[i] == p'[i] && p[j] == p'[j];
          assert p'[i] < p'[j];
        }
      }
    }
  }

  lemma {:induction false} PositionsExact<T>(xs: seq<T>, keep: T -> bool)
    ensures var p := SelectedPositions(xs, keep);
      forall k :: 0 <= k < |xs| ==> (k in p <==> keep(xs[k]))
  {
    if |xs| > 0 {
      var n := |xs| - 1;
      var xs' := xs[..n];
      PositionsExact(xs', keep);
      var p', p := SelectedPositions(xs', keep), SelectedPositions(xs, keep);
      forall k | 0 <= k < |xs| ensures k in p <==> keep(xs[k]) {
        if k < n {
          assert xs'[k] == xs[k];
          assert k in p <==> k in p';
        }
      }
    }
  }

  /** An element is selected exactly when it is in the input and passes the test. */
  lemma SelectMembers<T>(xs: seq<T>, keep: T -> bool)
    ensures forall x :: x in Select(xs, keep) <==> x in xs && keep(x)
  {
    SelectIsSubsequence(xs, keep);
    var p := SelectedPositions(xs, keep);
    forall x | x in xs && keep(x)
      ensures x in Select(xs, keep)
    {
      var k :| 0 <= k < |xs| && xs[k] == x;
      var j :| 0 <= j < |p| && p[j] == k;
      assert Select(xs, keep)[j] == x;
    }
  }

  /** Selecting by a test and by its negation splits the input: the two sizes add up. */
  lemma {:induction false} SelectPartition<T>(xs: seq<T>, keep: T -> bool, drop: T -> bool)
    requires forall x :: x in xs ==> (drop(x) <==> !keep(x))
    ensures |Select(xs, keep)| + |Select(xs, drop)| == |xs|
  {
    if |xs| > 0 {
      SelectPartition(xs[..|xs| - 1], keep, drop);
    }
  }

  /** Nothing is selected when no element passes. */
  lemma {:induction false} SelectNone<T>(xs: seq<T>, keep: T -> bool)
    requires forall i :: 0 <= i < |xs| ==> !keep(xs[i])
    ensures Select(xs, keep) == []
  {
    if |xs| > 0 {
      SelectNone(xs[..|xs| - 1], keep);
    }
  }

  /** Selection distributes over concatenation. */
  lemma {:induction false} SelectAppend<T>(xs: seq<T>, ys: seq<T>, keep: T -> bool)
    ensures Select(xs + ys, keep) == Select(xs, keep) + Select(ys, keep)
    decreases |ys|
  {
    if |ys| == 0 {
      assert xs + ys == xs;
    } else {
      var ys' := ys[..|ys| - 1];
      assert (xs + ys)[..|xs + ys| - 1] == xs + ys';
      SelectAppend(xs, ys', keep);
    }
  }

  /** Selecting from a prefix one element longer adds that element exactly when it passes. */
  /** Appending keeps the elements already there. */
  lemma SnocAt<T>(xs: seq<T>, x: T)
    ensures |xs + [x]| == |xs| + 1 && (xs + [x])[|xs|] == x
    ensures forall j :: 0 <= j < |xs| ==> (xs + [x])[j] == xs[j]
  {
  }

  lemma SelectPrefix<T>(xs: seq<T>, i: nat, keep: T -> bool)
    requires i < |xs|
    ensures Select(xs[..i + 1], keep) == if keep(xs[i]) then Select(xs[..i], keep) + [xs[i]] else Select(xs[..i], keep)
  {
    assert xs[..i + 1][..i] == xs[..i];
  }

  /** When passing `a` implies passing `b`, selecting by `a` can first select by `b`. */
  lemma {:induction false} SelectNested<T>(xs: seq<T>, a: T -> bool, b: T -> bool)
    requires forall i :: 0 <= i < |xs| && a(xs[i]) ==> b(xs[i])
    ensures Select(xs, a) == Select(Select(xs, b), a)
  {
    if |xs| > 0 {
      var init, last := xs[..|xs| - 1], xs[|xs| - 1];
      assert forall i :: 0 <= i < |init| ==> init[i] == xs[i];
      SelectNested(init, a, b);
      var mid := Select(init, b);
      var tail := if b(last) then [last] else [];
      SelectAppend(mid, tail, a);
      if b(last) {
        assert tail[..0] == [];
      }
    }
  }

  /**
   * The first n selected elements: positions p of xs, ascending, at which
   * keep holds; an element that keep accepts is left out only when n were
   * taken before it.
   */
  lemma SelectFirst<T>(xs: seq<T>, keep: T -> bool, n: nat) returns (p: seq<nat>)
    ensures var r := Prefix(Select(xs, keep), n);
      |r| == |p| && |r| <= n
      && (forall j :: 0 <= j < |p| ==> p[j] < |xs| && r[j] == xs[p[j]] && keep(r[j]))
      && (forall i, j :: 0 <= i < j < |p| ==> p[i] < p[j])
      && (forall k :: 0 <= k < |xs| && keep(xs[k]) && k !in p ==> |r| == n && (n > 0 ==> p[n - 1] < k))
  {
    var r := Prefix(Select(xs, keep), n);
    var q := SelectedPositions(xs, keep);
    SelectFirstValues(xs, keep, n);
    SelectFirstComplete(xs, keep, n);
    PositionsAscend(xs, keep);
    p := q[..|r|];
  }

  lemma SelectFirstValues<T>(xs: seq<T>, keep: T -> bool, n: nat)
    ensures var r, q := Prefix(Select(xs, keep), n), SelectedPositions(xs, keep);
      |r| <= |q| && |r| <= n
      && forall j :: 0 <= j < |r| ==> q[j] < |xs| && r[j] == xs[q[j]] && keep(r[j])
  {
    var all := Select(xs, keep);
    SelectAtPositions(xs, keep);
    var r := Prefix(all, n);
    forall j | 0 <= j < |r| ensures keep(r[j]) {
      assert r[j] == all[j] && all[j] in all;
    }
  }

  lemma SelectFirstComplete<T>(xs: seq<T>, keep: T -> bool, n: nat)
    ensures var r, q := Prefix(Select(xs, keep), n), SelectedPositions(xs, keep);
      forall k :: 0 <= k < |xs| && keep(xs[k]) && k !in q[..|r|] ==> |r| == n && (n > 0 ==> q[n - 1] < k)
  {
    var q := SelectedPositions(xs, keep);
    var r := Prefix(Select(xs, keep), n);
    PositionsExact(xs, keep);
    PositionsAscend(xs, keep);
    forall k | 0 <= k < |xs| && keep(xs[k]) && k !in q[..|r|] ensures |r| == n && (n > 0 ==> q[n - 1] < k) {
      assert k in q;
      var t :| 0 <= t < |q| && q[t] == k;
      assert t >= |r|;
    }
  }

  lemma SliceSnoc<T>(xs: seq<T>, i: nat)
    requires 0 < i <= |xs|
    ensures xs[..i] == xs[..i - 1] + [xs[i - 1]]
  {
  }

  /** When the kept elements are exactly those before position c, selecting them is taking the first c. */
  lemma KeptPrefix<T>(xs: seq<T>, keep: T -> bool, c: nat)
    requires c <= |xs| && forall k :: 0 <= k < |xs| ==> (keep(xs[k]) <==> k < c)
    ensures Select(xs, keep) == xs[..c]
  {
    KeptPrefixUpTo(xs, keep, c, |xs|);
    assert xs[..|xs|] == xs;
  }

  lemma {:induction false} KeptPrefixUpTo<T>(xs: seq<T>, keep: T -> bool, c: nat, i: nat)
    requires c <= |xs| && forall k :: 0 <= k < |xs| ==> (keep(xs[k]) <==> k < c)
    requires i <= |xs|
    ensures Select(xs[..i], keep) == xs[..if i < c then i else c]
  {
    if i > 0 {
      var last := xs[i - 1];
      KeptPrefixUpTo(xs, keep, c, i - 1);
      SelectPrefix(xs, i - 1, keep);
      if i <= c {
        assert keep(last);
        assert Select(xs[..i], keep) == xs[..i - 1] + [last];
        SliceSnoc(xs, i);
      } else {
        assert !keep(last);
        assert Select(xs[..i], keep) == xs[..c];
      }
    }
  }

  /** f applied to each element, in order: [f(x) for x in xs]. */
  function MapAll<A, B>(xs: seq<A>, f: A -> B): (r: seq<B>)
    ensures |r| == |xs|
  {
    if |xs| == 0 then [] else MapAll(xs[..|xs| - 1], f) + [f(xs[|xs| - 1])]
  }

  /** Mapping a prefix one element longer appends that element's image. */
  lemma MapAllPrefix<A, B>(xs: seq<A>, i: nat, f: A -> B)
    requires i < |xs|
    ensures MapAll(xs[..i + 1], f) == MapAll(xs[..i], f) + [f(xs[i])]
  {
    assert xs[..i + 1][..i] == xs[..i];
  }

  lemma {:induction false} MapAllAt<A, B>(xs: seq<A>, f: A -> B)
    ensures forall i :: 0 <= i < |xs| ==> MapAll(xs, f)[i] == f(xs[i])
  {
    if |xs| > 0 {
      var init := xs[..|xs| - 1];
      MapAllAt(init, f);
      assert forall i :: 0 <= i < |init| ==> init[i] == xs[i];
    }
  }

  /** How many of the positions 0..n-1 satisfy p. */
  function CountWhere(n: nat, p: nat -> bool): (c: nat)
    ensures c <= n
  {
    if n == 0 then 0 else CountWhere(n - 1, p) + (if p(n - 1) then 1 else 0)
  }

  /** The count is zero exactly when no position below n satisfies p. */
  lemma {:induction false} CountWhereZero(n: nat, p: nat -> bool)
    ensures CountWhere(n, p) == 0 <==> forall k :: 0 <= k < n ==> !p(k)
  {
    if n > 0 {
      CountWhereZero(n - 1, p);
    }
  }

  /** The first n elements, or all of them when there are fewer (xs[:n]). */
  function Prefix<T>(xs: seq<T>, n: nat): (r: seq<T>)
    ensures |r| == if |xs| <= n then |xs| else n
    ensures r <= xs
  {
    if |xs| <= n then xs else xs[..n]
  }
  /** An optional value as a list of zero or one elements. */
  function OptionList<X>(o: Option<X>): seq<X>
  {
    if o.Some? then [o.value] else []
  }

  /** The values f gives for the elements of xs, in order, skipping those it gives None for. */
  function Collect<A, B>(xs: seq<A>, f: A -> Option<B>): (r: seq<B>)
    ensures |r| <= |xs|
  {
    if |xs| == 0 then []
    else
      var init := Collect(xs[..|xs| - 1], f);
      match f(xs[|xs| - 1])
      case Some(y) => init + [y]
      case None => init
  }

  /** One more element adds its value exactly when f gives one. */
  lemma CollectSnoc<A, B>(xs: seq<A>, x: A, f: A -> Option<B>)
    ensures Collect(xs + [x], f) == Collect(xs, f) + (if f(x).Some? then [f(x).value] else [])
  {
    assert (xs + [x])[..|xs|] == xs;
  }

  /** Collecting a prefix one element longer adds that element's value exactly when f gives one. */
  lemma CollectPrefix<A, B>(xs: seq<A>, i: nat, f: A -> Option<B>)
    requires i < |xs|
    ensures Collect(xs[..i + 1], f) == Collect(xs[..i], f) + (if f(xs[i]).Some? then [f(xs[i]).value] else [])
  {
    assert xs[..i + 1][..i] == xs[..i];
  }

  /** Collecting distributes over concatenation. */
  lemma {:induction false} CollectAppend<A, B>(xs: seq<A>, ys: seq<A>, f: A -> Option<B>)
    ensures Collect(xs + ys, f) == Collect(xs, f) + Collect(ys, f)
    decreases |ys|
  {
    if |ys| == 0 {
      assert xs + ys == xs;
    } else {
      var ys' := ys[..|ys| - 1];
      assert (xs + ys)[..|xs + ys| - 1] == xs + ys';
      CollectAppend(xs, ys', f);
    }
  }

  /**
   * What Collect returns: the values of exactly the elements f gives a value
   * for, at ascending positions.
   */
  lemma {:induction false} CollectSpec<A, B>(xs: seq<A>, f: A -> Option<B>) returns (p: seq<nat>)
    ensures |p| == |Collect(xs, f)|
    ensures forall j :: 0 <= j < |p| ==> p[j] < |xs| && f(xs[p[j]]) == Some(Collect(xs, f)[j])
    ensures forall i, j :: 0 <= i < j < |p| ==> p[i] < p[j]
    ensures forall k :: 0 <= k < |xs| && f(xs[k]).Some? ==> k in p
  {
    if |xs| == 0 {
      p := [];
    } else {
      var q := CollectSpec(xs[..|xs| - 1], f);
      p := if f(xs[|xs| - 1]).Some? then q + [|xs| - 1] else q;
      CollectSnocValues(xs, f, q);
      CollectSnocComplete(xs, f, q);
    }
  }

  /** The step of CollectSpec for the values and their order. */
  lemma CollectSnocValues<A, B>(xs: seq<A>, f: A -> Option<B>, q: seq<nat>)
    requires |xs| > 0
    requires |q| == |Collect(xs[..|xs| - 1], f)|
    requires forall j :: 0 <= j < |q| ==> q[j] < |xs| - 1 && f(xs[..|xs| - 1][q[j]]) == Some(Collect(xs[..|xs| - 1], f)[j])
    requires forall i, j :: 0 <= i < j < |q| ==> q[i] < q[j]
    ensures var p := if f(xs[|xs| - 1]).Some? then q + [|xs| - 1] else q;
      |p| == |Collect(xs, f)|
      && (forall j :: 0 <= j < |p| ==> p[j] < |xs| && f(xs[p[j]]) == Some(Collect(xs, f)[j]))
      && (forall i, j :: 0 <= i < j < |p| ==> p[i] < p[j])
  {
    var init := xs[..|xs| - 1];
    var p := if f(xs[|xs| - 1]).Some? then q + [|xs| - 1] else q;
    var r, r0 := Collect(xs, f), Collect(init, f);
    assert r[..|r0|] == r0;
    forall j | 0 <= j < |p| ensures p[j] < |xs| && f(xs[p[j]]) == Some(r[j]) {
      if j < |q| {
        assert p[j] == q[j] && r[j] == r0[j] && xs[q[j]] == init[q[j]];
      }
    }
  }

  /** The step of CollectSpec for completeness: an element with a value appears among the positions. */
  lemma CollectSnocComplete<A, B>(xs: seq<A>, f: A -> Option<B>, q: seq<nat>)
    requires |xs| > 0
    requires forall k :: 0 <= k < |xs| - 1 && f(xs[..|xs| - 1][k]).Some? ==> k in q
    ensures var p := if f(xs[|xs| - 1]).Some? then q + [|xs| - 1] else q;
      forall k :: 0 <= k < |xs| && f(xs[k]).Some? ==> k in p
  {
    var init := xs[..|xs| - 1];
    var p := if f(xs[|xs| - 1]).Some? then q + [|xs| - 1] else q;
    forall k | 0 <= k < |xs| && f(xs[k]).Some? ensures k in p {
      if k < |init| {
        assert init[k] == xs[k];
        assert k in q;
      }
    }
  }
}
