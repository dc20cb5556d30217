/**
 * Counting occurrences in a dictionary: `counts[k] = counts.get(k, 0) + 1`
 * over a sequence of keys, and the total of such counts over a known list of
 * keys.
 */
module Tally {

  /** counts.get(k, 0) */
  function Get(counts: map<string, nat>, k: string): nat
  {
    if k in counts then counts[k] else 0
  }

  /** counts[k] = counts.get(k, 0) + 1 */
  function Bump(counts: map<string, nat>, k: string): (r: map<string, nat>)
    ensures r.Keys == counts.Keys + {k}
  {
    counts[k := Get(counts, k) + 1]
  }

  /** The dictionary after bumping every key of ks in order, starting from {}. */
  function CountAll(ks: seq<string>): map<string, nat>
  {
    if |ks| == 0 then map[] else Bump(CountAll(ks[..|ks| - 1]), ks[|ks| - 1])
  }

  /** Each key is counted exactly as often as it occurs, and only keys that occur are present. */
  lemma {:induction false} CountAllCounts(ks: seq<string>)
    ensures forall k :: Get(CountAll(ks), k) == multiset(ks)[k]
    ensures forall k :: k in CountAll(ks) <==> k in ks
  {
    if |ks| > 0 {
      var init := ks[..|ks| - 1];
      CountAllCounts(init);
      assert ks == init + [ks[|ks| - 1]];
      assert multiset(ks) == multiset(init) + multiset{ks[|ks| - 1]};
    }
  }

  /** The sum of the counts of the given keys. */
  function SumOver(keys: seq<string>, counts: map<string, nat>): nat
  {
    if |keys| == 0 then 0 else Get(counts, keys[0]) + SumOver(keys[1..], counts)
  }

  predicate Distinct(keys: seq<string>)
  {
    forall i, j :: 0 <= i < j < |keys| ==> keys[i] != keys[j]
  }

  lemma {:induction false} SumOverBump(keys: seq<string>, counts: map<string, nat>, k: string)
    requires Distinct(keys)
    ensures SumOver(keys, Bump(counts, k)) == SumOver(keys, counts) + (if k in keys then 1 else 0)
  {
    if |keys| > 0 {
      assert Distinct(keys[1..]) by {
        forall i, j | 0 <= i < j < |keys[1..]| ensures keys[1..][i] != keys[1..][j] {
          assert keys[1..][i] == keys[i + 1] && keys[1..][j] == keys[j + 1];
        }
      }
      SumOverBump(keys[1..], counts, k);
      if keys[0] == k {
        assert k !in keys[1..] by {
          forall i | 0 <= i < |keys[1..]| ensures keys[1..][i] != k {
            assert keys[1..][i] == keys[i + 1];
          }
        }
      } else {
        assert k in keys <==> k in keys[1..];
      }
    }
  }

  /** When every key of ks is among the listed keys, the listed counts add up to |ks|. */
  lemma {:induction false} CountAllTotal(ks: seq<string>, keys: seq<string>)
    requires Distinct(keys)
    requires forall k :: k in ks ==> k in keys
    ensures SumOver(keys, CountAll(ks)) == |ks|
  {
    if |ks| == 0 {
      SumOverEmpty(keys);
    } else {
      var init := ks[..|ks| - 1];
      assert forall k :: k in init ==> k in ks;
      CountAllTotal(init, keys);
      SumOverBump(keys, CountAll(init), ks[|ks| - 1]);
    }
  }

  lemma {:induction false} SumOverEmpty(keys: seq<string>)
    ensures SumOver(keys, map[]) == 0
  {
    if |keys| > 0 {
      SumOverEmpty(keys[1..]);
    }
  }
}
