/** `groupby(key).sum()` over keyed values: the aggregation shared by the
    daily series, the monthly roll-ups and the profitability table. */
module Grouping {
  import opened Seqs

  /** Sum of the values of the entries whose key is `k`. */
  function SumFor<K(==)>(es: seq<(K, real)>, k: K): real {
    if es == [] then 0.0
    else (if es[0].0 == k then es[0].1 else 0.0) + SumFor(es[1..], k)
  }

  /** Sum of all values. */
  function Total<K>(es: seq<(K, real)>): real {
    if es == [] then 0.0 else es[0].1 + Total(es[1..])
  }

  /** The keys of the entries, in entry order. */
  function KeysOf<K>(es: seq<(K, real)>): (ks: seq<K>)
    ensures |ks| == |es|
    ensures forall i :: 0 <= i < |es| ==> ks[i] == es[i].0
  {
    if es == [] then [] else [es[0].0] + KeysOf(es[1..])
  }

  /** One `(key, sum)` point per key of `ks`, in the order of `ks`. */
  function GroupSum<K(==)>(es: seq<(K, real)>, ks: seq<K>): (r: seq<(K, real)>)
    ensures |r| == |ks|
    ensures forall i :: 0 <= i < |ks| ==> r[i] == (ks[i], SumFor(es, ks[i]))
  {
    if ks == [] then [] else [(ks[0], SumFor(es, ks[0]))] + GroupSum(es, ks[1..])
  }

  predicate StrictlyIncreasing(s: seq<int>) {
    forall i, j :: 0 <= i < j < |s| ==> s[i] < s[j]
  }

  /** Insert a key into a strictly increasing sequence unless it is already there. */
  function InsertKey(s: seq<int>, k: int): (r: seq<int>)
    requires StrictlyIncreasing(s)
    ensures StrictlyIncreasing(r)
    ensures forall x :: x in r <==> x in s || x == k
  {
    if s == [] then [k]
    else if k < s[0] then [k] + s
    else if k == s[0] then s
    else
      var t := InsertKey(s[1..], k);
      assert forall j :: 0 <= j < |t| ==> s[0] < t[j] by {
        forall j | 0 <= j < |t| ensures s[0] < t[j] {
          assert t[j] in t;
          if t[j] != k {
            var m :| 0 <= m < |s[1..]| && s[1..][m] == t[j];
            assert s[m + 1] == t[j];
          }
        }
      }
      [s[0]] + t
  }

  /** The distinct keys in ascending order, as pandas' `groupby` sorts its groups. */
  function SortedKeys(keys: seq<int>): (r: seq<int>)
    ensures StrictlyIncreasing(r)
    ensures forall x :: x in r <==> x in keys
  {
    if keys == [] then []
    else
      assert keys == keys[..|keys| - 1] + [keys[|keys| - 1]];
      InsertKey(SortedKeys(keys[..|keys| - 1]), keys[|keys| - 1])
  }

  /** A strictly increasing run of integers spans at least its length. */
  lemma {:induction false} IncreasingSpan(s: seq<int>)
    requires |s| > 0 && StrictlyIncreasing(s)
    ensures s[|s| - 1] >= s[0] + |s| - 1
  {
    if |s| > 1 {
      var t := s[..|s| - 1];
      assert StrictlyIncreasing(t);
      IncreasingSpan(t);
      assert t[|t| - 1] < s[|s| - 1];
    }
  }

  lemma IncreasingIsDistinct(s: seq<int>)
    requires StrictlyIncreasing(s)
    ensures Distinct(s)
  {
  }

  lemma {:induction false} GroupSumOfNothing<K>(ks: seq<K>)
    ensures Total(GroupSum([], ks)) == 0.0
  {
    if ks != [] {
      GroupSumOfNothing(ks[1..]);
    }
  }

  /** Adding one entry to the input adds its value to exactly one group, if its key is grouped. */
  lemma {:induction false} GroupSumCons<K>(e: (K, real), es: seq<(K, real)>, ks: seq<K>)
    requires Distinct(ks)
    ensures Total(GroupSum([e] + es, ks)) == (if e.0 in ks then e.1 else 0.0) + Total(GroupSum(es, ks))
  {
    if ks != [] {
      GroupSumCons(e, es, ks[1..]);
      assert ([e] + es)[1..] == es;
      assert e.0 == ks[0] ==> e.0 !in ks[1..];
      assert e.0 in ks <==> e.0 == ks[0] || e.0 in ks[1..];
    }
  }

  /** Grouping neither loses nor creates value: when every key is grouped
      exactly once, the group sums add up to the total of the entries. */
  lemma {:induction false} GroupSumTotal<K>(es: seq<(K, real)>, ks: seq<K>)
    requires Distinct(ks)
    requires forall i :: 0 <= i < |es| ==> es[i].0 in ks
    ensures Total(GroupSum(es, ks)) == Total(es)
  {
    if es == [] {
      GroupSumOfNothing(ks);
    } else {
      GroupSumTotal(es[1..], ks);
      GroupSumCons(es[0], es[1..], ks);
      assert [es[0]] + es[1..] == es;
    }
  }

  /** A key that no entry carries sums to zero. */
  lemma {:induction false} SumForAbsent<K>(es: seq<(K, real)>, k: K)
    requires forall i :: 0 <= i < |es| ==> es[i].0 != k
    ensures SumFor(es, k) == 0.0
  {
    if es != [] {
      SumForAbsent(es[1..], k);
    }
  }

  /** The sorted-key group sum: one point per distinct key, ascending, summing to the total. */
  function GroupSumSorted(es: seq<(int, real)>): (r: seq<(int, real)>)
    ensures StrictlyIncreasing(KeysOf(r))
    ensures forall k :: k in KeysOf(r) <==> k in KeysOf(es)
    ensures forall i :: 0 <= i < |r| ==> r[i].1 == SumFor(es, r[i].0)
    ensures Total(r) == Total(es)
  {
    var ks := SortedKeys(KeysOf(es));
    var r := GroupSum(es, ks);
    assert KeysOf(r) == ks;
    IncreasingIsDistinct(ks);
    assert forall i :: 0 <= i < |es| ==> es[i].0 == KeysOf(es)[i];
    GroupSumTotal(es, ks);
    r
  }
}
