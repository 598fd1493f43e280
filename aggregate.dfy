/** The keyed entries behind every `groupby(key)[col].sum()` over table rows:
    rows whose key is missing are left out, and a missing value adds 0. */
module Aggregate {
  import opened Wrappers
  import opened Seqs
  import opened Tables
  import opened Grouping
  import opened Metrics

  /** One `(key, value)` entry per row that has a key, in row order. */
  function Entries<K>(rows: seq<Row>, key: Row -> Option<K>, col: string): (es: seq<(K, real)>)
    ensures |es| <= |rows|
  {
    if rows == [] then []
    else
      (match key(rows[0])
       case Some(k) => [(k, ValueOr0(rows[0], col))]
       case None => [])
      + Entries(rows[1..], key, col)
  }

  function HasKey<K>(key: Row -> Option<K>): Row -> bool {
    r => key(r).Some?
  }

  function KeyIs<K(==)>(key: Row -> Option<K>, k: K): Row -> bool {
    r => key(r) == Some(k)
  }

  lemma TotalCons<K>(e: (K, real), es: seq<(K, real)>)
    ensures Total([e] + es) == e.1 + Total(es)
  {
    assert ([e] + es)[1..] == es;
  }

  lemma SumForCons<K>(e: (K, real), es: seq<(K, real)>, k: K)
    ensures SumFor([e] + es, k) == (if e.0 == k then e.1 else 0.0) + SumFor(es, k)
  {
    assert ([e] + es)[1..] == es;
  }

  /** The entry keys are exactly the keys that occur in the rows. */
  lemma {:induction false} EntriesKeys<K>(rows: seq<Row>, key: Row -> Option<K>, col: string, k: K)
    ensures k in KeysOf(Entries(rows, key, col)) <==> exists i :: 0 <= i < |rows| && key(rows[i]) == Some(k)
  {
    if rows != [] {
      var rest := Entries(rows[1..], key, col);
      EntriesKeys(rows[1..], key, col, k);
      var head := match key(rows[0])
                  case Some(e) => [(e, ValueOr0(rows[0], col))]
                  case None => [];
      assert Entries(rows, key, col) == head + rest;
      assert KeysOf(head + rest) == KeysOf(head) + KeysOf(rest);
      if exists i :: 0 <= i < |rows| && key(rows[i]) == Some(k) {
        var i :| 0 <= i < |rows| && key(rows[i]) == Some(k);
        if i > 0 {
          assert key(rows[1..][i - 1]) == Some(k);
        }
      }
      if exists i :: 0 <= i < |rows[1..]| && key(rows[1..][i]) == Some(k) {
        var i :| 0 <= i < |rows[1..]| && key(rows[1..][i]) == Some(k);
        assert key(rows[i + 1]) == Some(k);
      }
    }
  }

  /** The sum for one key is the column summed over that key's rows. */
  lemma {:induction false} EntriesSumFor<K>(rows: seq<Row>, key: Row -> Option<K>, col: string, k: K)
    ensures SumFor(Entries(rows, key, col), k) == ColumnSum(Filter(rows, KeyIs(key, k)), col)
  {
    if rows != [] {
      var rest := Entries(rows[1..], key, col);
      EntriesSumFor(rows[1..], key, col, k);
      match key(rows[0])
      case Some(e) =>
        SumForCons((e, ValueOr0(rows[0], col)), rest, k);
        if e == k {
          assert Filter(rows, KeyIs(key, k)) == [rows[0]] + Filter(rows[1..], KeyIs(key, k));
          ColumnSumAppend([rows[0]], Filter(rows[1..], KeyIs(key, k)), col);
        }
      case None =>
        assert Entries(rows, key, col) == rest;
        assert !KeyIs(key, k)(rows[0]);
        assert Filter(rows, KeyIs(key, k)) == Filter(rows[1..], KeyIs(key, k));
    }
  }

  /** The entries sum to the column total over the rows that have a key. */
  lemma {:induction false} EntriesTotal<K>(rows: seq<Row>, key: Row -> Option<K>, col: string)
    ensures Total(Entries(rows, key, col)) == ColumnSum(Filter(rows, HasKey(key)), col)
  {
    if rows != [] {
      var rest := Entries(rows[1..], key, col);
      EntriesTotal(rows[1..], key, col);
      match key(rows[0])
      case Some(e) =>
        TotalCons((e, ValueOr0(rows[0], col)), rest);
        assert Filter(rows, HasKey(key)) == [rows[0]] + Filter(rows[1..], HasKey(key));
        ColumnSumAppend([rows[0]], Filter(rows[1..], HasKey(key)), col);
      case None =>
        assert Entries(rows, key, col) == rest;
        assert !HasKey(key)(rows[0]);
        assert Filter(rows, HasKey(key)) == Filter(rows[1..], HasKey(key));
    }
  }

  /** `groupby(key)[col].sum()` with an integer key, in ascending key order:
      one point per distinct key, each the column summed over that key's rows,
      adding up to the column total over the keyed rows. */
  lemma SortedGroupsMeaning(rows: seq<Row>, key: Row -> Option<int>, col: string)
    ensures var s := GroupSumSorted(Entries(rows, key, col));
      && StrictlyIncreasing(KeysOf(s))
      && (forall k :: k in KeysOf(s) <==> exists i :: 0 <= i < |rows| && key(rows[i]) == Some(k))
      && (forall i :: 0 <= i < |s| ==> s[i].1 == ColumnSum(Filter(rows, KeyIs(key, s[i].0)), col))
      && Total(s) == ColumnSum(Filter(rows, HasKey(key)), col)
      && ((forall i :: 0 <= i < |rows| ==> HasKey(key)(rows[i])) ==> Total(s) == ColumnSum(rows, col))
  {
    var s := GroupSumSorted(Entries(rows, key, col));
    forall k ensures k in KeysOf(s) <==> exists i :: 0 <= i < |rows| && key(rows[i]) == Some(k) {
      EntriesKeys(rows, key, col, k);
    }
    forall i | 0 <= i < |s| ensures s[i].1 == ColumnSum(Filter(rows, KeyIs(key, s[i].0)), col) {
      EntriesSumFor(rows, key, col, s[i].0);
    }
    EntriesTotal(rows, key, col);
    if forall i :: 0 <= i < |rows| ==> HasKey(key)(rows[i]) {
      FilterAllPass(rows, HasKey(key));
    }
  }
}
