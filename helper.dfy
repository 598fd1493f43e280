/** The table and list utilities of helper.py. */
module Helper {
  import opened Wrappers
  import opened Seqs
  import opened Tables

  // ----- match_elements (helper.py:10-15) -----

  function InList<T(==)>(b: seq<T>): T -> bool {
    x => x in b
  }

  /** The elements of `a` that also occur in `b`, in `a`'s order, duplicates kept. */
  function Matching<T(==)>(a: seq<T>, b: seq<T>): seq<T> {
    Filter(a, InList(b))
  }

  /** The loop of match_elements: walk `listA`, appending each element found in `listB`. */
  method MatchElements<T(==)>(listA: seq<T>, listB: seq<T>) returns (matched: seq<T>)
    ensures matched == Matching(listA, listB)
  {
    matched := [];
    for i := 0 to |listA|
      invariant matched == Matching(listA[..i], listB)
    {
      FilterSnoc(listA[..i], listA[i], InList(listB));
      assert listA[..i + 1] == listA[..i] + [listA[i]];
      if listA[i] in listB {
        matched := matched + [listA[i]];
      }
    }
    assert listA[..|listA|] == listA;
  }

  /** match_elements is an order-preserving intersection: it keeps exactly the
      elements of `a` found in `b`, every copy of them, and nothing else. */
  lemma MatchingIsIntersection<T>(a: seq<T>, b: seq<T>, x: T)
    ensures x in Matching(a, b) <==> x in a && x in b
    ensures multiset(Matching(a, b))[x] == if x in b then multiset(a)[x] else 0
    ensures IsSubsequence(Matching(a, b), a)
  {
    FilterMembership(a, InList(b), x);
    FilterCount(a, InList(b), x);
    FilterIsSubsequence(a, InList(b));
  }

  /** The result is never longer than `a`, is empty when `b` is, and is all of `a` when `b` covers `a`. */
  lemma MatchingBounds<T>(a: seq<T>, b: seq<T>)
    ensures |Matching(a, b)| <= |a|
    ensures b == [] ==> Matching(a, b) == []
    ensures (forall i :: 0 <= i < |a| ==> a[i] in b) ==> Matching(a, b) == a
  {
    if b == [] && Matching(a, b) != [] {
      FilterMembership(a, InList(b), Matching(a, b)[0]);
    }
    if forall i :: 0 <= i < |a| ==> a[i] in b {
      FilterAllPass(a, InList(b));
    }
  }

  // ----- describe: the dtype partition and shape (helper.py:29-34) -----

  function IsObjectDtype(dtype: string -> string): string -> bool {
    c => dtype(c) == "O"
  }

  function IsNonObjectDtype(dtype: string -> string): string -> bool {
    c => dtype(c) != "O"
  }

  /** Columns whose dtype is not "O", in column order. */
  function NumCategory(f: Frame, dtype: string -> string): seq<string> {
    Filter(f.columns, IsNonObjectDtype(dtype))
  }

  /** Columns whose dtype is "O", in column order. */
  function StrCategory(f: Frame, dtype: string -> string): seq<string> {
    Filter(f.columns, IsObjectDtype(dtype))
  }

  function HasNullIn(rows: seq<Row>): string -> bool {
    c => exists i :: 0 <= i < |rows| && Get(rows[i], c).None?
  }

  /** `data.columns[data.isnull().any()]`: the columns holding at least one missing cell. */
  function NullColumns(f: Frame): seq<string> {
    Filter(f.columns, HasNullIn(f.rows))
  }

  /** num_category and str_category partition the columns: each column is in
      exactly one of them, chosen by whether its dtype is "O", and each keeps column order. */
  lemma DescribePartition(f: Frame, dtype: string -> string, c: string)
    ensures c in NumCategory(f, dtype) <==> c in f.columns && dtype(c) != "O"
    ensures c in StrCategory(f, dtype) <==> c in f.columns && dtype(c) == "O"
    ensures multiset(NumCategory(f, dtype)) + multiset(StrCategory(f, dtype)) == multiset(f.columns)
    ensures |NumCategory(f, dtype)| + |StrCategory(f, dtype)| == |f.columns|
    ensures IsSubsequence(NumCategory(f, dtype), f.columns) && IsSubsequence(StrCategory(f, dtype), f.columns)
  {
    FilterMembership(f.columns, IsNonObjectDtype(dtype), c);
    FilterMembership(f.columns, IsObjectDtype(dtype), c);
    FilterSplit(f.columns, IsNonObjectDtype(dtype), IsObjectDtype(dtype));
    FilterIsSubsequence(f.columns, IsNonObjectDtype(dtype));
    FilterIsSubsequence(f.columns, IsObjectDtype(dtype));
  }

  /** A column is reported as holding nulls exactly when some row has it missing. */
  lemma NullColumnsExact(f: Frame, c: string)
    ensures c in NullColumns(f) <==> c in f.columns && exists i :: 0 <= i < |f.rows| && Get(f.rows[i], c).None?
  {
    FilterMembership(f.columns, HasNullIn(f.rows), c);
  }

  /** The part of describe's result the model keeps. */
  datatype Description = Description(
    shape: (nat, nat),
    columns: seq<string>,
    numCategory: seq<string>,
    strCategory: seq<string>,
    nullColumns: seq<string>)

  /** describe also publishes the partition through the module globals
      `num_category` and `str_category`; this object holds them. */
  class Globals {
    var numCategory: seq<string>
    var strCategory: seq<string>

    constructor ()
      ensures numCategory == [] && strCategory == []
    {
      numCategory := [];
      strCategory := [];
    }

    method Describe(data: Frame, dtype: string -> string) returns (d: Description)
      modifies this
      ensures numCategory == NumCategory(data, dtype) && strCategory == StrCategory(data, dtype)
      ensures d == Description((|data.rows|, |data.columns|), data.columns,
                               numCategory, strCategory, NullColumns(data))
    {
      numCategory := NumCategory(data, dtype);
      strCategory := StrCategory(data, dtype);
      d := Description((|data.rows|, |data.columns|), data.columns,
                       numCategory, strCategory, NullColumns(data));
    }
  }

  // ----- drop_items (helper.py:36-38) -----

  function NotIn(names: seq<string>): string -> bool {
    c => c !in names
  }

  /** `data.drop(names, axis=1)`: a label that is not a column raises KeyError,
      reported here with the missing labels. */
  function DropItems(f: Frame, names: seq<string>): (r: Result<Frame, seq<string>>)
    ensures r.Err? <==> exists n :: n in names && n !in f.columns
    ensures r.Err? ==> r.error != [] && forall n :: n in r.error ==> n in names && n !in f.columns
    ensures r.Ok? ==> WellFormed(f) ==> WellFormed(r.value)
  {
    var missing := Filter(names, NotIn(f.columns));
    MissingLabels(names, f.columns);
    if missing != [] then
      Err(missing)
    else
      var g := Frame(Filter(f.columns, NotIn(names)), seq(|f.rows|, i requires 0 <= i < |f.rows| =>
                      map c | c in f.rows[i] && c !in names :: f.rows[i][c]));
      DropWellFormed(f, names, g);
      Ok(g)
  }

  lemma MissingLabels(names: seq<string>, columns: seq<string>)
    ensures Filter(names, NotIn(columns)) == [] <==> forall n :: n in names ==> n in columns
  {
    forall n | n in names {
      FilterMembership(names, NotIn(columns), n);
    }
    if Filter(names, NotIn(columns)) != [] {
      assert Filter(names, NotIn(columns))[0] in Filter(names, NotIn(columns));
    }
  }

  lemma DropWellFormed(f: Frame, names: seq<string>, g: Frame)
    requires g == Frame(Filter(f.columns, NotIn(names)), seq(|f.rows|, i requires 0 <= i < |f.rows| =>
                          map c | c in f.rows[i] && c !in names :: f.rows[i][c]))
    ensures WellFormed(f) ==> WellFormed(g)
  {
    if WellFormed(f) {
      forall c {
        FilterMembership(f.columns, NotIn(names), c);
      }
      DistinctFilter(f.columns, NotIn(names));
    }
  }

  lemma {:induction false} DistinctFilter<T>(xs: seq<T>, p: T -> bool)
    requires Distinct(xs)
    ensures Distinct(Filter(xs, p))
  {
    if xs != [] {
      DistinctFilter(xs[1..], p);
      FilterMembership(xs[1..], p, xs[0]);
      assert xs[0] !in xs[1..];
    }
  }

  /** drop_items removes only the named columns: the others keep their order,
      every row survives, and every remaining cell is unchanged. */
  lemma DropItemsKeepsTheRest(f: Frame, names: seq<string>, c: string)
    requires DropItems(f, names).Ok?
    ensures var g := DropItems(f, names).value;
      && (c in g.columns <==> c in f.columns && c !in names)
      && IsSubsequence(g.columns, f.columns)
      && |g.rows| == |f.rows|
      && forall i :: 0 <= i < |f.rows| ==>
           Get(g.rows[i], c) == if c in names then None else Get(f.rows[i], c)
  {
    FilterMembership(f.columns, NotIn(names), c);
    FilterIsSubsequence(f.columns, NotIn(names));
  }

  // ----- rename_columns (helper.py:40-42) -----

  /** The label a column carries after `rename(columns=m)`; labels not in `m` are kept. */
  function Renamed(m: map<string, string>, c: string): string {
    if c in m then m[c] else c
  }

  /** No two columns end up with the same label. */
  predicate RenameInjective(f: Frame, m: map<string, string>) {
    forall i, j :: 0 <= i < j < |f.columns| ==> Renamed(m, f.columns[i]) != Renamed(m, f.columns[j])
  }

  predicate InjectiveOn(m: map<string, string>, keys: set<string>) {
    forall a, b :: a in keys && b in keys && Renamed(m, a) == Renamed(m, b) ==> a == b
  }

  /** One row under the new labels. */
  function RenameRow(m: map<string, string>, r: Row): (r': Row)
    requires InjectiveOn(m, r.Keys)
    ensures r'.Keys == set c | c in r :: Renamed(m, c)
    ensures forall c :: c in r ==> Get(r', Renamed(m, c)) == Get(r, c)
  {
    map c | c in r :: Renamed(m, c) := r[c]
  }

  lemma ColumnsInjective(f: Frame, m: map<string, string>)
    requires RenameInjective(f, m)
    ensures InjectiveOn(m, set c | c in f.columns)
  {
    forall a, b | a in f.columns && b in f.columns && Renamed(m, a) == Renamed(m, b) ensures a == b {
      var ka :| 0 <= ka < |f.columns| && f.columns[ka] == a;
      var kb :| 0 <= kb < |f.columns| && f.columns[kb] == b;
      assert !(ka < kb) && !(kb < ka);
    }
  }

  /** `data.rename(columns=m)`; pandas would allow two columns to end up with
      one label, which a row map cannot hold, hence RenameInjective. */
  function RenameColumns(f: Frame, m: map<string, string>): (g: Frame)
    requires WellFormed(f) && RenameInjective(f, m)
    ensures WellFormed(g)
    ensures |g.columns| == |f.columns| && |g.rows| == |f.rows|
    ensures forall k :: 0 <= k < |f.columns| ==> g.columns[k] == Renamed(m, f.columns[k])
    ensures forall i, k :: 0 <= i < |f.rows| && 0 <= k < |f.columns| ==>
              Get(g.rows[i], Renamed(m, f.columns[k])) == Get(f.rows[i], f.columns[k])
  {
    ColumnsInjective(f, m);
    var cols := seq(|f.columns|, k requires 0 <= k < |f.columns| => Renamed(m, f.columns[k]));
    var g := Frame(cols, seq(|f.rows|, i requires 0 <= i < |f.rows| => RenameRow(m, f.rows[i])));
    RenamedWellFormed(f, m, g);
    assert forall i, k :: 0 <= i < |f.rows| && 0 <= k < |f.columns| ==> f.columns[k] in f.rows[i] by {
      forall i, k | 0 <= i < |f.rows| && 0 <= k < |f.columns| ensures f.columns[k] in f.rows[i] {
        assert f.columns[k] in (set c | c in f.columns);
      }
    }
    g
  }

  lemma RenamedWellFormed(f: Frame, m: map<string, string>, g: Frame)
    requires WellFormed(f) && RenameInjective(f, m)
    requires InjectiveOn(m, set c | c in f.columns)
    requires g.columns == seq(|f.columns|, k requires 0 <= k < |f.columns| => Renamed(m, f.columns[k]))
    requires g.rows == seq(|f.rows|, i requires 0 <= i < |f.rows| => RenameRow(m, f.rows[i]))
    ensures WellFormed(g)
  {
    var cols := set c | c in f.columns;
    var image := set c | c in cols :: Renamed(m, c);
    assert (set x | x in g.columns) == image by {
      forall x | x in g.columns ensures x in image {
        var k :| 0 <= k < |g.columns| && g.columns[k] == x;
        assert f.columns[k] in cols;
      }
      forall x | x in image ensures x in g.columns {
        var c :| c in cols && Renamed(m, c) == x;
        var k :| 0 <= k < |f.columns| && f.columns[k] == c;
        assert g.columns[k] == x;
      }
    }
    forall i | 0 <= i < |g.rows| ensures g.rows[i].Keys == image {
      assert f.rows[i].Keys == cols;
    }
  }

  // ----- handling_missing_values (helper.py:44-54) -----

  const DropAnyOption := "Drop all null value rows"
  const DropAllOption := "Only Drop Rows that contanines all null values"
  const FillOption := "Filling in Missing Values"

  /** No cell of the row is missing. */
  function NoNull(columns: seq<string>): Row -> bool {
    r => forall c :: c in columns ==> Get(r, c).Some?
  }

  /** Some cell of the row is present (`how="all"` keeps these). */
  function NotAllNull(columns: seq<string>): Row -> bool {
    r => exists c :: c in columns && Get(r, c).Some?
  }

  /** `fillna(values)`: a missing cell in a column named in `values` takes that value. */
  function FillRow(r: Row, values: map<string, Cell>): Row {
    map c | c in r :: if r[c].None? && c in values then Some(values[c]) else r[c]
  }

  /** handling_missing_values; `fillna(None)` raises ValueError, reported as an error. */
  function HandlingMissingValues(f: Frame, optionType: string, dictValue: Option<map<string, Cell>>): (r: Result<Frame, string>)
    ensures r.Err? <==> optionType == FillOption && dictValue.None?
    ensures r.Ok? ==> r.value.columns == f.columns
  {
    if optionType == DropAnyOption then
      Ok(Frame(f.columns, Filter(f.rows, NoNull(f.columns))))
    else if optionType == DropAllOption then
      Ok(Frame(f.columns, Filter(f.rows, NotAllNull(f.columns))))
    else if optionType == FillOption then
      match dictValue
      case None => Err("Must specify a fill 'value' or 'method'.")
      case Some(d) => Ok(Frame(f.columns, seq(|f.rows|, i requires 0 <= i < |f.rows| => FillRow(f.rows[i], d))))
    else
      Ok(f)
  }

  /** "Drop all null value rows" keeps, in order, exactly the rows without a missing cell. */
  lemma DropAnyExact(f: Frame, r: Row)
    ensures var g := HandlingMissingValues(f, DropAnyOption, None).value;
      && (r in g.rows <==> r in f.rows && forall c :: c in f.columns ==> Get(r, c).Some?)
      && IsSubsequence(g.rows, f.rows)
  {
    FilterMembership(f.rows, NoNull(f.columns), r);
    FilterIsSubsequence(f.rows, NoNull(f.columns));
  }

  /** "Only Drop Rows that contanines all null values" removes exactly the rows whose
      every cell is missing; on a frame with at least one column it keeps every row
      that the drop-any option keeps. */
  lemma DropAllExact(f: Frame, r: Row)
    ensures var g := HandlingMissingValues(f, DropAllOption, None).value;
      && (r in g.rows <==> r in f.rows && exists c :: c in f.columns && Get(r, c).Some?)
      && IsSubsequence(g.rows, f.rows)
      && (f.columns != [] && r in HandlingMissingValues(f, DropAnyOption, None).value.rows ==> r in g.rows)
  {
    FilterMembership(f.rows, NotAllNull(f.columns), r);
    FilterMembership(f.rows, NoNull(f.columns), r);
    FilterIsSubsequence(f.rows, NotAllNull(f.columns));
    if f.columns != [] {
      assert f.columns[0] in f.columns;
    }
  }

  /** "Filling in Missing Values" keeps the rows and their order, never touches a
      present cell, fills a missing one only in a column named in the dict, and
      leaves no missing cell in those columns. */
  lemma FillExact(f: Frame, d: map<string, Cell>)
    requires WellFormed(f)
    ensures var g := HandlingMissingValues(f, FillOption, Some(d)).value;
      && |g.rows| == |f.rows|
      && forall i, c :: 0 <= i < |f.rows| && c in f.columns ==>
           && (Get(f.rows[i], c).Some? ==> Get(g.rows[i], c) == Get(f.rows[i], c))
           && (Get(f.rows[i], c).None? && c !in d ==> Get(g.rows[i], c).None?)
           && (Get(f.rows[i], c).None? && c in d ==> Get(g.rows[i], c) == Some(d[c]))
  {
  }

  /** Any other option returns the data unchanged. */
  lemma OtherOptionIsIdentity(f: Frame, optionType: string, dictValue: Option<map<string, Cell>>)
    requires optionType != DropAnyOption && optionType != DropAllOption && optionType != FillOption
    ensures HandlingMissingValues(f, optionType, dictValue) == Ok(f)
  {
  }
}
