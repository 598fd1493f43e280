/** Profitability insights: app.py:176-208 and pages/4_Profitability.py. */
module Profitability {
  import opened Wrappers
  import opened Seqs
  import opened Tables
  import opened Grouping
  import opened Metrics
  import opened Aggregate

  // ---------- the group table `groupby(key).agg({'Profit': 'sum', 'Sales': 'sum'})` ----------

  datatype Group = Group(key: Cell, profit: real, sales: real)

  /** The cell in the grouping column; rows where it is missing form no group. */
  function CellOf(keyCol: string): Row -> Option<Cell> {
    r => Get(r, keyCol)
  }

  /** One group per distinct key, with the Profit and Sales sums of its rows. */
  function Groups(rows: seq<Row>, keyCol: string): seq<Group> {
    var profits := Entries(rows, CellOf(keyCol), "Profit");
    var sales := Entries(rows, CellOf(keyCol), "Sales");
    var ks := Unique(KeysOf(profits));
    seq(|ks|, i requires 0 <= i < |ks| => Group(ks[i], SumFor(profits, ks[i]), SumFor(sales, ks[i])))
  }

  /** Group `i` comes from some row, and carries the sums of exactly its rows. */
  lemma GroupOfRows(rows: seq<Row>, keyCol: string, i: int)
    requires 0 <= i < |Groups(rows, keyCol)|
    ensures var g := Groups(rows, keyCol)[i];
      && (exists n :: 0 <= n < |rows| && Get(rows[n], keyCol) == Some(g.key))
      && g.profit == ColumnSum(Filter(rows, KeyIs(CellOf(keyCol), g.key)), "Profit")
      && g.sales == ColumnSum(Filter(rows, KeyIs(CellOf(keyCol), g.key)), "Sales")
  {
    var ks := Unique(KeysOf(Entries(rows, CellOf(keyCol), "Profit")));
    assert Groups(rows, keyCol)[i].key == ks[i];
    EntriesKeys(rows, CellOf(keyCol), "Profit", ks[i]);
    EntriesSumFor(rows, CellOf(keyCol), "Profit", ks[i]);
    EntriesSumFor(rows, CellOf(keyCol), "Sales", ks[i]);
  }

  /** Every row with a key belongs to a group. */
  lemma RowInGroup(rows: seq<Row>, keyCol: string, n: int)
    requires 0 <= n < |rows| && Get(rows[n], keyCol).Some?
    ensures exists i :: 0 <= i < |Groups(rows, keyCol)| && Groups(rows, keyCol)[i].key == Get(rows[n], keyCol).value
  {
    var profits := Entries(rows, CellOf(keyCol), "Profit");
    var ks := Unique(KeysOf(profits));
    var k := Get(rows[n], keyCol).value;
    EntriesKeys(rows, CellOf(keyCol), "Profit", k);
    var m :| 0 <= m < |KeysOf(profits)| && KeysOf(profits)[m] == k;
    var i :| 0 <= i < |ks| && ks[i] == KeysOf(profits)[m];
    assert Groups(rows, keyCol)[i].key == k;
  }

  /** No two groups share a key. */
  lemma GroupKeysDistinct(rows: seq<Row>, keyCol: string)
    ensures var gs := Groups(rows, keyCol);
      forall i, j :: 0 <= i < j < |gs| ==> gs[i].key != gs[j].key
  {
    var gs := Groups(rows, keyCol);
    var ks := Unique(KeysOf(Entries(rows, CellOf(keyCol), "Profit")));
    assert forall i :: 0 <= i < |gs| ==> gs[i].key == ks[i];
  }

  /** Every group comes from the rows and carries the sums of exactly its rows. */
  lemma GroupsOfRows(rows: seq<Row>, keyCol: string)
    ensures var gs := Groups(rows, keyCol);
      && (forall i :: 0 <= i < |gs| ==> exists n :: 0 <= n < |rows| && Get(rows[n], keyCol) == Some(gs[i].key))
      && (forall i :: 0 <= i < |gs| ==>
            && gs[i].profit == ColumnSum(Filter(rows, KeyIs(CellOf(keyCol), gs[i].key)), "Profit")
            && gs[i].sales == ColumnSum(Filter(rows, KeyIs(CellOf(keyCol), gs[i].key)), "Sales"))
  {
    var gs := Groups(rows, keyCol);
    forall i | 0 <= i < |gs|
      ensures exists n :: 0 <= n < |rows| && Get(rows[n], keyCol) == Some(gs[i].key)
      ensures gs[i].profit == ColumnSum(Filter(rows, KeyIs(CellOf(keyCol), gs[i].key)), "Profit")
      ensures gs[i].sales == ColumnSum(Filter(rows, KeyIs(CellOf(keyCol), gs[i].key)), "Sales")
    {
      GroupOfRows(rows, keyCol, i);
    }
  }

  /** Every keyed row belongs to some group. */
  lemma RowsInGroups(rows: seq<Row>, keyCol: string)
    ensures var gs := Groups(rows, keyCol);
      forall n :: 0 <= n < |rows| && Get(rows[n], keyCol).Some? ==>
        exists i :: 0 <= i < |gs| && gs[i].key == Get(rows[n], keyCol).value
  {
    forall n | 0 <= n < |rows| && Get(rows[n], keyCol).Some?
      ensures exists i :: 0 <= i < |Groups(rows, keyCol)| && Groups(rows, keyCol)[i].key == Get(rows[n], keyCol).value
    {
      RowInGroup(rows, keyCol, n);
    }
  }

  /** The group keys are the distinct values of the grouping column, and each
      group carries the Profit and Sales sums of exactly its rows. */
  lemma GroupsMeaning(rows: seq<Row>, keyCol: string)
    ensures var gs := Groups(rows, keyCol);
      && (forall i, j :: 0 <= i < j < |gs| ==> gs[i].key != gs[j].key)
      && (forall i :: 0 <= i < |gs| ==> exists n :: 0 <= n < |rows| && Get(rows[n], keyCol) == Some(gs[i].key))
      && (forall n :: 0 <= n < |rows| && Get(rows[n], keyCol).Some? ==>
            exists i :: 0 <= i < |gs| && gs[i].key == Get(rows[n], keyCol).value)
      && (forall i :: 0 <= i < |gs| ==>
            && gs[i].profit == ColumnSum(Filter(rows, KeyIs(CellOf(keyCol), gs[i].key)), "Profit")
            && gs[i].sales == ColumnSum(Filter(rows, KeyIs(CellOf(keyCol), gs[i].key)), "Sales"))
  {
    GroupKeysDistinct(rows, keyCol);
    GroupsOfRows(rows, keyCol);
    RowsInGroups(rows, keyCol);
  }

  // ---------- the margin `Profit / Sales * 100` ----------

  /** A float quotient: a zero Sales sum gives an infinity or NaN. */
  datatype Margin = Finite(pct: real) | PosInf | NegInf | NaN

  /** There is no guard for a zero Sales sum. */
  function MarginOf(g: Group): (m: Margin)
    ensures m.Finite? <==> g.sales != 0.0
    ensures m.Finite? ==> m.pct * g.sales == g.profit * 100.0
    ensures m == PosInf <==> g.sales == 0.0 && g.profit > 0.0
    ensures m == NegInf <==> g.sales == 0.0 && g.profit < 0.0
  {
    if g.sales != 0.0 then Finite(g.profit / g.sales * 100.0)
    else if g.profit > 0.0 then PosInf
    else if g.profit < 0.0 then NegInf
    else NaN
  }

  /** `a <= b` on the non-NaN margins, with -inf below and +inf above every number. */
  predicate AtMost(a: Margin, b: Margin)
    requires !a.NaN? && !b.NaN?
  {
    match (a, b)
    case (NegInf, _) => true
    case (_, PosInf) => true
    case (Finite(x), Finite(y)) => x <= y
    case _ => false
  }

  /** Whether `a` may come before `b` in `sort_values`: ascending or
      descending, NaN goes last. */
  predicate Precedes(ascending: bool, a: Margin, b: Margin) {
    if b.NaN? then true
    else if a.NaN? then false
    else if ascending then AtMost(a, b) else AtMost(b, a)
  }

  lemma PrecedesTotal(ascending: bool, a: Margin, b: Margin)
    ensures Precedes(ascending, a, b) || Precedes(ascending, b, a)
  {
  }

  lemma PrecedesTransitive(ascending: bool, a: Margin, b: Margin, c: Margin)
    requires Precedes(ascending, a, b) && Precedes(ascending, b, c)
    ensures Precedes(ascending, a, c)
  {
  }

  predicate SortedBy(ascending: bool, gs: seq<Group>) {
    forall i, j :: 0 <= i < j < |gs| ==> Precedes(ascending, MarginOf(gs[i]), MarginOf(gs[j]))
  }

  /** A group that may precede the head of a sorted list may precede all of it. */
  lemma PrecedesSorted(ascending: bool, g: Group, gs: seq<Group>)
    requires SortedBy(ascending, gs) && gs != [] && Precedes(ascending, MarginOf(g), MarginOf(gs[0]))
    ensures forall j :: 0 <= j < |gs| ==> Precedes(ascending, MarginOf(g), MarginOf(gs[j]))
  {
    forall j | 0 < j < |gs| ensures Precedes(ascending, MarginOf(g), MarginOf(gs[j])) {
      PrecedesTransitive(ascending, MarginOf(g), MarginOf(gs[0]), MarginOf(gs[j]));
    }
  }

  /** A group that may precede every element of `gs` and `g` may precede every
      element of any rearrangement of `gs` plus `g`. */
  lemma PrecedesRearranged(ascending: bool, x: Group, g: Group, gs: seq<Group>, rest: seq<Group>)
    requires forall j :: 0 <= j < |gs| ==> Precedes(ascending, MarginOf(x), MarginOf(gs[j]))
    requires Precedes(ascending, MarginOf(x), MarginOf(g))
    requires multiset(rest) == multiset(gs) + multiset{g}
    ensures forall j :: 0 <= j < |rest| ==> Precedes(ascending, MarginOf(x), MarginOf(rest[j]))
  {
    forall j | 0 <= j < |rest| ensures Precedes(ascending, MarginOf(x), MarginOf(rest[j])) {
      assert rest[j] in multiset(rest);
      if rest[j] != g {
        assert rest[j] in multiset(gs);
        var k :| 0 <= k < |gs| && gs[k] == rest[j];
      }
    }
  }

  /** Prepending a group that may precede every element keeps a list sorted. */
  lemma SortedCons(ascending: bool, x: Group, s: seq<Group>)
    requires SortedBy(ascending, s)
    requires forall j :: 0 <= j < |s| ==> Precedes(ascending, MarginOf(x), MarginOf(s[j]))
    ensures SortedBy(ascending, [x] + s)
  {
    var t := [x] + s;
    forall i, j | 0 <= i < j < |t| ensures Precedes(ascending, MarginOf(t[i]), MarginOf(t[j])) {
      assert t[j] == s[j - 1];
      if i > 0 {
        assert t[i] == s[i - 1];
      }
    }
  }

  /** Insert `g` before the first group it may precede. */
  function Insert(ascending: bool, g: Group, gs: seq<Group>): (r: seq<Group>)
    requires SortedBy(ascending, gs)
    ensures SortedBy(ascending, r)
    ensures multiset(r) == multiset(gs) + multiset{g}
  {
    if gs == [] then [g]
    else if Precedes(ascending, MarginOf(g), MarginOf(gs[0])) then
      PrecedesSorted(ascending, g, gs);
      SortedCons(ascending, g, gs);
      [g] + gs
    else
      PrecedesTotal(ascending, MarginOf(g), MarginOf(gs[0]));
      var tail := gs[1..];
      assert SortedBy(ascending, tail);
      var rest := Insert(ascending, g, tail);
      assert gs == [gs[0]] + tail;
      assert forall j :: 0 <= j < |tail| ==> Precedes(ascending, MarginOf(gs[0]), MarginOf(tail[j]));
      PrecedesRearranged(ascending, gs[0], g, tail, rest);
      SortedCons(ascending, gs[0], rest);
      [gs[0]] + rest
  }

  /** `sort_values(by='Profit Margin (%)', ascending=...)`, as a stable sort. */
  function SortByMargin(ascending: bool, gs: seq<Group>): (r: seq<Group>)
    ensures SortedBy(ascending, r)
    ensures multiset(r) == multiset(gs)
  {
    if gs == [] then []
    else
      assert gs == [gs[0]] + gs[1..];
      Insert(ascending, gs[0], SortByMargin(ascending, gs[1..]))
  }

  /** `head(n)`. */
  function Head(gs: seq<Group>, n: nat): (r: seq<Group>)
    ensures |r| == Min(n, |gs|)
  {
    if |gs| <= n then gs else gs[..n]
  }

  function MostProfitable(gs: seq<Group>): seq<Group> {
    Head(SortByMargin(false, gs), 3)
  }

  function LeastProfitable(gs: seq<Group>): seq<Group> {
    Head(SortByMargin(true, gs), 3)
  }

  /** In a sorted sequence every group of a prefix may precede every group after it. */
  lemma SortedPrefix(ascending: bool, s: seq<Group>, k: nat)
    requires SortedBy(ascending, s) && k <= |s|
    ensures forall t, g :: t in s[..k] && g in s[k..] ==> Precedes(ascending, MarginOf(t), MarginOf(g))
  {
    forall t, g | t in s[..k] && g in s[k..] ensures Precedes(ascending, MarginOf(t), MarginOf(g)) {
      var i :| 0 <= i < k && s[..k][i] == t;
      var j :| 0 <= j < |s| - k && s[k..][j] == g;
      assert s[i] == t && s[k + j] == g;
    }
  }

  /** What a prefix leaves out of a permutation is the rest of the sequence. */
  lemma LeftOut(gs: seq<Group>, s: seq<Group>, k: nat)
    requires multiset(s) == multiset(gs) && k <= |s|
    ensures multiset(s[..k]) <= multiset(gs)
    ensures multiset(gs) - multiset(s[..k]) == multiset(s[k..])
  {
    assert s == s[..k] + s[k..];
  }

  /** The first `n` of a sorted permutation are sorted, drawn from the input,
      and each may precede every group left out. */
  lemma HeadOfSorted(ascending: bool, gs: seq<Group>, n: nat)
    ensures var top := Head(SortByMargin(ascending, gs), n);
      && |top| == Min(n, |gs|)
      && SortedBy(ascending, top)
      && multiset(top) <= multiset(gs)
      && forall t, g :: t in top && g in multiset(gs) - multiset(top) ==>
           Precedes(ascending, MarginOf(t), MarginOf(g))
  {
    var s := SortByMargin(ascending, gs);
    var k := Min(n, |gs|);
    assert |s| == |gs| by { assert |multiset(s)| == |multiset(gs)|; }
    assert Head(s, n) == s[..k];
    LeftOut(gs, s, k);
    SortedPrefix(ascending, s, k);
  }

  /** `most_profitable` has min(3, #groups) entries in descending margin order,
      and each has a margin at least that of every group left out (NaN
      margins count as lowest). */
  lemma MostProfitableMeaning(gs: seq<Group>)
    ensures var top := MostProfitable(gs);
      && |top| == Min(3, |gs|)
      && SortedBy(false, top)
      && multiset(top) <= multiset(gs)
      && forall t, g :: t in top && g in multiset(gs) - multiset(top) ==>
           Precedes(false, MarginOf(t), MarginOf(g))
  {
    HeadOfSorted(false, gs, 3);
  }

  /** `least_profitable`: ascending margin order, each at most every group left out. */
  lemma LeastProfitableMeaning(gs: seq<Group>)
    ensures var low := LeastProfitable(gs);
      && |low| == Min(3, |gs|)
      && SortedBy(true, low)
      && multiset(low) <= multiset(gs)
      && forall t, g :: t in low && g in multiset(gs) - multiset(low) ==>
           Precedes(true, MarginOf(t), MarginOf(g))
  {
    HeadOfSorted(true, gs, 3);
  }

  /** For finite margins, "may precede" in descending order is `>=` and in ascending order `<=`. */
  lemma PrecedesFinite(a: real, b: real)
    ensures Precedes(false, Finite(a), Finite(b)) <==> a >= b
    ensures Precedes(true, Finite(a), Finite(b)) <==> a <= b
  {
  }

  /** With no zero-sales guard, a group with profit but no sales has an
      infinite margin and heads the most profitable table. */
  lemma ZeroSalesGroupLeads(gs: seq<Group>, k: nat)
    requires k < |gs| && gs[k].sales == 0.0 && gs[k].profit > 0.0
    ensures MarginOf(MostProfitable(gs)[0]) == PosInf
  {
    var s := SortByMargin(false, gs);
    assert gs[k] in multiset(gs);
    assert gs[k] in multiset(s);
    var j :| 0 <= j < |s| && s[j] == gs[k];
    assert MostProfitable(gs)[0] == s[0];
    if j > 0 {
      assert Precedes(false, MarginOf(s[0]), MarginOf(s[j]));
    }
  }

  // ---------- the sections ----------

  datatype View = Categories | Products

  datatype Ranking = Ranking(most: seq<Group>, least: seq<Group>)

  datatype Insights =
    | Ranked(ranking: Ranking)
    | NotAvailable                     // the warning branch: no table
    | MissingColumns(names: seq<string>)  // a KeyError, shown as a message

  /** Both tables for the groups of `keyCol`. */
  function RankBy(rows: seq<Row>, keyCol: string): (r: Ranking)
    ensures r.most == MostProfitable(Groups(rows, keyCol))
    ensures r.least == LeastProfitable(Groups(rows, keyCol))
  {
    var gs := Groups(rows, keyCol);
    Ranking(MostProfitable(gs), LeastProfitable(gs))
  }

  /** app.py:176-208 on the normalised frame: each view runs only when its
      literal column (`Category`, `Product`) exists. */
  function AppInsights(f: Frame, view: View): (o: Insights)
    requires "Profit" in f.columns && "Sales" in f.columns
    ensures o.NotAvailable? <==> (view == Categories && "Category" !in f.columns) ||
                                 (view == Products && "Product" !in f.columns)
    ensures !o.MissingColumns?
    ensures o.Ranked? ==> o.ranking == RankBy(f.rows, if view == Categories then "Category" else "Product")
  {
    match view
    case Categories => if "Category" in f.columns then Ranked(RankBy(f.rows, "Category")) else NotAvailable
    case Products => if "Product" in f.columns then Ranked(RankBy(f.rows, "Product")) else NotAvailable
  }

  datatype ProfitabilityPage = ProfitabilityPage(profitWarned: bool, salesWarned: bool, insights: Insights)

  /** The aggregation names the literal `Profit` and `Sales` columns; those absent raise the KeyError. */
  function AbsentMeasures(f: Frame): (ms: seq<string>)
    ensures forall m :: m in ms <==> (m == "Profit" || m == "Sales") && m !in f.columns
  {
    Filter(["Profit", "Sales"], (m: string) => m !in f.columns)
  }

  /** The column the chosen view groups by, if that view applies: the literal
      `Category` column, or the mapped product column. */
  function ViewColumn(f: Frame, productColumn: Option<string>, view: View): (c: Option<string>)
    ensures c.Some? ==> c.value in f.columns
    ensures view == Categories ==> c == (if "Category" in f.columns then Some("Category") else None)
    ensures view == Products ==> c == (if Mapped(productColumn, f) then productColumn else None)
  {
    match view
    case Categories => if "Category" in f.columns then Some("Category") else None
    case Products => if Mapped(productColumn, f) then productColumn else None
  }

  /** pages/4_Profitability.py: no data stops the page (None). The Profit and
      Sales mappings are only checked for the two warnings; the Products view
      groups by the mapped product column. */
  function ProfitabilityInsights(data: Option<Frame>, profitColumn: Option<string>, salesColumn: Option<string>,
                                 productColumn: Option<string>, view: View): (p: Option<ProfitabilityPage>)
    ensures p.None? <==> data.None?
    ensures p.Some? ==> (p.value.profitWarned <==> !Mapped(profitColumn, data.value))
    ensures p.Some? ==> (p.value.salesWarned <==> !Mapped(salesColumn, data.value))
    ensures p.Some? ==> (p.value.insights.NotAvailable? <==> ViewColumn(data.value, productColumn, view).None?)
    ensures p.Some? && p.value.insights.MissingColumns? ==>
      p.value.insights.names != [] && p.value.insights.names == AbsentMeasures(data.value)
    ensures p.Some? && p.value.insights.Ranked? ==>
      && "Profit" in data.value.columns && "Sales" in data.value.columns
      && ViewColumn(data.value, productColumn, view).Some?
      && p.value.insights.ranking == RankBy(data.value.rows, ViewColumn(data.value, productColumn, view).value)
  {
    match data
    case None => None
    case Some(f) =>
      var keyCol := ViewColumn(f, productColumn, view);
      var insights :=
        if keyCol.None? then NotAvailable
        else if AbsentMeasures(f) != [] then MissingColumns(AbsentMeasures(f))
        else
          Ranked(RankBy(f.rows, keyCol.value));
      Some(ProfitabilityPage(!Mapped(profitColumn, f), !Mapped(salesColumn, f), insights))
  }

  /** A missing Profit or Sales mapping only warns: the insights do not depend on it. */
  lemma MappingOnlyWarns(data: Frame, p1: Option<string>, s1: Option<string>, p2: Option<string>, s2: Option<string>,
                         productColumn: Option<string>, view: View)
    ensures ProfitabilityInsights(Some(data), p1, s1, productColumn, view).value.insights ==
            ProfitabilityInsights(Some(data), p2, s2, productColumn, view).value.insights
  {
  }
}
