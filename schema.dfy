/** The required-column check and the column-default resolver of app.py:65-88. */
module Schema {
  import opened Wrappers
  import opened Seqs
  import opened Tables

  // ----- required columns (app.py:65-70) -----

  const RequiredColumns: seq<string> := ["Order Date", "Sales", "Profit"]

  function Absent(columns: seq<string>): string -> bool {
    c => c !in columns
  }

  /** The required column names the frame lacks, in the order they are required. */
  function MissingColumns(f: Frame): seq<string> {
    Filter(RequiredColumns, Absent(f.columns))
  }

  /** A required name is reported missing exactly when it is not a column, and
      the report is empty exactly when all three literal names are columns. */
  lemma MissingColumnsExact(f: Frame, c: string)
    ensures c in MissingColumns(f) <==> c in RequiredColumns && c !in f.columns
    ensures MissingColumns(f) == [] <==> "Order Date" in f.columns && "Sales" in f.columns && "Profit" in f.columns
    ensures IsSubsequence(MissingColumns(f), RequiredColumns)
  {
    FilterMembership(RequiredColumns, Absent(f.columns), c);
    FilterMembership(RequiredColumns, Absent(f.columns), "Order Date");
    FilterMembership(RequiredColumns, Absent(f.columns), "Sales");
    FilterMembership(RequiredColumns, Absent(f.columns), "Profit");
    FilterIsSubsequence(RequiredColumns, Absent(f.columns));
    if MissingColumns(f) != [] {
      FilterMembership(RequiredColumns, Absent(f.columns), MissingColumns(f)[0]);
    }
  }

  // ----- find_default (app.py:75-80) -----

  /** `str.lower` on ASCII letters. */
  function LowerChar(ch: char): char {
    if 'A' <= ch <= 'Z' then (ch as int + 32) as char else ch
  }

  function Lower(s: string): (r: string)
    ensures |r| == |s|
    ensures forall i :: 0 <= i < |s| ==> r[i] == LowerChar(s[i])
  {
    if s == "" then "" else [LowerChar(s[0])] + Lower(s[1..])
  }

  predicate IsPrefix(p: string, s: string) {
    |p| <= |s| && s[..|p|] == p
  }

  /** Python's `needle in hay` on strings: a contiguous occurrence (the empty string occurs everywhere). */
  predicate Contains(hay: string, needle: string) {
    IsPrefix(needle, hay) || (hay != "" && Contains(hay[1..], needle))
  }

  /** `kw.lower() in col.lower()`. */
  predicate Matches(col: string, kw: string) {
    Contains(Lower(col), Lower(kw))
  }

  /** The position of the first column that matches the keyword, if any. */
  function FirstMatch(cols: seq<string>, kw: string): (r: Option<nat>)
    ensures r.Some? ==> r.value < |cols| && Matches(cols[r.value], kw)
    ensures r.Some? ==> forall i :: 0 <= i < r.value ==> !Matches(cols[i], kw)
    ensures r.None? ==> forall i :: 0 <= i < |cols| ==> !Matches(cols[i], kw)
  {
    if cols == [] then None
    else if Matches(cols[0], kw) then Some(0)
    else match FirstMatch(cols[1..], kw)
      case None => None
      case Some(i) => Some(i + 1)
  }

  /** The default find_default settles on: keywords are tried in order, and for
      the first keyword that matches any column, its first matching column wins;
      with no match at all, the first column. */
  function DefaultColumn(cols: seq<string>, kws: seq<string>): (r: string)
    requires |cols| > 0
    ensures r in cols
  {
    if kws == [] then cols[0]
    else match FirstMatch(cols, kws[0])
      case Some(i) => cols[i]
      case None => DefaultColumn(cols, kws[1..])
  }

  /** find_default: nested loops over keywords and columns with an early return.
      The callers pass the frame's columns, which the required-column check has
      already shown to be non-empty. */
  method FindDefault(colOptions: seq<string>, keywords: seq<string>) returns (col: string)
    requires |colOptions| > 0
    ensures col == DefaultColumn(colOptions, keywords)
    ensures col in colOptions
  {
    for k := 0 to |keywords|
      invariant DefaultColumn(colOptions, keywords) == DefaultColumn(colOptions, keywords[k..])
    {
      var kw := Lower(keywords[k]);
      for c := 0 to |colOptions|
        invariant forall i :: 0 <= i < c ==> !Matches(colOptions[i], keywords[k])
      {
        if Contains(Lower(colOptions[c]), kw) {
          assert keywords[k..][0] == keywords[k];
          return colOptions[c];
        }
      }
      assert keywords[k..][1..] == keywords[k + 1..];
    }
    return colOptions[0];
  }

  /** Keyword priority beats column position: the winning keyword is the first
      one matching any column, and within it the first matching column wins. */
  lemma DefaultColumnPriority(cols: seq<string>, kws: seq<string>, j: nat)
    requires |cols| > 0 && j < |kws|
    requires FirstMatch(cols, kws[j]).Some?
    requires forall j' :: 0 <= j' < j ==> FirstMatch(cols, kws[j']).None?
    ensures DefaultColumn(cols, kws) == cols[FirstMatch(cols, kws[j]).value]
  {
    if j > 0 {
      DefaultColumnPriority(cols, kws[1..], j - 1);
    }
  }

  /** With no keyword matching any column, the fallback is the first column. */
  lemma {:induction false} DefaultColumnFallback(cols: seq<string>, kws: seq<string>)
    requires |cols| > 0
    requires forall j, i :: 0 <= j < |kws| && 0 <= i < |cols| ==> !Matches(cols[i], kws[j])
    ensures DefaultColumn(cols, kws) == cols[0]
  {
    if kws != [] {
      DefaultColumnFallback(cols, kws[1..]);
    }
  }

  // ----- the three defaults (app.py:82-84) -----

  const OrderDateKeywords: seq<string> := ["order date", "date"]
  const SalesKeywords: seq<string> := ["sales", "revenue"]
  const ProfitKeywords: seq<string> := ["profit", "margin"]

  datatype Defaults = Defaults(orderDate: string, sales: string, profit: string)

  method ColumnDefaults(f: Frame) returns (d: Defaults)
    requires MissingColumns(f) == []
    ensures d == Defaults(DefaultColumn(f.columns, OrderDateKeywords),
                          DefaultColumn(f.columns, SalesKeywords),
                          DefaultColumn(f.columns, ProfitKeywords))
  {
    MissingColumnsExact(f, "Sales");
    var od := FindDefault(f.columns, OrderDateKeywords);
    var s := FindDefault(f.columns, SalesKeywords);
    var p := FindDefault(f.columns, ProfitKeywords);
    d := Defaults(od, s, p);
  }

  /** A label lower-cases to `low` when they agree character by character. */
  lemma LowersTo(s: string, low: string)
    requires |s| == |low| && forall i :: 0 <= i < |s| ==> LowerChar(s[i]) == low[i]
    ensures Lower(s) == low
  {
  }

  /** Lower-casing works character by character, so it distributes over concatenation. */
  lemma {:induction false} LowerAppend(a: string, b: string)
    ensures Lower(a + b) == Lower(a) + Lower(b)
  {
    if a != "" {
      assert (a + b)[1..] == a[1..] + b;
      LowerAppend(a[1..], b);
    }
  }

  lemma LowerOrderDate()
    ensures Lower("Order Date") == "order date" && Lower("order date") == "order date"
  {
    assert "Order Date" == "Order" + " Date" && "order date" == "order" + " date";
    LowerAppend("Order", " Date");
    LowerAppend("order", " date");
    LowersTo("Order", "order");
    LowersTo("order", "order");
    LowersTo(" Date", " date");
    LowersTo(" date", " date");
  }

  lemma LowerSales()
    ensures Lower("Sales") == "sales" && Lower("sales") == "sales"
  {
    LowersTo("Sales", "sales");
    LowersTo("sales", "sales");
  }

  lemma LowerProfit()
    ensures Lower("Profit") == "profit" && Lower("profit") == "profit"
  {
    LowersTo("Profit", "profit");
    LowersTo("profit", "profit");
  }

  /** A column whose lower-cased label contains the first keyword makes that
      keyword win: the default is the first such column. */
  lemma LiteralLabelWins(f: Frame, name: string, kws: seq<string>)
    requires |kws| > 0 && name in f.columns && Matches(name, kws[0])
    ensures FirstMatch(f.columns, kws[0]).Some?
    ensures DefaultColumn(f.columns, kws) == f.columns[FirstMatch(f.columns, kws[0]).value]
  {
    var k :| 0 <= k < |f.columns| && f.columns[k] == name;
    assert Matches(f.columns[k], kws[0]);
  }

  /** A label matches a keyword it lower-cases to. */
  lemma MatchesOwnLabel(name: string, kw: string)
    requires Lower(name) == Lower(kw)
    ensures Matches(name, kw)
  {
    assert IsPrefix(Lower(kw), Lower(name));
  }

  /** Once the literal required columns exist, the fallback never fires: each
      default is the first column whose lower-cased label contains
      "order date", "sales" or "profit" respectively. */
  lemma DefaultsAfterCheck(f: Frame)
    requires MissingColumns(f) == []
    ensures FirstMatch(f.columns, "order date").Some? && FirstMatch(f.columns, "sales").Some?
    ensures FirstMatch(f.columns, "profit").Some?
    ensures DefaultColumn(f.columns, OrderDateKeywords) == f.columns[FirstMatch(f.columns, "order date").value]
    ensures DefaultColumn(f.columns, SalesKeywords) == f.columns[FirstMatch(f.columns, "sales").value]
    ensures DefaultColumn(f.columns, ProfitKeywords) == f.columns[FirstMatch(f.columns, "profit").value]
  {
    MissingColumnsExact(f, "Order Date");
    LowerOrderDate();
    LowerSales();
    LowerProfit();
    MatchesOwnLabel("Order Date", "order date");
    MatchesOwnLabel("Sales", "sales");
    MatchesOwnLabel("Profit", "profit");
    LiteralLabelWins(f, "Order Date", OrderDateKeywords);
    LiteralLabelWins(f, "Sales", SalesKeywords);
    LiteralLabelWins(f, "Profit", ProfitKeywords);
  }

  /** A column named exactly "Sales" is not necessarily the default: an earlier
      column whose label merely contains "sales" wins. */
  lemma EarlierPartialMatchWins()
    ensures DefaultColumn(["Sales Rep", "Order Date", "Sales", "Profit"], SalesKeywords) == "Sales Rep"
  {
    var cols := ["Sales Rep", "Order Date", "Sales", "Profit"];
    assert "Sales Rep" == "Sales" + " Rep";
    LowerAppend("Sales", " Rep");
    LowerSales();
    var rest := Lower(" Rep");
    assert ("sales" + rest)[..5] == "sales";
    assert IsPrefix("sales", "sales" + rest);
    assert Matches(cols[0], "sales");
  }
}
