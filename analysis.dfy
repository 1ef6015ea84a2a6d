/** The "Análise" tab: three multiselect filters whose options and defaults are
    the distinct values of the Status, Plataforma and Canal columns, the
    conjunctive boolean-mask filter over the session table, and the summary
    totals shown only when the filtered table is not empty. */
module Analysis {
  import opened Campaigns

  datatype Option<T> = None | Some(value: T)

  /** The distinct values of a column in order of first appearance. */
  function Unique(s: seq<string>): (u: seq<string>)
    ensures forall x :: x in u <==> x in s
    ensures forall i, j :: 0 <= i < j < |u| ==> u[i] != u[j]
    ensures |u| <= |s|
  {
    if s == [] then []
    else
      var rest := Unique(s[..|s| - 1]);
      assert forall x :: x in s <==> x in s[..|s| - 1] || x == s[|s| - 1];
      if s[|s| - 1] in rest then rest else rest + [s[|s| - 1]]
  }

  function StatusColumn(rows: seq<Campaign>): (c: seq<string>)
    ensures |c| == |rows| && forall i :: 0 <= i < |rows| ==> c[i] == rows[i].status
  {
    seq(|rows|, i requires 0 <= i < |rows| => rows[i].status)
  }

  function PlatformColumn(rows: seq<Campaign>): (c: seq<string>)
    ensures |c| == |rows| && forall i :: 0 <= i < |rows| ==> c[i] == rows[i].platform
  {
    seq(|rows|, i requires 0 <= i < |rows| => rows[i].platform)
  }

  function ChannelColumn(rows: seq<Campaign>): (c: seq<string>)
    ensures |c| == |rows| && forall i :: 0 <= i < |rows| ==> c[i] == rows[i].channel
  {
    seq(|rows|, i requires 0 <= i < |rows| => rows[i].channel)
  }

  /** What the three multiselects hold: the chosen Status, Plataforma and Canal
      values. */
  datatype Selection = Selection(statuses: seq<string>, platforms: seq<string>, channels: seq<string>)

  /** The widgets' initial selection: every distinct value of each column. */
  function DefaultSelection(rows: seq<Campaign>): (d: Selection)
    ensures forall x :: x in d.statuses <==> x in StatusColumn(rows)
    ensures forall x :: x in d.platforms <==> x in PlatformColumn(rows)
    ensures forall x :: x in d.channels <==> x in ChannelColumn(rows)
    ensures forall i :: 0 <= i < |rows| ==> Matches(rows[i], d)
  {
    Selection(Unique(StatusColumn(rows)), Unique(PlatformColumn(rows)), Unique(ChannelColumn(rows)))
  }

  /** The boolean mask of one row: `isin` on each of the three columns, and-ed. */
  predicate Matches(r: Campaign, sel: Selection)
    ensures Matches(r, sel) ==> sel.statuses != [] && sel.platforms != [] && sel.channels != []
  {
    r.status in sel.statuses && r.platform in sel.platforms && r.channel in sel.channels
  }

  /** The rows whose mask is true, in table order. */
  function Filter(rows: seq<Campaign>, sel: Selection): (kept: seq<Campaign>)
    ensures |kept| <= |rows|
    ensures forall r :: r in kept ==> r in rows && Matches(r, sel)
  {
    if rows == [] then []
    else if Matches(rows[0], sel) then [rows[0]] + Filter(rows[1..], sel)
    else Filter(rows[1..], sel)
  }

  /** `xs` is `ys` with some rows left out and the rest in their order. */
  ghost predicate IsSubsequence(xs: seq<Campaign>, ys: seq<Campaign>)
    decreases |ys|
  {
    if xs == [] then true
    else if ys == [] then false
    else (xs[0] == ys[0] && IsSubsequence(xs[1..], ys[1..])) || IsSubsequence(xs, ys[1..])
  }

  /** Filtering distributes over concatenation: it keeps relative order. */
  lemma {:induction false} FilterAppend(xs: seq<Campaign>, ys: seq<Campaign>, sel: Selection)
    ensures Filter(xs + ys, sel) == Filter(xs, sel) + Filter(ys, sel)
  {
    if xs == [] {
      assert xs + ys == ys;
    } else {
      assert (xs + ys)[1..] == xs[1..] + ys;
      FilterAppend(xs[1..], ys, sel);
    }
  }

  /** The filtered table is an order-preserving subsequence of the table. */
  lemma {:induction false} FilterIsSubsequence(rows: seq<Campaign>, sel: Selection)
    ensures IsSubsequence(Filter(rows, sel), rows)
  {
    if rows != [] {
      FilterIsSubsequence(rows[1..], sel);
      var kept := Filter(rows, sel);
      if Matches(rows[0], sel) {
        assert kept[1..] == Filter(rows[1..], sel);
      } else if kept != [] {
        assert IsSubsequence(kept, rows[1..]);
      }
    }
  }

  /** Completeness: a row of the table whose three values are all selected is
      in the filtered table. */
  lemma {:induction false} FilterComplete(rows: seq<Campaign>, sel: Selection, r: Campaign)
    requires r in rows && Matches(r, sel)
    ensures r in Filter(rows, sel)
  {
    if rows[0] != r {
      FilterComplete(rows[1..], sel, r);
    }
  }

  /** A row is kept exactly when it is in the table and all three of its values
      are selected. */
  lemma FilterMembership(rows: seq<Campaign>, sel: Selection, r: Campaign)
    ensures r in Filter(rows, sel) <==> r in rows && Matches(r, sel)
  {
    if r in rows && Matches(r, sel) {
      FilterComplete(rows, sel, r);
    }
  }

  /** When every row matches, the filter returns the table unchanged. */
  lemma {:induction false} FilterAllMatch(rows: seq<Campaign>, sel: Selection)
    requires forall i :: 0 <= i < |rows| ==> Matches(rows[i], sel)
    ensures Filter(rows, sel) == rows
  {
    if rows != [] {
      FilterAllMatch(rows[1..], sel);
    }
  }

  /** Filtering twice with the same selection is filtering once. */
  lemma {:induction false} FilterIdempotent(rows: seq<Campaign>, sel: Selection)
    ensures Filter(Filter(rows, sel), sel) == Filter(rows, sel)
  {
    var kept := Filter(rows, sel);
    forall i | 0 <= i < |kept|
      ensures Matches(kept[i], sel)
    {
      assert kept[i] in kept;
    }
    FilterAllMatch(kept, sel);
  }

  /** With the default selections the filter is the identity. */
  lemma DefaultFilterIsIdentity(rows: seq<Campaign>)
    ensures Filter(rows, DefaultSelection(rows)) == rows
  {
    var sel := DefaultSelection(rows);
    forall i | 0 <= i < |rows|
      ensures Matches(rows[i], sel)
    {
      assert StatusColumn(rows)[i] in StatusColumn(rows);
      assert PlatformColumn(rows)[i] in PlatformColumn(rows);
      assert ChannelColumn(rows)[i] in ChannelColumn(rows);
    }
    FilterAllMatch(rows, sel);
  }

  /** Nothing selected in any one of the three filters leaves no row. */
  lemma EmptySelectionFiltersAll(rows: seq<Campaign>, sel: Selection)
    requires sel.statuses == [] || sel.platforms == [] || sel.channels == []
    ensures Filter(rows, sel) == []
  {
  }

  /** "Total Investido": the sum of the Investimento column. */
  function TotalInvested(rows: seq<Campaign>): (t: real)
    ensures (forall i :: 0 <= i < |rows| ==> rows[i].investment >= 0.0) ==> t >= 0.0
  {
    if rows == [] then 0.0 else rows[0].investment + TotalInvested(rows[1..])
  }

  /** "Conversões Totais": the sum of the Conversões column. */
  function TotalConversions(rows: seq<Campaign>): (t: int)
    ensures (forall i :: 0 <= i < |rows| ==> rows[i].conversions >= 0) ==> t >= 0
  {
    if rows == [] then 0 else rows[0].conversions + TotalConversions(rows[1..])
  }

  lemma {:induction false} TotalsAppend(xs: seq<Campaign>, ys: seq<Campaign>)
    ensures TotalInvested(xs + ys) == TotalInvested(xs) + TotalInvested(ys)
    ensures TotalConversions(xs + ys) == TotalConversions(xs) + TotalConversions(ys)
  {
    if xs == [] {
      assert xs + ys == ys;
    } else {
      assert (xs + ys)[1..] == xs[1..] + ys;
      TotalsAppend(xs[1..], ys);
    }
  }

  /** With non-negative Investimento and Conversões, the totals of a filtered
      table never exceed those of the whole table. */
  lemma {:induction false} FilteredTotalsBounded(rows: seq<Campaign>, sel: Selection)
    requires forall i :: 0 <= i < |rows| ==> rows[i].investment >= 0.0 && rows[i].conversions >= 0
    ensures 0.0 <= TotalInvested(Filter(rows, sel)) <= TotalInvested(rows)
    ensures 0 <= TotalConversions(Filter(rows, sel)) <= TotalConversions(rows)
  {
    if rows != [] {
      FilteredTotalsBounded(rows[1..], sel);
    }
  }

  /** The four summary cards; only the two totals are modelled. */
  datatype Summary = Summary(totalInvested: real, totalConversions: int)

  /** The summary is shown only for a non-empty filtered table; otherwise the tab
      shows the "no data" warning instead. */
  function Summarize(kept: seq<Campaign>): (s: Option<Summary>)
    ensures s.None? <==> kept == []
  {
    if kept == [] then None
    else Some(Summary(TotalInvested(kept), TotalConversions(kept)))
  }

  /** The filtered table is empty exactly when no row of the table matches. */
  lemma FilterEmptyIffNoMatch(rows: seq<Campaign>, sel: Selection)
    ensures Filter(rows, sel) == [] <==> forall i :: 0 <= i < |rows| ==> !Matches(rows[i], sel)
  {
    forall i | 0 <= i < |rows| && Matches(rows[i], sel)
      ensures Filter(rows, sel) != []
    {
      FilterComplete(rows, sel, rows[i]);
    }
  }

  /** What the Análise tab shows for a table and a selection: the warning
      exactly when no row matches, otherwise the totals of the matching rows. */
  function Analyse(rows: seq<Campaign>, sel: Selection): (a: Option<Summary>)
    ensures a.None? <==> forall i :: 0 <= i < |rows| ==> !Matches(rows[i], sel)
    ensures a.Some? ==> a.value == Summary(TotalInvested(Filter(rows, sel)), TotalConversions(Filter(rows, sel)))
  {
    FilterEmptyIffNoMatch(rows, sel);
    Summarize(Filter(rows, sel))
  }

  /** An empty selection in any of the three filters shows the warning. */
  lemma EmptySelectionWarns(rows: seq<Campaign>, sel: Selection)
    requires sel.statuses == [] || sel.platforms == [] || sel.channels == []
    ensures Analyse(rows, sel) == None
  {
    EmptySelectionFiltersAll(rows, sel);
  }

  /** With the default selections, a non-empty table's summary totals the whole
      table, and an empty table shows the warning. */
  lemma DefaultAnalysisTotalsTable(rows: seq<Campaign>)
    ensures rows == [] ==> Analyse(rows, DefaultSelection(rows)) == None
    ensures rows != [] ==> Analyse(rows, DefaultSelection(rows)) == Some(Summary(TotalInvested(rows), TotalConversions(rows)))
  {
    DefaultFilterIsIdentity(rows);
  }

  /** The example table's totals: R$ 45000 invested and 1020 conversions. */
  lemma ExampleTotals()
    ensures Analyse(ExampleRows(), DefaultSelection(ExampleRows())) == Some(Summary(45000.0, 1020))
  {
    DefaultAnalysisTotalsTable(ExampleRows());
  }
}
