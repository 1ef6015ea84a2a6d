/** The "Atualizar Métricas" action: CTR, CPA and ROAS are recomputed from the
    raw counters of every row and written over their columns, one column after
    the other. Arithmetic is exact; rounding to two decimals is numpy's
    multiply-by-100, round-half-to-even, divide-by-100, taken over exact reals. */
module Metrics {
  import opened Campaigns

  function Abs(x: real): real { if x < 0.0 then -x else x }

  /** The integer nearest to `y`; a tie goes to the even neighbour. */
  function RoundHalfEven(y: real): (n: int)
    ensures Abs(n as real - y) <= 0.5
    ensures Abs(n as real - y) == 0.5 ==> n % 2 == 0
  {
    var f := y.Floor;
    var d := y - f as real;
    if d < 0.5 then f
    else if d > 0.5 then f + 1
    else if f % 2 == 0 then f
    else f + 1
  }

  /** No integer is closer to `y` than the rounded value. */
  lemma RoundHalfEvenIsNearest(y: real, k: int)
    ensures Abs(RoundHalfEven(y) as real - y) <= Abs(k as real - y)
  {
    var n := RoundHalfEven(y);
    if k != n {
      // k and n differ by at least one, and n is within a half of y
      assert k <= n - 1 || k >= n + 1;
    }
  }

  /** Rounding an integer gives it back. */
  lemma RoundHalfEvenOfInteger(k: int)
    ensures RoundHalfEven(k as real) == k
  {
    assert (k as real).Floor == k;
  }

  /** Round to two decimal places. */
  function Round2(x: real): (r: real)
    ensures Abs(r - x) <= 0.005
    ensures (r * 100.0).Floor as real == r * 100.0
    ensures Abs(r - x) == 0.005 ==> (r * 100.0).Floor % 2 == 0
  {
    var n := RoundHalfEven(x * 100.0);
    var r := n as real / 100.0;
    assert r * 100.0 == n as real && (n as real).Floor == n;
    assert r - x == (n as real - x * 100.0) / 100.0;
    assert Abs(r - x) == 0.005 ==> Abs(n as real - x * 100.0) == 0.5;
    r
  }

  /** A value already on the two-decimal grid is its own rounding, so rounding
      twice is rounding once. */
  lemma Round2Idempotent(x: real)
    ensures Round2(Round2(x)) == Round2(x)
  {
    var n := RoundHalfEven(x * 100.0);
    assert Round2(x) * 100.0 == n as real;
    RoundHalfEvenOfInteger(n);
  }

  /** Round2 of `num / den`, or Undefined when the column would hold infinity or
      NaN. */
  function RoundedRatio(num: real, den: real): (m: Metric)
    ensures m.Undefined? <==> den == 0.0
    ensures m.Defined? ==> Abs(m.value - num / den) <= 0.005
  {
    if den == 0.0 then Undefined else Defined(Round2(num / den))
  }

  /** CTR = round(Cliques / Impressões * 100, 2). */
  function Ctr(r: Campaign): (m: Metric)
    ensures m.Undefined? <==> r.impressions == 0
    ensures m.Defined? ==> Abs(m.value - r.clicks as real * 100.0 / r.impressions as real) <= 0.005
  {
    if r.impressions == 0 then Undefined
    else
      var q := r.clicks as real / r.impressions as real;
      assert q * 100.0 == r.clicks as real * 100.0 / r.impressions as real;
      Defined(Round2(q * 100.0))
  }

  /** CPA = round(Investimento / Conversões, 2). */
  function Cpa(r: Campaign): (m: Metric)
    ensures m.Undefined? <==> r.conversions == 0
    ensures m.Defined? ==> Abs(m.value - r.investment / r.conversions as real) <= 0.005
  {
    RoundedRatio(r.investment, r.conversions as real)
  }

  /** ROAS = round(Conversões * 100 / Investimento, 2). */
  function Roas(r: Campaign): (m: Metric)
    ensures m.Undefined? <==> r.investment == 0.0
    ensures m.Defined? ==> Abs(m.value - r.conversions as real * 100.0 / r.investment) <= 0.005
  {
    RoundedRatio(r.conversions as real * 100.0, r.investment)
  }

  /** Each recomputed metric sits on the two-decimal grid, so recomputing the
      metric of an already rounded value does not move it. */
  lemma MetricsOnGrid(r: Campaign)
    ensures Ctr(r).Defined? ==> Round2(Ctr(r).value) == Ctr(r).value
    ensures Cpa(r).Defined? ==> Round2(Cpa(r).value) == Cpa(r).value
    ensures Roas(r).Defined? ==> Round2(Roas(r).value) == Roas(r).value
  {
    if r.impressions != 0 {
      Round2Idempotent((r.clicks as real / r.impressions as real) * 100.0);
    }
    if r.conversions != 0 {
      Round2Idempotent(r.investment / r.conversions as real);
    }
    if r.investment != 0.0 {
      Round2Idempotent(r.conversions as real * 100.0 / r.investment);
    }
  }

  /** The worked examples: 1200 clicks over 50000 impressions give CTR 2.40,
      5000 invested over 120 conversions give CPA 41.67, and 120 conversions
      over 5000 invested give ROAS 2.40. */
  lemma ExampleFormulas()
    ensures Ctr(ExampleRows()[0]) == Defined(2.4)
    ensures Cpa(ExampleRows()[0]) == Defined(41.67)
    ensures Roas(ExampleRows()[0]) == Defined(2.4)
  {
    var r := ExampleRows()[0];
    assert (r.clicks as real / r.impressions as real) * 100.0 * 100.0 == 240.0;
    RoundHalfEvenOfInteger(240);
    var y := r.investment / r.conversions as real * 100.0;
    assert y * 3.0 == 12500.0;
    assert y.Floor == 4166 by {
      assert 4166.0 <= y < 4167.0;
    }
    assert RoundHalfEven(y) == 4167;
    assert r.conversions as real * 100.0 / r.investment * 100.0 == 240.0;
  }

  /** One row after the update: its three metric cells are recomputed, every
      other cell is as before. */
  function Recomputed(r: Campaign): (out: Campaign)
    ensures out.(ctr := r.ctr, cpa := r.cpa, roas := r.roas) == r
    ensures out.ctr == Ctr(out) && out.cpa == Cpa(out) && out.roas == Roas(out)
  {
    r.(ctr := Ctr(r), cpa := Cpa(r), roas := Roas(r))
  }

  /** The whole table after the update, row by row. */
  function RecomputeAll(rows: seq<Campaign>): (out: seq<Campaign>)
    ensures |out| == |rows|
  {
    seq(|rows|, i requires 0 <= i < |rows| => Recomputed(rows[i]))
  }

  /** Overwrite the CTR column (the first assignment of the update). */
  function WithCtrColumn(rows: seq<Campaign>): (out: seq<Campaign>)
    ensures |out| == |rows|
  {
    seq(|rows|, i requires 0 <= i < |rows| => rows[i].(ctr := Ctr(rows[i])))
  }

  /** Overwrite the CPA column (the second assignment). */
  function WithCpaColumn(rows: seq<Campaign>): (out: seq<Campaign>)
    ensures |out| == |rows|
  {
    seq(|rows|, i requires 0 <= i < |rows| => rows[i].(cpa := Cpa(rows[i])))
  }

  /** Overwrite the ROAS column (the third assignment). */
  function WithRoasColumn(rows: seq<Campaign>): (out: seq<Campaign>)
    ensures |out| == |rows|
  {
    seq(|rows|, i requires 0 <= i < |rows| => rows[i].(roas := Roas(rows[i])))
  }

  /** None of the formulas reads a metric cell, so a row's metrics depend only on
      the cells the update never writes. */
  lemma MetricsIgnoreMetricCells(r: Campaign, ctr: Metric, cpa: Metric, roas: Metric)
    ensures Ctr(r.(ctr := ctr, cpa := cpa, roas := roas)) == Ctr(r)
    ensures Cpa(r.(ctr := ctr, cpa := cpa, roas := roas)) == Cpa(r)
    ensures Roas(r.(ctr := ctr, cpa := cpa, roas := roas)) == Roas(r)
  {
  }

  /** Writing the three columns one after the other, as the dashboard does, is
      the row-by-row recomputation. */
  lemma ColumnwiseIsRowwise(rows: seq<Campaign>)
    ensures WithRoasColumn(WithCpaColumn(WithCtrColumn(rows))) == RecomputeAll(rows)
  {
    var a := WithCtrColumn(rows);
    var b := WithCpaColumn(a);
    var c := WithRoasColumn(b);
    forall i | 0 <= i < |rows|
      ensures c[i] == RecomputeAll(rows)[i]
    {
      MetricsIgnoreMetricCells(rows[i], Ctr(rows[i]), rows[i].cpa, rows[i].roas);
      MetricsIgnoreMetricCells(rows[i], Ctr(rows[i]), Cpa(rows[i]), rows[i].roas);
    }
  }

  /** The update keeps the row count and order and every non-metric cell. */
  lemma RecomputeKeepsOtherCells(rows: seq<Campaign>, i: int)
    requires 0 <= i < |rows|
    ensures |RecomputeAll(rows)| == |rows|
    ensures RecomputeAll(rows)[i].(ctr := rows[i].ctr, cpa := rows[i].cpa, roas := rows[i].roas) == rows[i]
  {
  }

  /** Applying the update twice is applying it once. */
  lemma RecomputeIdempotent(rows: seq<Campaign>)
    ensures RecomputeAll(RecomputeAll(rows)) == RecomputeAll(rows)
  {
    var once := RecomputeAll(rows);
    forall i | 0 <= i < |rows|
      ensures RecomputeAll(once)[i] == once[i]
    {
      MetricsIgnoreMetricCells(rows[i], Ctr(rows[i]), Cpa(rows[i]), Roas(rows[i]));
    }
  }

  /** The example table is not what the update produces from it: its first row
      stores ROAS 3.2 where the formula gives 2.40. */
  lemma ExampleIsNotFixedPoint()
    ensures RecomputeAll(ExampleRows()) != ExampleRows()
  {
    ExampleFormulas();
    assert RecomputeAll(ExampleRows())[0].roas == Defined(2.4);
    assert ExampleRows()[0].roas == Defined(3.2);
  }

  /** The column list after the update: pandas appends an assigned column that
      the table lacks, so CTR, CPA and ROAS are added at the end when missing. */
  function WithColumn(columns: seq<string>, c: string): (out: seq<string>)
    ensures c in out
    ensures forall x :: x in out <==> x in columns || x == c
    ensures |columns| <= |out| && out[..|columns|] == columns
    ensures |out| == |columns| + (if c in columns then 0 else 1)
  {
    if c in columns then columns else columns + [c]
  }

  function WithMetricColumns(columns: seq<string>): (out: seq<string>)
    ensures "CTR" in out && "CPA" in out && "ROAS" in out
    ensures forall x :: x in out <==> x in columns || x in ["CTR", "CPA", "ROAS"]
    ensures |columns| <= |out| && out[..|columns|] == columns
    ensures forall i :: |columns| <= i < |out| ==> out[i] !in columns && out[i] !in out[i + 1..]
  {
    WithColumn(WithColumn(WithColumn(columns, "CTR"), "CPA"), "ROAS")
  }
}
