/** The session's one piece of mutable state, the campaign table held under the
    key `df`, and the transitions the dashboard applies to it on each run:
    initialise when absent, load an upload, reset to the example, take the
    editor's result, recompute the metrics, and clear. */
module Session {
  import opened Campaigns
  import Metrics

  /** The reader an upload goes to, chosen by the file name alone. */
  datatype Reader = Excel | Csv

  function ReaderFor(fileName: string): (r: Reader)
    ensures r == Excel <==> |fileName| >= 5 && fileName[|fileName| - 5..] == ".xlsx"
  {
    if |fileName| >= 5 && fileName[|fileName| - 5..] == ".xlsx" then Excel else Csv
  }

  /** A name that ends in ".xlsx" goes to the spreadsheet reader and one that
      ends in ".csv" to the CSV reader. The ".xls" case, a name the uploader
      itself refuses, shows that the suffix test is an exact match. */
  lemma ReaderBySuffix(stem: string)
    ensures ReaderFor(stem + ".xlsx") == Excel
    ensures ReaderFor(stem + ".xls") == Csv
    ensures ReaderFor(stem + ".csv") == Csv
  {
    assert (stem + ".xlsx")[|stem + ".xlsx"| - 5..] == ".xlsx";
    if |stem + ".xls"| >= 5 {
      assert (stem + ".xls")[|stem + ".xls"| - 5..][4] == 's';
    }
    if |stem + ".csv"| >= 5 {
      assert (stem + ".csv")[|stem + ".csv"| - 5..][4] == 'v';
    }
  }

  /** The state of the upload control on one run: nothing chosen, a file its
      reader parsed into a table, or a file its reader raised an error on. */
  datatype Upload = NoFile | Parsed(table: Table) | Unreadable(message: string)

  class DashboardSession {
    /** Whether the session already holds the key `df`. */
    var initialised: bool
    var columns: seq<string>
    var rows: seq<Campaign>

    /** The table the session holds. */
    function Current(): (t: Table)
      reads this
      ensures t.columns == columns && t.rows == rows
    {
      Table(columns, rows)
    }

    /** A new session, before the first run has stored anything. */
    constructor ()
      ensures !initialised && columns == [] && rows == []
    {
      initialised := false;
      columns := [];
      rows := [];
    }

    /** Every run starts here: the example table is stored only when the key is
        absent, so a table loaded, edited or cleared earlier survives. */
    method Init()
      modifies this
      ensures initialised
      ensures old(initialised) ==> Current() == old(Current())
      ensures !old(initialised) ==> Current() == Example()
    {
      if !initialised {
        columns, rows := Example().columns, Example().rows;
        initialised := true;
      }
    }

    /** A parsed upload replaces the table wholesale; a reader error or no file
        leaves it as it was. `loaded` is true exactly when the table was
        replaced (the success message and balloons). */
    method LoadUpload(u: Upload) returns (loaded: bool)
      requires initialised
      modifies this
      ensures initialised
      ensures loaded <==> u.Parsed?
      ensures u.Parsed? ==> Current() == u.table
      ensures !u.Parsed? ==> Current() == old(Current())
    {
      match u {
        case Parsed(t) =>
          columns, rows := t.columns, t.rows;
          loaded := true;
        case _ =>
          loaded := false;
      }
    }

    /** "Restaurar Dados Originais": the example table again, whatever was held. */
    method Reset()
      requires initialised
      modifies this
      ensures initialised && Current() == Example()
    {
      columns, rows := Example().columns, Example().rows;
    }

    /** The data editor's result is stored only when it differs from the held
        table, and then the page reruns (`rerun`). Either way the session ends
        up holding the editor's table. */
    method ApplyEdit(edited: Table) returns (rerun: bool)
      requires initialised
      modifies this
      ensures initialised
      ensures rerun <==> edited != old(Current())
      ensures Current() == edited
    {
      rerun := edited != Current();
      if rerun {
        columns, rows := edited.columns, edited.rows;
      }
    }

    /** "Atualizar Métricas": the CTR, CPA and ROAS columns are overwritten in
        turn from the raw counters; a metric column the table lacks is added at
        the end of the column list. Rows, their order and every other cell are
        kept. */
    method UpdateMetrics()
      requires initialised
      modifies this
      ensures initialised
      ensures columns == Metrics.WithMetricColumns(old(columns))
      ensures rows == Metrics.RecomputeAll(old(rows))
    {
      rows := Metrics.WithCtrColumn(rows);
      columns := Metrics.WithColumn(columns, "CTR");
      rows := Metrics.WithCpaColumn(rows);
      columns := Metrics.WithColumn(columns, "CPA");
      rows := Metrics.WithRoasColumn(rows);
      columns := Metrics.WithColumn(columns, "ROAS");
      Metrics.ColumnwiseIsRowwise(old(rows));
    }

    /** "Limpar Dados": an empty table with the same columns. */
    method Clear()
      requires initialised
      modifies this
      ensures initialised
      ensures columns == old(columns) && rows == []
    {
      rows := [];
    }
  }

  /** A fresh session's first run shows the example; a second metric update
      changes nothing; reset after clear restores all five example rows. */
  method SessionScenario(edit: Table)
  {
    var s := new DashboardSession();
    s.Init();
    assert s.Current() == Example();
    s.Init();
    assert s.Current() == Example();
    var loaded := s.LoadUpload(Unreadable("bad file"));
    assert !loaded && s.Current() == Example();
    s.UpdateMetrics();
    var once := s.rows;
    s.UpdateMetrics();
    Metrics.RecomputeIdempotent(Example().rows);
    assert s.rows == once;
    s.Clear();
    assert s.rows == [] && s.columns == ExampleColumns();
    s.Reset();
    assert |s.rows| == 5;
    var rerun := s.ApplyEdit(edit);
    assert s.Current() == edit;
    rerun := s.ApplyEdit(edit);
    assert !rerun;
  }
}
