/** The campaign table of the marketing dashboard: one record per campaign row,
    the derived-metric cell type, and the built-in example table that the
    session starts from and is reset to. */
module Campaigns {

  /** A derived-metric cell (CTR, CPA, ROAS). `Undefined` stands for every value
      a division by zero leaves in the column (infinity of either sign or NaN);
      the model does not tell them apart. */
  datatype Metric = Defined(value: real) | Undefined

  /** One row of the table, with the fixed core schema. Column headers:
      name = "Campanha", investment = "Investimento", clicks = "Cliques",
      impressions = "Impressões", conversions = "Conversões", ctr = "CTR",
      cpa = "CPA", roas = "ROAS", status = "Status", platform = "Plataforma",
      channel = "Canal". Nothing in the dashboard enforces a sign or a range on
      the counters, so they are plain integers. */
  datatype Campaign = Campaign(
    name: string,
    investment: real,
    clicks: int,
    impressions: int,
    conversions: int,
    ctr: Metric,
    cpa: Metric,
    roas: Metric,
    status: string,
    platform: string,
    channel: string)

  /** A whole table: its column list (kept by "clear") and its rows, in order. */
  datatype Table = Table(columns: seq<string>, rows: seq<Campaign>)

  /** The column headers of the example table, in declaration order. */
  function ExampleColumns(): (cs: seq<string>)
    ensures |cs| == 11 && cs[0] == "Campanha" && cs[10] == "Canal"
    ensures "CTR" in cs && "CPA" in cs && "ROAS" in cs
  {
    ["Campanha", "Investimento", "Cliques", "Impressões", "Conversões",
     "CTR", "CPA", "ROAS", "Status", "Plataforma", "Canal"]
  }

  /** The five example campaigns, with their stored (not recomputed) metrics. */
  function ExampleRows(): (rows: seq<Campaign>)
    ensures |rows| == 5
    ensures forall i :: 0 <= i < |rows| ==> rows[i].impressions > 0 && rows[i].conversions > 0 && rows[i].investment > 0.0
  {
    [ Campaign("Verão 2023", 5000.0, 1200, 50000, 120,
               Defined(2.4), Defined(41.67), Defined(3.2), "Ativa", "Google Ads", "Search"),
      Campaign("Black Friday", 15000.0, 3500, 150000, 350,
               Defined(2.3), Defined(42.86), Defined(4.1), "Concluída", "Facebook Ads", "Feed"),
      Campaign("Natal", 10000.0, 2800, 120000, 210,
               Defined(2.1), Defined(47.62), Defined(3.8), "Concluída", "Google Ads", "Display"),
      Campaign("Ano Novo", 8000.0, 2100, 90000, 180,
               Defined(2.6), Defined(44.44), Defined(3.5), "Pausada", "Facebook Ads", "Stories"),
      Campaign("Dia das Mães", 7000.0, 1900, 85000, 160,
               Defined(2.2), Defined(43.75), Defined(3.7), "Ativa", "Instagram Ads", "Reels") ]
  }

  /** The example table built on every session start and on reset. */
  function Example(): (t: Table)
    ensures t.columns == ExampleColumns() && |t.rows| == 5
  {
    Table(ExampleColumns(), ExampleRows())
  }
}
