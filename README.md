# Marketing dashboard campaign table — Dafny model

`painel_marketing.py` is a single-page Streamlit dashboard over one table of
marketing campaigns, held in the session under the key `df`. This project
models the rule set behind the page:

- **The campaign table** (`campaigns.dfy`, module `Campaigns`): one record per
  row with the fixed core schema (Campanha, Investimento, Cliques, Impressões,
  Conversões, CTR, CPA, ROAS, Status, Plataforma, Canal), a column list, and
  the five-row example table built by `criar_dados_exemplo`.
- **The session table's lifecycle** (`session.dfy`, class
  `Session.DashboardSession`): initialise from the example when absent, load a
  parsed upload wholesale or keep the table on a reader error, reset to the
  example, store the data editor's result only when it differs, recompute the
  metric columns in place, and clear the rows while keeping the columns.
- **The "Atualizar Métricas" update** (`metrics.dfy`, module `Metrics`): CTR,
  CPA and ROAS are overwritten column by column from the raw counters, in exact
  arithmetic. Rounding to two decimals is numpy's scheme (multiply by 100,
  round half to even, divide by 100) over exact reals. A zero denominator gives
  the explicit value `Undefined` where pandas would store infinity or NaN.
- **The Análise tab** (`analysis.dfy`, module `Analysis`): the three
  multiselects default to the distinct values of Status, Plataforma and Canal
  in order of first appearance. The boolean mask keeps a row when all three of
  its values are selected, in table order. The two summary totals are shown
  only for a non-empty filtered table; otherwise the tab shows a warning.

Facts about the code that shape the model:

- The metric update assigns the three columns of the held table in place
  (painel_marketing.py:163-165); a metric column the table lacks is appended
  to the column list.
- The code does not guard the denominators: a zero Impressões, Conversões or
  Investimento leaves infinity or NaN in the column. The model's `Undefined`
  marks exactly those cells.
- Status, Plataforma and Canal are free strings: the editor offers fixed
  options (painel_marketing.py:128-139), but an upload may hold any value.
- The example table's stored CTR and ROAS are not what the update computes
  (row 1 stores ROAS 3.2; the formula gives 2.40), so the example is not a
  fixed point of the update (`Metrics.ExampleIsNotFixedPoint`).

## Model

| member | source | states |
|---|---|---|
| Campaigns.ExampleColumns | painel_marketing.py:17-29 | the example has eleven columns, from Campanha to Canal, among them CTR, CPA and ROAS |
| Campaigns.ExampleRows | painel_marketing.py:18-28 | the example has five rows, each with positive Impressões, Conversões and Investimento, so every metric of the example is defined |
| Campaigns.Example | painel_marketing.py:16-29 | the example table has the example columns and five rows |
| Metrics.RoundHalfEven | painel_marketing.py:163-165 | the rounded integer is within one half of its argument, and an exact tie goes to the even neighbour |
| Metrics.RoundHalfEvenIsNearest | painel_marketing.py:163-165 | no integer is closer to the argument than its rounding |
| Metrics.RoundHalfEvenOfInteger | painel_marketing.py:163-165 | rounding an integer returns it unchanged |
| Metrics.Round2 | painel_marketing.py:163-165 | rounding to two decimals moves a value by at most 0.005, lands on the hundredths grid, and breaks an exact tie towards an even number of hundredths |
| Metrics.Round2Idempotent | painel_marketing.py:163-165 | rounding to two decimals twice is rounding once |
| Metrics.RoundedRatio | painel_marketing.py:164-165 | a rounded quotient is undefined exactly when the denominator is zero, and otherwise within 0.005 of the exact quotient |
| Metrics.Ctr | painel_marketing.py:163 | CTR is undefined exactly when Impressões is zero, and otherwise within 0.005 of Cliques·100/Impressões |
| Metrics.Cpa | painel_marketing.py:164 | CPA is undefined exactly when Conversões is zero, and otherwise within 0.005 of Investimento/Conversões |
| Metrics.Roas | painel_marketing.py:165 | ROAS is undefined exactly when Investimento is zero, and otherwise within 0.005 of Conversões·100/Investimento |
| Metrics.Recomputed | painel_marketing.py:163-165 | a recomputed row differs from the old one only in CTR, CPA and ROAS, and its three metrics agree with its own counters |
| Metrics.MetricsOnGrid | painel_marketing.py:163-165 | every defined recomputed metric is already a two-decimal value |
| Metrics.ExampleFormulas | painel_marketing.py:19-22 | for the first example row, CTR is 2.40, CPA is 41.67 and ROAS is 2.40 |
| Metrics.RecomputeAll | painel_marketing.py:163-165 | the update keeps the number of rows |
| Metrics.WithCtrColumn | painel_marketing.py:163 | overwriting the CTR column keeps the number of rows |
| Metrics.WithCpaColumn | painel_marketing.py:164 | overwriting the CPA column keeps the number of rows |
| Metrics.WithRoasColumn | painel_marketing.py:165 | overwriting the ROAS column keeps the number of rows |
| Metrics.MetricsIgnoreMetricCells | painel_marketing.py:163-165 | the formulas read no metric cell: changing a row's CTR, CPA or ROAS does not change what the update computes for it |
| Metrics.ColumnwiseIsRowwise | painel_marketing.py:163-165 | the three column assignments in sequence give every row its three recomputed metrics and nothing else |
| Metrics.RecomputeKeepsOtherCells | painel_marketing.py:163-165 | after the update, row count, row order and every cell outside CTR, CPA and ROAS are as before |
| Metrics.RecomputeIdempotent | painel_marketing.py:163-165 | applying the update twice equals applying it once |
| Metrics.ExampleIsNotFixedPoint | painel_marketing.py:23-25 | the update changes the example table (its first ROAS goes from 3.2 to 2.40) |
| Metrics.WithColumn | painel_marketing.py:163-165 | assigning a column keeps the existing column list as a prefix and adds the column at the end, one entry longer, exactly when it is missing |
| Metrics.WithMetricColumns | painel_marketing.py:163-165 | after the update the column list holds CTR, CPA and ROAS, keeps every earlier column in its place, and gains only metric columns it lacked, each once |
| Analysis.Unique | painel_marketing.py:183-198 | the distinct values of a column hold every value of the column and nothing else, without repeats |
| Analysis.StatusColumn | painel_marketing.py:183-184 | the Status column lists each row's status, one entry per row, in row order |
| Analysis.PlatformColumn | painel_marketing.py:190-191 | the Plataforma column lists each row's platform, one entry per row, in row order |
| Analysis.ChannelColumn | painel_marketing.py:197-198 | the Canal column lists each row's channel, one entry per row, in row order |
| Analysis.DefaultSelection | painel_marketing.py:181-200 | each default selection holds exactly the values present in its column, and every row of the table matches the defaults |
| Analysis.Matches | painel_marketing.py:204-206 | a row can match only when none of the three selections is empty |
| Analysis.Filter | painel_marketing.py:203-207 | every kept row is a row of the table whose Status, Plataforma and Canal are all selected, and no more rows are kept than the table has |
| Analysis.FilterAppend | painel_marketing.py:203-207 | filtering a concatenation is concatenating the filtered parts, so relative row order is kept |
| Analysis.FilterIsSubsequence | painel_marketing.py:203-207 | the filtered table is an order-preserving subsequence of the table |
| Analysis.FilterComplete | painel_marketing.py:203-207 | every row of the table whose three values are all selected is kept |
| Analysis.FilterMembership | painel_marketing.py:203-207 | a row is kept if and only if it is in the table and its three values are all selected |
| Analysis.FilterAllMatch | painel_marketing.py:203-207 | when every row matches the selection, the filter returns the table unchanged |
| Analysis.FilterIdempotent | painel_marketing.py:203-207 | filtering twice with the same selection is filtering once |
| Analysis.DefaultFilterIsIdentity | painel_marketing.py:181-207 | with each multiselect at its default (the column's distinct values) the filter returns the whole table |
| Analysis.EmptySelectionFiltersAll | painel_marketing.py:203-207 | an empty selection in any of the three filters leaves no rows |
| Analysis.TotalInvested | painel_marketing.py:214 | "Total Investido" is non-negative when every Investimento is |
| Analysis.TotalConversions | painel_marketing.py:216 | "Conversões Totais" is non-negative when every Conversões is |
| Analysis.TotalsAppend | painel_marketing.py:214-216 | the Investimento and Conversões totals of a concatenation are the sums of the parts' totals |
| Analysis.FilteredTotalsBounded | painel_marketing.py:203-216 | with non-negative Investimento and Conversões, the filtered totals are between zero and the whole table's totals |
| Analysis.Summarize | painel_marketing.py:209-216 | the summary is absent exactly when the filtered table is empty |
| Analysis.FilterEmptyIffNoMatch | painel_marketing.py:203-209 | the filtered table is empty if and only if no row of the table matches the selection |
| Analysis.Analyse | painel_marketing.py:203-216 | the tab shows the warning exactly when no row matches, and otherwise the totals of the filtered rows |
| Analysis.EmptySelectionWarns | painel_marketing.py:203-209 | an empty selection in any filter shows the warning instead of the summary |
| Analysis.DefaultAnalysisTotalsTable | painel_marketing.py:181-216 | with the default selections, a non-empty table's summary totals every row, and an empty table shows the warning |
| Analysis.ExampleTotals | painel_marketing.py:19-22 | the example table's default summary is R$ 45000 invested and 1020 conversions |
| Session.ReaderFor | painel_marketing.py:82-85 | an upload goes to the spreadsheet reader exactly when its name ends in ".xlsx", and to the CSV reader otherwise |
| Session.ReaderBySuffix | painel_marketing.py:82-85 | names ending in ".xlsx" are read as spreadsheets; names ending in ".xls" or ".csv" are read as CSV |
| Session.DashboardSession.constructor | painel_marketing.py:42 | a new session holds no table yet |
| Session.DashboardSession.Init | painel_marketing.py:42-43 | the example is stored only when the session holds no table; a held table is kept |
| Session.DashboardSession.LoadUpload | painel_marketing.py:80-91 | a parsed upload replaces the table wholesale; a reader error or no file leaves it unchanged; the success flag is set exactly on replacement |
| Session.DashboardSession.Reset | painel_marketing.py:94-95 | reset stores exactly the five-row example table |
| Session.DashboardSession.ApplyEdit | painel_marketing.py:146-148 | the editor's table is stored, and a rerun is requested exactly when it differs from the held table |
| Session.DashboardSession.UpdateMetrics | painel_marketing.py:161-165 | the rows become their recomputation and the column list gains the missing metric columns |
| Session.DashboardSession.Clear | painel_marketing.py:170-171 | clear keeps the column list and drops every row |

## Left out

- Streamlit layout, tabs, column configuration, spinners, messages, balloons and
  `st.rerun` control flow: UI plumbing. Only the state changes behind the
  buttons are modelled, and `ApplyEdit` returns the rerun request as a flag.
- Session.DashboardSession.LoadUpload: Streamlit re-executes the page on every
  interaction and the uploader keeps returning the chosen file, so the upload
  block re-reads and re-stores it on every run while it stays selected. The
  model applies an upload once per call and does not capture that a selected
  file undoes a later reset, edit or metric update on the next run.
- The "Conectar Google Ads" and "Conectar Meta Ads" forms: placeholders built
  on `time.sleep` that change no state.
- File parsing (`pd.read_excel`, `pd.read_csv`) and the Excel export
  (`to_excel`, the download button): foreign binary and text formats. An upload
  is modelled as its reader's outcome, a parsed table or an error.
- Plotly charts, including the LOWESS trendline: rendering only.
- The "CTR Médio" and "ROAS Médio" means, the correlation matrix and the
  descriptive statistics of the "Dashboard Interativo" tab: floating-point
  statistics inside pandas. The tab's guards on an empty table and on fewer
  than two numeric columns go with them.
- Metrics.Round2: exact-real rounding. Binary float representation error is
  not modelled, so values that numpy rounds differently because of it (2.675
  becomes 2.67) are not reproduced.
- Campaigns.Metric: infinity of either sign and NaN are all `Undefined`.
- Uploaded tables of other shapes: rows have the fixed core schema. A missing
  column, which makes pandas raise KeyError in the filter or the update, is not
  modelled.
- The multiselects keep a user's earlier choice across reruns. Only the
  default selection is modelled; any other selection is a parameter.
- The data editor's added rows with empty cells: the edited table is a
  parameter of `ApplyEdit`.
- Session.DashboardSession.ApplyEdit: `DataFrame.equals` also tells apart
  columns of different dtypes holding equal values; the model compares values
  only (two `Undefined` cells are equal, as two NaN cells are for `equals`).
- The formatting of the totals (`R$ {:,.2f}`, thousands separators) is display
  only. Integers are unbounded; pandas' 64-bit counters could overflow on
  totals beyond 2^63, and that is not modelled.
