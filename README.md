# Cloud cost optimisation dashboard — verified model of its data pipeline

The dashboard in `app.py` reads a list of billing records, each
`{date, project, service, cloud_provider, cost, cpu_utilization}`, and:

1. filters them with two sidebar selectors, project and cloud provider, where the
   value `"All"` switches a selector off and any other value keeps only the records
   whose column equals it exactly;
2. shows the total spend (sum of `cost`) and the average CPU utilisation (mean of
   `cpu_utilization`) of the filtered records;
3. plots the daily cost per service, a pivot grouping the filtered records by
   `(date, service)` and summing `cost`;
4. walks the filtered records in order and emits, per record, an "underutilised"
   recommendation when `cpu_utilization < 0.3` and then a "high cost" alert when
   `cost > 200`;
5. shows "all services are operating efficiently" exactly when that list is empty,
   provided the script got that far (see below).

When the filtered selection is empty, the pivot of step 3 has no data. Plotting it
raises an error, and the script stops before the recommendations panel. So in that
case neither the list nor the efficiency message is shown.

This project models that pipeline in Dafny and proves its properties.

- `records.dfy` (module `Records`): the billing record and the `(date, service)` pivot key.
- `filter.dfy` (module `Filter`): the two selectors as order-preserving masks, the
  combined filter, and the subsequence relation. A single-pass reference filter is
  proved equal to the combined filter. Lemmas prove it is a subsequence of the input,
  idempotent, and independent of selector order.
- `aggregates.dfy` (module `Aggregates`): total spend, mean CPU utilisation and the
  pivot. Each pivot cell is proved to equal the total spend of its group, and the
  cells are proved to add up to the total spend.
- `advice.dfy` (module `Advice`): the recommendation messages as a datatype, the
  per-record rules, the loop as a method proved against a specification function,
  and the efficiency outcome.
- `dashboard.dfy` (module `Dashboard`): the script end to end, as one method returning
  every displayed value, including the stop before the recommendations panel on an
  empty selection.

Modelling choices:
- `cost` and `cpu_utilization` are exact `real`s.
- A date is an opaque day number. It is only compared for equality when grouping.
- Selectors are strings compared with `"All"` exactly as `app.py:21` and `app.py:23` do.
  So a project or provider literally named `"All"` cannot be singled out. The model keeps
  this behaviour.
- The pivot is a map holding only the `(date, service)` pairs that occur.

## Model

| member | source | states |
|---|---|---|
| `Filter.Keep` | app.py:22 | the mask keeps exactly the records whose column equals the selected value, never more records than the input |
| `Filter.Select` | app.py:21-24 | `"All"` returns the records unchanged; any other value keeps exactly the records whose column equals it |
| `Filter.FilterRecords` | app.py:20-24 | with both selectors `"All"` the result is the input unchanged; a record is in the result iff it is in the input and passes both selectors |
| `Filter.FilterIsSinglePass` | app.py:20-24 | the two masks applied in sequence equal one pass keeping, in input order, exactly the records that pass both selectors |
| `Filter.FilterIsSubsequence` | app.py:20-24 | the filtered records are a subsequence of the input, so input order is preserved |
| `Filter.FilterIdempotent` | app.py:20-24 | filtering the filtered records again with the same selections changes nothing |
| `Filter.SelectorsCommute` | app.py:21-24 | applying the provider selector before the project selector gives the same records |
| `Aggregates.TotalSpend` | app.py:30 | total spend is non-negative when every cost is |
| `Aggregates.TotalSpendAppend` | app.py:30 | the total spend of two concatenated record lists is the sum of their totals |
| `Aggregates.MeanCpu` | app.py:31 | for a non-empty selection, the mean times the number of records is the summed utilisation, and the mean is non-negative when every utilisation is |
| `Aggregates.MeanCpuWithinBounds` | app.py:31 | for a non-empty selection, the mean utilisation lies within any bounds that hold every record's utilisation |
| `Aggregates.Pivot` | app.py:35 | the pivot's cells are exactly the `(date, service)` pairs that occur in the records |
| `Aggregates.PivotCells` | app.py:35 | each cell of the pivot is the total cost of the records with that date and service |
| `Aggregates.GroupCostsAddUp` | app.py:30-35 | summing the group costs over any duplicate-free key list that covers every record gives the total spend |
| `Aggregates.PivotAddsUpToTotal` | app.py:30-35 | summing every pivot cell once gives the total spend |
| `Advice.RecordRecommendations` | app.py:47-50 | a record emits one message per rule it triggers, and nothing iff it triggers neither; when underutilised its first message is the underutilisation one; when costly its last is the high-cost alert |
| `Advice.RecommendationsAppend` | app.py:46-50 | the messages for two concatenated record lists are the first list's messages followed by the second's |
| `Advice.RecommendationsInRecordOrder` | app.py:46-50 | record i's messages come after those of all earlier records and before those of all later ones |
| `Advice.BuildRecommendations` | app.py:44-50 | the loop appending to `recommendations` produces exactly the per-record messages in record order |
| `Advice.Recommendations` | app.py:44-50 | the list the loop must build has one message per underutilised record plus one per costly record |
| `Advice.UnderutilizedIff` | app.py:47-48 | an underutilisation message for a service and project is emitted iff some record of that service and project has utilisation below 0.3 |
| `Advice.HighCostIff` | app.py:49-50 | a high-cost alert for a service, project and cost is emitted iff some record with those values costs more than 200 |
| `Advice.Conclude` | app.py:52-56 | the efficiency outcome is chosen iff the list is empty; otherwise the non-empty list itself is shown, never both |
| `Advice.EfficientIff` | app.py:44-56 | the efficiency outcome appears iff no record is underutilised and no record costs more than 200 |
| `Dashboard.Render` | app.py:20-56 | the page shows the filtered records, their total spend, their mean utilisation (absent when none) and their pivot cells; no recommendations panel iff the selection is empty, because plotting the empty pivot raises; the efficiency outcome iff the selection is non-empty and no record passing the selectors triggers a rule; otherwise exactly the recommendation list |

## Left out

- Streamlit widgets, page configuration, titles, metrics and the rendering of messages (app.py:7, 16, 27-29, 34, 43, 53-60). These are UI only.
- Loading `mock_billing.json` and parsing dates with `pd.to_datetime` (app.py:10-13). These are file I/O and a library parse. Records are a parameter, and dates are day numbers.
- Building the selector option lists (`"All"` plus the sorted distinct values, app.py:17-18). The selections are parameters.
- The Matplotlib chart of the pivot (app.py:36-40). Only its failure matters to the rest of the page: plotting the empty pivot of an empty selection raises and stops the script, which `Dashboard.Render` models as no recommendations panel.
- Dashboard.Render: the error message Streamlit shows when the script stops on an empty selection is not modelled; the view records only that no recommendations outcome is shown.
- Currency and percent formatting of the metrics and the alert text (app.py:30-31, 48, 50). Messages are modelled as a datatype carrying service, project and cost.
- Floating-point rounding of sums and means. Exact reals are used.
- Aggregates.MeanCpuWithinBounds: the mean of an empty selection is NaN in pandas. Here `MeanCpu` requires a non-empty selection, and `Dashboard.Render` shows no value in that case.
- Aggregates.PivotCells: pandas also creates NaN cells for `(date, service)` pairs that do not occur and sorts rows and columns. The model's map holds only the occurring pairs and has no order.
- Missing (NaN) cost or utilisation values, which pandas skips in sums and means. Every record here has both values.
- The resource-slider cost estimator and the development-environment discount, which live in other dashboards of the repository. Those files are not part of this model.
