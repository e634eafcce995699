# BALANC-IA in Dafny

BALANC-IA is a dashboard for the gas balance of a network of valves. A FastAPI backend reads
CSV files (balances, forecasts, model metrics, alerts, correlations, reliability scores)
with pandas and serves them through REST routes; a React frontend shows them as tables,
charts, alert lists and PDF reports, with a menu that depends on the user's role.

This project models the deterministic rules of that system and proves what they promise:

- **Access control** (`access.dfy`, `user_store.dfy`): the three roles, the permission
  matrix, each role's menu, and the session store that swaps role and permissions together.
- **Alert pipeline** (`alerts_page.dfy`, `alerts_table.dfy`, `alert_card.dfy`,
  `alerts_service.dfy`, `alerts_route.dfy`): the four-criterion filter, the tallies, the
  local status update, the lifecycle the action buttons allow, the REST query strings and
  labels, and the backend alert routes.
- **Display rules and period labels** (`top_valves_table.dfy`, `health_indicator.dfy`,
  `balance_table.dfy`, `balance_chart.dfy`, `loss_index_chart.dfy`, `scatter_plot.dfy`,
  `correlation_matrix.dfy`, `model_metrics_chart.dfy`, `model_comparison_card.dfy`,
  `valve_selector.dfy`, `period_labels.dfy`, `pdf_report.dfy`, `api_client.dfy`): threshold
  classifiers, the three `YYYYMM` month-label forms, fallbacks to built-in data, the valve
  search, the PDF page bookkeeping and the client's URLs.
- **Backend routes** (`correlations_route.dfy`, `models_route.dfy`, `dashboard_route.dfy`,
  `balances_route.dfy`, `reliability_route.dfy`, `benchmark_route.dfy`,
  `forecast_route.dfy`): filters, group-bys, arg-mins, sorts and NaN-skipping means over
  tables, with the HTTP errors each route answers.
- **The CSV loader** (`data_loader.dfy`): the per-dataset cache that hands out copies, the
  encoding-fallback reader and the valve and period listings.

Shared modules: `wrappers.dfy` (Option and Result), `text.dfy` (the JavaScript and Python
string operations used), `seqs.dfy` (order-preserving filters, counts, sums, NaN-skipping
means), `sorting.dfy` (sorting by a key, sorted distinct values) and `frames.dfy` (the HTTP
error, the exception handler every route is wrapped in, the NaN conventions).

Conventions:
- Numbers are exact `real`s; a NaN cell, or a `null` value, is `None` of an `Option`.
- A table is a sequence of records, with its column names where a route checks them.
- What a route reads from disk is a parameter (the loader's outcome), not a global.
- Code that updates state in place (the session store, the alerts page, the search box, the
  loader's cache, the PDF document) is a class whose methods state the whole new state.
  Loops that build a list are methods proved equal to a function of the input.

## Model

| member | source | states |
|---|---|---|
| Access.RoleKey | frontend/src/utils/constants.js:2-6 | every role key is one of "admin", "tomador_decisiones", "operativo" |
| Access.RoleOfKey | frontend/src/utils/constants.js:2-6 | a key names a role exactly when it is one of the three role keys, and that role's key is the key |
| Access.RoleKeyRoundTrip | frontend/src/utils/constants.js:2-6 | role keys are distinct: each key leads back to its own role |
| Access.FlagOfName | frontend/src/utils/constants.js:10-48 | a property name denotes the flag whose name it is; `label` and unknown names denote none |
| Access.Lookup | frontend/src/utils/constants.js:10-48 | reading a permission table yields `true` exactly for the flags the table grants, and `label` yields the role's display name |
| Access.Permissions | frontend/src/utils/constants.js:9-49 | the administrator holds every flag but `canManageAlerts`, the operator only alerts, balances and alert management, and only the operator manages alerts |
| Access.PermissionHierarchy | frontend/src/utils/constants.js:9-49 | the decision-maker's flags are a subset of the administrator's; `canManageAlerts` belongs to the operator alone |
| Access.PermissionsFor | frontend/src/utils/constants.js:9-49 | `PERMISSIONS[key]` is defined exactly for the three role keys and is that role's table |
| Access.PagePathInjective | frontend/src/utils/constants.js:52-72 | distinct pages have distinct paths |
| Access.Menu | frontend/src/utils/constants.js:52-72 | every role's menu is non-empty |
| Access.DecisionMakerMenu | frontend/src/utils/constants.js:53-67 | the decision-maker's menu is the administrator's without its first entry, `/admin` |
| Access.OperatorMenu | frontend/src/utils/constants.js:68-71 | the operator's menu is alerts then balances |
| Access.MenuAgreesWithFlags | frontend/src/utils/constants.js:9-72 | a page is in a role's menu exactly when the role's table grants the flag for that page |
| Access.AlertsAndBalancesForAll | frontend/src/utils/constants.js:52-72 | alerts and balances are in every role's menu |
| Access.MenuPathsDistinct | frontend/src/utils/constants.js:52-72 | no menu lists the same path twice |
| UserStoreModel.UserStore.constructor | src/stores/userStore.js:8-12 | with nothing saved, the store starts with the "admin" role and the administrator's table |
| UserStoreModel.UserStore.Reload | src/stores/userStore.js:5-29 | a page load merges the state saved under "user-storage" over the initial state: the saved role, with the saved table, or the administrator's table when none was saved |
| UserStoreModel.UserStore.Saved | src/stores/userStore.js:27-29 | the saved state holds the role key and the table, without a table when it is undefined |
| UserStoreModel.UserStore.SetRole | src/stores/userStore.js:15-19 | the role key and `PERMISSIONS[role]` are replaced together; the table is defined exactly for the three role keys |
| UserStoreModel.UserStore.HasPermission | src/stores/userStore.js:22-25 | an undefined table makes the lookup throw; otherwise the answer is true exactly for a flag the table grants, never for `label` |
| UserStoreModel.SetRoleThenAsk | src/stores/userStore.js:15-25 | after `setRole` with a role key, `hasPermission(flag)` is true exactly when that role holds the flag |
| UserStoreModel.SetRoleThenReload | src/stores/userStore.js:15-29 | a role set and reloaded keeps its key; a role key of `ROLES` comes back with its own table, any other key with the administrator's table, so the reloaded store is consistent exactly for the three keys |
| UserStoreModel.FlagNameInjective | frontend/src/utils/constants.js:12-21 | distinct flags have distinct property names |
| AlertCard.SeverityColor | src/components/ui/AlertCard.jsx:4-17 | exactly the severities outside "critica", "alta", "media" and "baja" get the gray default |
| AlertCard.StatusInfo | src/components/ui/AlertCard.jsx:19-50 | exactly the states outside "pendiente", "revisada" and "resuelta" are captioned "Desconocido" |
| AlertCard.StatusInfoAgreesWithTable | src/components/ui/AlertCard.jsx:19-50 | where the alerts table draws a badge, the card shows the same style, and a known state's caption is the service's label |
| AlertCard.Heading | src/components/ui/AlertCard.jsx:72-74 | the heading is "Válvula " followed by the valve |
| AlertCard.RowIf | src/components/ui/AlertCard.jsx:95-104 | a metric row is shown exactly when its value is a truthy number, and shows that value |
| AlertCard.MetricRows | src/components/ui/AlertCard.jsx:93-134 | no rows without metrics; otherwise one row per truthy metric, in the order loss index, deviation, lost volume, threshold exceeded, each with its own caption, its own value and its own unit |
| AlertCard.MetricShownIffTruthy | src/components/ui/AlertCard.jsx:93-134 | a metric has a row under its caption exactly when its value is a truthy number |
| AlertCard.ZeroMetricHidden | src/components/ui/AlertCard.jsx:95 | a loss index of 0 is not shown |
| AlertCard.CardActions | src/components/ui/AlertCard.jsx:144-161 | the card offers the same target states as the alerts table's row actions |
| AlertsPage.DisplayAlerts | frontend/src/pages/Alerts.jsx:148-151 | the fetched alerts when there is at least one, the eight built-in alerts otherwise; never empty |
| AlertsPage.FilterAlerts | frontend/src/pages/Alerts.jsx:154-171 | exactly the displayed alerts that pass every active criterion (status, severity, type, case-insensitive valve substring) |
| AlertsPage.FilteredIsSubsequence | frontend/src/pages/Alerts.jsx:154-171 | the filtered list keeps the displayed order |
| AlertsPage.InitialFiltersKeepAll | frontend/src/pages/Alerts.jsx:15-20 | with the initial filters every displayed alert is shown |
| AlertsPage.ValveFilterSubstring | frontend/src/pages/Alerts.jsx:164-168 | a valve filter occurring anywhere in the lower-cased valve name keeps the alert |
| AlertsPage.ComputeStats | frontend/src/pages/Alerts.jsx:174-186 | the total is the number of displayed alerts |
| AlertsPage.StateCountsSum | frontend/src/pages/Alerts.jsx:174-186 | the three status tallies add up to at most the total, exactly the total when every status is a known one |
| AlertsPage.SeverityCountsSum | frontend/src/pages/Alerts.jsx:174-186 | the four severity tallies add up to at most the total, exactly the total when every severity is a known one |
| AlertsPage.SetStatus | frontend/src/pages/Alerts.jsx:197-201 | same length; each alert with the id gets the new status, every other alert is unchanged |
| AlertsPage.SetStatusEffect | frontend/src/pages/Alerts.jsx:197-201 | a status change keeps every id and every other field of every alert |
| AlertsPage.AlertsPageState.constructor | frontend/src/pages/Alerts.jsx:15-23 | the page starts with no alerts, the initial filters and no error |
| AlertsPage.AlertsPageState.LoadAlerts | frontend/src/pages/Alerts.jsx:26-38 | an answer replaces the list by `alertas` (empty when missing) and clears the error; a failure keeps the list and sets the error message |
| AlertsPage.AlertsPageState.HandleUpdateStatus | frontend/src/pages/Alerts.jsx:189-231 | only a successful answer changes the list, and then by SetStatus; an empty fetched list stays empty |
| AlertsPage.AlertsPageState.HandleFilterChange | frontend/src/pages/Alerts.jsx:234-236 | only the named criterion changes; an unknown key changes no criterion |
| AlertsRoute.MetricsOf | backend/app/api/routes/alerts.py:51-61 | the loss index is the absolute value of the cell, 0 when it is NaN, never negative; the mean inflow is passed through |
| AlertsRoute.LevelFilterIgnoresCase | backend/app/api/routes/alerts.py:41-42 | asking for a level in any case keeps the same rows as its upper-cased form |
| AlertsRoute.BuildAlert | backend/app/api/routes/alerts.py:54-62 | validation succeeds exactly when every required schema field is given, and then yields the row's alert |
| AlertsRoute.AlertNeverBuilt | backend/app/api/routes/alerts.py:54-62 | the `Alert` schema requires an `id` the route never passes, so no alert is ever built |
| AlertsRoute.BuildAll | backend/app/api/routes/alerts.py:49-62 | every row's alert in order, or failure at the first row that cannot be validated |
| AlertsRoute.GetAllAlerts | backend/app/api/routes/alerts.py:22-73 | the loop answers `AllAlertsWith`: load failure 500, empty table empty list, a missing filter column a 500 naming it, no filtered row an empty list, a missing `VALVULA`/`NIVEL`/`MENSAJES` column a 500 naming the first, filtered rows built in order, a validation failure 500 |
| AlertsRoute.AllAlertsOnlyEmpty | backend/app/api/routes/alerts.py:34-73 | the list route succeeds exactly when the table is empty, or the filter columns exist and no row passes the filters, and then answers an empty list; a missing filter column is a 500 naming it; any filtered row is a 500, naming the first missing cell column when there is one |
| AlertsRoute.CountLevel | backend/app/api/routes/alerts.py:101 | a level count never exceeds the number of rows |
| AlertsRoute.Stats | backend/app/api/routes/alerts.py:91-109 | the total is the number of rows; critical counts both spellings of CRITICO; the other counts are the upper-cased level counts; all zero on an empty table |
| AlertsRoute.AlertStatsRoute | backend/app/api/routes/alerts.py:82-115 | succeeds exactly when the table loads and is empty or has a `NIVEL` column, with the stats of its rows; a load failure is a 500 with its message, a missing `NIVEL` a 500 naming it |
| AlertsRoute.StatsBounded | backend/app/api/routes/alerts.py:101-109 | the four level counts add up to no more than the total |
| AlertsRoute.GetValveAlerts | backend/app/api/routes/alerts.py:123-172 | the loop that reads each row of the valve answers `ValveAlertsRoute`, whose entries, total, message, highest level and missing-column 500s ValveAlertsShape and HighestIsFirst state |
| AlertsRoute.ValveAlertsShape | backend/app/api/routes/alerts.py:128-172 | over a loaded table: success exactly when it is empty, or has `VALVULA` and either no row of the valve or the `NIVEL`/`MENSAJES` columns; otherwise a 500 naming the missing column; a success has one entry per row of the valve in order, their number as total, the message exactly when the table has rows but none for the valve, and the first row's level as the highest |
| AlertsRoute.HighestIsFirst | backend/app/api/routes/alerts.py:165 | the "highest" level is the first row's level: a low alert listed before a critical one is reported |
| AlertsRoute.GetCriticalAlerts | backend/app/api/routes/alerts.py:180-213 | the loop that reads each critical row answers `CriticalRoute`, whose missing-column 500s, total and immediate-action flag ImmediateActionIffCritical states |
| AlertsRoute.ImmediateActionIffCritical | backend/app/api/routes/alerts.py:184-213 | over a table with rows: no `NIVEL` column is a 500 naming it; critical rows with a missing `VALVULA`/`MENSAJES` column a 500 naming the first; success exactly otherwise, with the number of critical rows as total and immediate action asked for exactly when some row is critical |
| AlertsRoute.CriticalCoversStats | backend/app/api/routes/alerts.py:101-105 | the critical list holds the rows the stats count as critical plus those spelled CRITICAL |
| AlertsService.Candidates | frontend/src/services/alertsService.js:52-56 | the five filters, each with its parameter name, in the order `getAll` examines them |
| AlertsService.Encode | frontend/src/services/alertsService.js:50-58 | one `key=value` entry per parameter, in order |
| AlertsService.EncodeAppend | frontend/src/services/alertsService.js:50-58 | encoding distributes over concatenation |
| AlertsService.GetAllEndpoint | frontend/src/services/alertsService.js:49-64 | the endpoint is "/api/alerts/" when no filter is truthy, otherwise it is followed by "?" and the truthy filters joined by "&" |
| AlertsService.AppendFilters | frontend/src/services/alertsService.js:50-56 | the parameters appended are the encoded truthy filters, in the fixed order |
| AlertsService.CandidatesInOrder | frontend/src/services/alertsService.js:52-56 | the candidates are the five single appends, one after the other |
| AlertsService.AppendIfTruthy | frontend/src/services/alertsService.js:52 | a filter is appended exactly when its value is truthy |
| AlertsService.FilterSnoc | frontend/src/services/alertsService.js:52-56 | examining one more filter appends its parameter exactly when it is truthy |
| AlertsService.JoinNonEmpty | frontend/src/services/alertsService.js:58-61 | a joined list of `key=value` parameters is never empty, so the "?" form is chosen whenever a filter was appended |
| AlertsService.NoFilterNoQuery | frontend/src/services/alertsService.js:58-61 | with no truthy filter the request has no query string |
| AlertsService.FilterNoneKept | frontend/src/services/alertsService.js:52-56 | no truthy filter means no parameter |
| AlertsService.QueryParamsExact | frontend/src/services/alertsService.js:52-56 | the query holds exactly the truthy filters, in the fixed order |
| AlertsService.UpdateStatusRequest | frontend/src/services/alertsService.js:111-116 | a PATCH whose body carries only the new status, under "/api/alerts/" |
| AlertsService.UpdateStatusTargetsOneAlert | frontend/src/services/alertsService.js:111-116 | different alert ids are sent to different endpoints |
| AlertsService.ServiceFetchError | frontend/src/services/alertsService.js:23-26 | a body that is not JSON falls back to "HTTP error! status: n"; a JSON body gives the same message as the shared API client |
| AlertsService.ColoursDistinct | frontend/src/services/alertsService.js:127-132 | the four tone class strings are pairwise different |
| AlertsService.SeverityColor | frontend/src/services/alertsService.js:126-134 | the result is one of the four tones |
| AlertsService.SeverityColorFallback | frontend/src/services/alertsService.js:133 | an unknown severity is coloured as "media" |
| AlertsService.SeverityColorsDistinct | frontend/src/services/alertsService.js:127-132 | different known severities get different colours |
| AlertsService.StatusColor | frontend/src/services/alertsService.js:156-163 | the result is one of three tones |
| AlertsService.StatusColorFallback | frontend/src/services/alertsService.js:162 | an unknown state is coloured as "pendiente" |
| AlertsService.StatusColorsDistinct | frontend/src/services/alertsService.js:157-161 | different known states get different colours |
| AlertsService.SeverityLabel | frontend/src/services/alertsService.js:141-149 | a severity is returned unchanged exactly when it is not a known code |
| AlertsService.SeverityOfLabel | frontend/src/services/alertsService.js:142-147 | a label read back names a known severity |
| AlertsService.SeverityLabelRoundTrip | frontend/src/services/alertsService.js:141-149 | a known severity's label reads back as that severity |
| AlertsService.StatusLabel | frontend/src/services/alertsService.js:170-177 | a state is returned unchanged exactly when it is not a known state |
| AlertsService.StatusLabelCapitalises | frontend/src/services/alertsService.js:171-175 | a known state's label is the state with its first letter capitalised |
| AlertsTable.RowActions | frontend/src/components/ui/AlertsTable.jsx:187-204 | no button exactly for a resolved alert, two exactly for a pending one; no button goes back to "pendiente"; the last button always resolves |
| AlertsTable.RowActionsAreForward | frontend/src/components/ui/AlertsTable.jsx:187-204 | for a known state the buttons offer exactly the forward transitions of the lifecycle |
| AlertsTable.LifecycleTerminates | frontend/src/components/ui/AlertsTable.jsx:187-204 | every offered transition moves forward, and from its target either nothing more is offered or the target is "revisada" |
| AlertsTable.SeverityBadgeStyle | frontend/src/components/ui/AlertsTable.jsx:10-24 | an unknown severity renders the class text "undefined", and only an unknown one does |
| AlertsTable.StatusBadge | frontend/src/components/ui/AlertsTable.jsx:26-58 | a badge exists exactly for the three known states; any other state makes rendering throw |
| AlertsTable.StatusBadgesDistinct | frontend/src/components/ui/AlertsTable.jsx:27-46 | the known states have different badges |
| AlertsTable.RenderRow | frontend/src/components/ui/AlertsTable.jsx:156-206 | a row renders exactly when its state is known, showing that alert and its buttons |
| AlertsTable.RenderRows | frontend/src/components/ui/AlertsTable.jsx:156-207 | the rows render exactly when every state is known, one per alert in order |
| AlertsTable.RenderTable | frontend/src/components/ui/AlertsTable.jsx:146-222 | an empty list shows the no-results message; otherwise one row per alert in order and a footer counting them, provided every state is known |
| ApiClient.BaseUrl | frontend/src/services/api.js:6 | the configured URL when it is truthy, "http://localhost:8000" otherwise |
| ApiClient.Url | frontend/src/services/api.js:12 | the URL starts with the base and continues with exactly the endpoint |
| ApiClient.FetchErrorOf | frontend/src/services/api.js:23-26 | a non-JSON error body throws the parse error; a truthy `detail` is the message; otherwise "HTTP error! status: n" |
| ApiClient.StatusMessage | frontend/src/services/api.js:25 | the fallback message starts with "HTTP error! status: " |
| ApiClient.StatusMessageInjective | frontend/src/services/api.js:25 | different status codes give different fallback messages |
| ApiClient.ValveQuery | frontend/src/services/api.js:52 | empty exactly when the valve id is falsy, otherwise "?valvula_id=" and the id |
| ApiClient.ValveFiltered | frontend/src/services/api.js:51-54 | a path extended by "?valvula_id=" and the id exactly when the id is truthy, and left as it is otherwise |
| ApiClient.LossIndexEvolutionEndpoint | frontend/src/services/api.js:51-54 | the endpoint is the evolution path, with "?valvula_id=" and the id exactly when the id is truthy |
| ApiClient.MetricsEndpoint | frontend/src/services/api.js:137-140 | the endpoint begins with the metrics path, with "?valvula_id=" and the id exactly when the id is truthy |
| ApiClient.TopValvesEndpoint | frontend/src/services/api.js:61-63 | the limit in the query is the given one, or 5 when none is given |
| ApiClient.TopValvesEndpointInjective | frontend/src/services/api.js:61-63 | different limits give different endpoints |
| ApiClient.MetricQueried | frontend/src/services/api.js:156-158 | a path followed by "?metric=" and the given metric, or "mae" when none is given |
| ApiClient.BestEndpoint | frontend/src/services/api.js:156-158 | the endpoint begins with "/api/models/best?metric=", then the given metric, or "mae" when none is given |
| ApiClient.BestByValveEndpoint | frontend/src/services/api.js:164-166 | the endpoint begins with "/api/models/best-by-valve?metric=", then the given metric, or "mae" when none is given |
| ApiClient.ByValveEndpoint | frontend/src/services/api.js:92-99 | the truthy periods appear in the order start, end, joined by "&" after a single "?"; with neither there is no "?" |
| ApiClient.ComparisonEndpoint | frontend/src/services/api.js:146-150 | the metric (default "mae") always comes first; the valve id follows after "&" exactly when it is truthy |
| BalanceChart.NullIfFalsy | frontend/src/components/charts/BalanceChart.jsx:78 | a present inflow exactly when it is a non-zero number, and then that number |
| BalanceChart.NullIfUndefined | frontend/src/components/charts/BalanceChart.jsx:79-80 | present exactly when the field is a number (0 included), and then that number |
| BalanceChart.PointOf | frontend/src/components/charts/BalanceChart.jsx:54-81 | the point carries the short month of the period, the inflow with zero dropped, outflow and losses with only missing values dropped |
| BalanceChart.ChartPoints | frontend/src/components/charts/BalanceChart.jsx:53-83 | one point per record, in order |
| BalanceChart.ZeroInflowDropped | frontend/src/components/charts/BalanceChart.jsx:78-80 | an inflow of 0 is not drawn while an outflow or loss of 0 is |
| BalanceChart.LineIf | frontend/src/components/charts/BalanceChart.jsx:18-26 | a line exactly when the value is not null, with that caption and value |
| BalanceChart.Payload | frontend/src/components/charts/BalanceChart.jsx:12-32 | the payload recharts hands the tooltip holds one value per non-null volume |
| BalanceChart.TooltipAsWritten | frontend/src/components/charts/BalanceChart.jsx:12-47 | as written: nothing when every volume is null; otherwise one line per payload entry, the i-th captioned "Entrada", "Salida" or "Pérdidas" by position and showing the i-th payload value, whichever volume it holds |
| BalanceChart.ZeroInflowMislabelled | frontend/src/components/charts/BalanceChart.jsx:12-47 | as written a zero inflow makes the outflow appear as "Entrada" and the losses, when given, as "Salida", the outflow being the only line otherwise; intended the outflow appears as "Salida" |
| BalanceChart.TooltipLines | frontend/src/components/charts/BalanceChart.jsx:12-32 | the intended tooltip: one line per non-null volume, each captioned by its own bar and showing that bar's volume, in the order inflow, outflow, losses |
| BalanceChart.TooltipShowsPresent | frontend/src/components/charts/BalanceChart.jsx:12-32 | each of the three volumes has a line under its own caption exactly when it is not null |
| BalanceChart.AsWrittenTruthfulIffNullsTrail | frontend/src/components/charts/BalanceChart.jsx:12-32 | the tooltip as written shows every value under its own bar's caption exactly when no null volume precedes a present one |
| BalanceTable.RowOf | frontend/src/components/ui/BalanceTable.jsx:11-41 | the long month label; a falsy inflow becomes 0 and a truthy one is kept; the other fields are carried over; the type is "predicho" exactly for a forecast row and "real" otherwise |
| BalanceTable.DisplayRows | frontend/src/components/ui/BalanceTable.jsx:10-43 | one display row per record, in order |
| BalanceTable.IndexColor | frontend/src/components/ui/BalanceTable.jsx:45-50 | each of the four colours exactly on its band: missing, at least 10, from 8 below 10, below 8 |
| BalanceTable.IndexColorMonotone | frontend/src/components/ui/BalanceTable.jsx:45-50 | a larger index never gets a milder colour |
| BalanceTable.VolumeTotals | frontend/src/components/ui/BalanceTable.jsx:157-166 | the inflow and outflow totals are the sums over the records, missing values counting 0 |
| BalanceTable.PerdidasTotal | frontend/src/components/ui/BalanceTable.jsx:169-177 | with KPIs the absolute total loss (never negative); without them the sum of the rows' losses |
| BalanceTable.NonNullIndices | frontend/src/components/ui/BalanceTable.jsx:183 | the kept indices are no more than the rows and none of them is null |
| BalanceTable.SumFields | frontend/src/components/ui/BalanceTable.jsx:185-187 | the sum is NaN exactly when an undefined index is summed |
| BalanceTable.IndexFooter | frontend/src/components/ui/BalanceTable.jsx:181-190 | with KPIs their mean index; with no non-null index 0.0; NaN exactly when an undefined index is kept |
| BalanceTable.KeptSumValues | frontend/src/components/ui/BalanceTable.jsx:183-188 | with no undefined index, the footer's sum is the sum of the present indices |
| BalanceTable.IndexFooterIsMean | frontend/src/components/ui/BalanceTable.jsx:183-190 | with no undefined index, the footer is the mean of the present indices, 0 when there is none |
| BalanceTable.IndexFooterBounds | frontend/src/components/ui/BalanceTable.jsx:183-190 | when some index is present, the footer lies between the smallest and largest bound of the indices |
| BalancesRoute.Fill | backend/app/api/routes/balances.py:51-75 | identity fields kept; a missing inflow or outflow gets its default; a missing loss becomes inflow minus outflow; a missing index becomes losses over inflow times 100, with no finite value over a zero inflow (FillIndexCases) |
| BalancesRoute.FillIndexCases | backend/app/api/routes/balances.py:72-75 | a missing index stays without a finite value exactly when the inflow is 0; it is infinite exactly when that inflow is 0 and the loss is not, which needs an inflow of 0 in the data |
| BalancesRoute.FillIdempotent | backend/app/api/routes/balances.py:63-75 | filling an already filled row changes nothing |
| BalancesRoute.FillEmptyRow | backend/app/api/routes/balances.py:54-75 | an entirely empty row gets the defaults: a loss of 325 and an index of 32500/450 |
| BalancesRoute.Prepared | backend/app/api/routes/balances.py:43-75 | one row per row of the valve, in order, filled exactly when the valve is "VALVULA_1" |
| BalancesRoute.OtherValvesUnfilled | backend/app/api/routes/balances.py:52 | the rows of any other valve are passed on unfilled |
| BalancesRoute.Kpis | backend/app/api/routes/balances.py:84-94 | both KPIs are never negative; the months are the selected rows; the mean index is the absolute NaN-skipping mean or 0.0 when it is NaN; the total loss is the absolute NaN-skipping sum |
| BalancesRoute.GetBalanceByValve | backend/app/api/routes/balances.py:23-121 | the route answers `BalanceByValve`: the 404s and `PUNTO` 500 of NotFoundBeforeRange, the missing-column 500s of BalanceMissingColumn, the range of ResponseIsRange, the fill of Valvula1Complete, the KPIs of Kpis and the 500 of InfiniteIndexFails |
| BalancesRoute.InfiniteIndexFails | backend/app/api/routes/balances.py:72-113 | a selected "VALVULA_1" row with zero inflow, no index and a non-zero loss makes the answer a 500; with every column present it is the failure to serialise the infinite index |
| BalancesRoute.CollectBalances | backend/app/api/routes/balances.py:96-107 | the loop over the selected rows succeeds exactly when there are none or every column a balance reads exists, and then yields one balance per row in order; otherwise it fails naming the first missing column |
| BalancesRoute.AllColumnsRead | backend/app/api/routes/balances.py:43-105 | a table with every column of the balances table has each column the route reads |
| BalancesRoute.NotFoundBeforeRange | backend/app/api/routes/balances.py:39-49 | a valve without rows is an error whatever the period range: a 404 when the table is empty or has `PUNTO`, a 500 naming `PUNTO` otherwise |
| BalancesRoute.BalanceMissingColumn | backend/app/api/routes/balances.py:51-105 | for a valve with rows, the first column the fill, the range or the KPIs read and the table lacks is a 500 naming it; past those, with a row selected, so is the first missing column of the balances |
| BalancesRoute.EmptyRangeAnswers | backend/app/api/routes/balances.py:51-94 | a known valve with nothing in the range succeeds exactly when the columns the fill, the range and the KPIs read exist, and then answers no balances and zero KPIs; a missing KPI column is a 500 |
| BalancesRoute.ResponseBalances | backend/app/api/routes/balances.py:43-107 | a success has one balance per selected row, in order, and every column the route read was present |
| BalancesRoute.ResponseIsRange | backend/app/api/routes/balances.py:43-113 | the answer names the valve, counts its balances as months, and holds exactly the prepared rows of that valve within the range |
| BalancesRoute.SelectedFilled | backend/app/api/routes/balances.py:63-81 | every selected row of "VALVULA_1" has inflow, outflow and losses |
| BalancesRoute.Valvula1Complete | backend/app/api/routes/balances.py:63-107 | every balance returned for "VALVULA_1" has inflow, outflow and losses |
| BalancesRoute.PeriodsOutcome | backend/app/api/routes/balances.py:156-170 | raises the 404 exactly when there are no periods; otherwise the periods, their count, the first and the last |
| BalancesRoute.NoPeriodsStatus | backend/app/api/routes/balances.py:155-176 | as written a valve without periods gets a 500 whose detail embeds the 404; corrected it gets the 404 |
| BalancesRoute.PeriodsAgreeWhenFound | backend/app/api/routes/balances.py:155-176 | the written and corrected routes agree whenever there are periods |
| BalancesRoute.PeriodsOrdered | backend/app/api/routes/balances.py:156-170 | the periods returned are strictly increasing, counted, and lie between the first and last reported |
| BenchmarkRoute.AbsColumn | backend/app/api/routes/benchmark.py:89-91 | same length; NaN stays NaN and every present cell becomes its absolute value |
| BenchmarkRoute.MeanAbs | backend/app/api/routes/benchmark.py:89-97 | the mean absolute difference is never negative, and is 0.0 when the column has no present cell |
| BenchmarkRoute.AbsColumnPresent | backend/app/api/routes/benchmark.py:89-97 | a column with no present cell stays without one after taking absolute values |
| BenchmarkRoute.ByValveKeeps | backend/app/api/routes/benchmark.py:47-48 | the rows kept are exactly those of the requested valve (all without one), in table order |
| BenchmarkRoute.MeanOfAbsolute | backend/app/api/routes/benchmark.py:89-91 | the mean difference is over absolute values: flipping the sign of any cells of a column leaves it unchanged |
| BenchmarkRoute.GetHistoricVsForecast | backend/app/api/routes/benchmark.py:20-106 | the loop that appends one comparison per row answers `HistoricVsForecast`, whose errors BenchmarkErrors and BenchmarkMissingColumn and whose entries ComparisonsListed state |
| BenchmarkRoute.BenchmarkErrors | backend/app/api/routes/benchmark.py:39-55 | an empty table answers with no comparisons and zero averages; a missing VALVULA column is a 500 naming it; a requested valve absent from a non-empty table is a 404 |
| BenchmarkRoute.BenchmarkMissingColumn | backend/app/api/routes/benchmark.py:57-91 | once rows are selected, the first missing difference column is a 500 whose detail names it |
| BenchmarkRoute.ComparisonsListed | backend/app/api/routes/benchmark.py:47-98 | the comparisons are exactly those of the selected rows, one per row in table order; the selected rows are exactly the requested valve's; the three averages are the mean absolute differences of those rows, never negative; every listed column exists when a row is selected |
| BenchmarkRoute.AccuracyFirst | backend/app/api/routes/benchmark.py:122-161 | a missing VALVULA column is a 500; a 404 when no row is of the valve; a 500 naming the first missing entry column; otherwise the comparison of the first row of the valve |
| BenchmarkRoute.AccuracyIsFirstOfList | backend/app/api/routes/benchmark.py:115-161 | for a non-empty table the accuracy route succeeds exactly when the list route does for that valve, and answers its first comparison; both fail with a 404 otherwise |
| CorrelationMatrix.DefaultMatrixWellFormed | frontend/src/components/charts/CorrelationMatrix.jsx:10-26 | the fallback matrix is 6 by 6 over the 6 fallback variables, symmetric, with 1.0 on the diagonal |
| CorrelationMatrix.Variables | frontend/src/components/charts/CorrelationMatrix.jsx:29 | the variables sent when there are any (an empty list included), the fallback variables otherwise |
| CorrelationMatrix.Matrix | frontend/src/components/charts/CorrelationMatrix.jsx:30 | the matrix sent when there is one, the fallback matrix otherwise |
| CorrelationMatrix.FallbacksIndependent | frontend/src/components/charts/CorrelationMatrix.jsx:29-30 | sent variables without a matrix are shown against the fallback matrix |
| CorrelationMatrix.CellColor | frontend/src/components/charts/CorrelationMatrix.jsx:32-41 | primary exactly at magnitude 1, neutral exactly below 0.3, otherwise the shade of its magnitude band in green for positive and red for negative values |
| CorrelationMatrix.CellColorSign | frontend/src/components/charts/CorrelationMatrix.jsx:35-39 | a value and its negation get the same band in the opposite colour |
| CorrelationMatrix.DiagonalIsPrimary | frontend/src/components/charts/CorrelationMatrix.jsx:19-34 | every diagonal cell of the fallback matrix is drawn in the primary colour |
| CorrelationsRoute.UpperTriangle | backend/app/api/routes/correlations.py:76-92 | the nested loop yields exactly `Pairs(m)`: every non-NaN cell strictly above the diagonal, in row-major order (PairsExact) |
| CorrelationsRoute.RowPairsSound | backend/app/api/routes/correlations.py:82-92 | every pair taken from a row comes from a non-NaN cell of that row above the diagonal |
| CorrelationsRoute.RowPairsComplete | backend/app/api/routes/correlations.py:82-92 | every non-NaN cell of the row above the diagonal gives a pair |
| CorrelationsRoute.UpperPairsSound | backend/app/api/routes/correlations.py:81-92 | every pair comes from a non-NaN cell above the diagonal |
| CorrelationsRoute.UpperPairsComplete | backend/app/api/routes/correlations.py:81-92 | every non-NaN cell above the diagonal gives a pair |
| CorrelationsRoute.PairsExact | backend/app/api/routes/correlations.py:76-92 | the pairs are exactly the non-NaN cells strictly above the diagonal, diagonal and lower triangle excluded |
| CorrelationsRoute.Head | backend/app/api/routes/correlations.py:98-99 | Python's `[:limit]`: a prefix of the list, the first `limit` items for a non-negative limit and all but the last `-limit` for a negative one |
| CorrelationsRoute.GetTopCorrelations | backend/app/api/routes/correlations.py:63-129 | the route answers `TopCorrelationsRoute`: a 404 for an empty matrix, otherwise the two lists TopSplit and TopFromMatrix describe |
| CorrelationsRoute.FilterSorted | backend/app/api/routes/correlations.py:98-99 | filtering a list sorted by strength keeps it sorted |
| CorrelationsRoute.PrefixOfSorted | backend/app/api/routes/correlations.py:98-99 | an item of a sorted list left out of its prefix is no stronger than any item kept |
| CorrelationsRoute.TopSplit | backend/app/api/routes/correlations.py:94-121 | positive and negative lists hold only pairs of that sign, at most `limit` each, strongest first, and every pair left out is no stronger than every pair kept |
| CorrelationsRoute.PositivePart | backend/app/api/routes/correlations.py:98 | the positive list holds only positive pairs, at most `limit`, strongest first, and no pair left out is stronger |
| CorrelationsRoute.NegativePart | backend/app/api/routes/correlations.py:99 | the negative list holds only negative pairs, at most `limit`, strongest first, and no pair left out is stronger |
| CorrelationsRoute.StrengthOrderStable | backend/app/api/routes/correlations.py:95 | the sort by strength keeps pairs of equal strength in their row-major order |
| CorrelationsRoute.TopFromMatrix | backend/app/api/routes/correlations.py:70-121 | an empty matrix is a 404; otherwise the answer is the split of the matrix's pairs, each taken from a cell above the diagonal |
| CorrelationsRoute.EntriesUpToExact | backend/app/api/routes/correlations.py:156-166 | the entries of a variable are exactly its non-NaN cells with the other variables |
| CorrelationsRoute.FirstMax | backend/app/api/routes/correlations.py:174 | the first entry whose correlation is the largest, as Python's `max` picks |
| CorrelationsRoute.FirstMin | backend/app/api/routes/correlations.py:175 | the first entry whose correlation is the smallest, as Python's `min` picks |
| CorrelationsRoute.VariableErrors | backend/app/api/routes/correlations.py:144-184 | an unknown variable is a 404 listing the variables; a variable with no other non-NaN cell is a 500 from `max` of an empty list, and only then |
| CorrelationsRoute.VariableListed | backend/app/api/routes/correlations.py:155-176 | the answer is a permutation of the variable's entries sorted by strength, and the strongest positive and negative entries are in it and bound every correlation |
| CorrelationsRoute.PointOf | backend/app/api/routes/correlations.py:276-297 | a clean row gives a point exactly when the variable is not `VALVULA` or `PERIODO` and both its cells are numbers; the point holds those numbers, on the diagonal for the same variable twice; otherwise the `except` skips the row |
| CorrelationsRoute.PointsSound | backend/app/api/routes/correlations.py:275-297 | every plotted point is the point of some clean row |
| CorrelationsRoute.PointsAllKept | backend/app/api/routes/correlations.py:275-297 | over numbers only and a variable that is not a key column, every clean row gives its point, in order |
| CorrelationsRoute.PointsOfKeyColumn | backend/app/api/routes/correlations.py:259-297 | `VALVULA` or `PERIODO` as the variable is selected twice, `float()` of the Series raises, and every row is skipped |
| CorrelationsRoute.CollectPoints | backend/app/api/routes/correlations.py:275-297 | the loop yields exactly the points of the clean rows it does not skip, in order |
| CorrelationsRoute.GetCorrelationScatter | backend/app/api/routes/correlations.py:193-313 | the route answers `CorrelationScatter`: the checks, the coefficient (which may raise), the key columns, the empty 404, then the points, as ScatterErrors, ScatterTextCells, ScatterShape and ScatterCorrelationCases state |
| CorrelationsRoute.ScatterErrors | backend/app/api/routes/correlations.py:220-242 | an unknown x, then an unknown y, then a valve without rows are 404s naming them |
| CorrelationsRoute.ScatterTextCells | backend/app/api/routes/correlations.py:244-313 | two different variables over two or more clean rows with a text cell give the 500 of `corr()`; a key column as the variable, with no such error, gives a 200 with no points |
| CorrelationsRoute.CleanFromRows | backend/app/api/routes/correlations.py:233-266 | every clean row that gives a point takes it from a row of the table (of the valve, when one is requested) |
| CorrelationsRoute.ScatterShape | backend/app/api/routes/correlations.py:244-305 | a success has at least one clean row, the points of the clean rows not skipped, their count as the total, and the coefficient computed before cleaning, which did not raise |
| CorrelationsRoute.ScatterPointsFromRows | backend/app/api/routes/correlations.py:268-305 | the total is the number of points; every point is read from a complete row of the table; with numbers and a non-key variable there is one per clean row, at least one; a key column gives none |
| CorrelationsRoute.ScatterCorrelationCases | backend/app/api/routes/correlations.py:245-256 | the same variable twice gives 1.0 and diagonal points; one clean row or none gives 0.0; two or more are all numbers and give Pearson's coefficient of their values, 0.0 when it is NaN, which are the plotted points for a non-key variable |
| DashboardRoute.Occurrences | backend/app/api/routes/dashboard.py:58 | the count is at most the length and positive exactly when the model occurs |
| DashboardRoute.MaxOccurrences | backend/app/api/routes/dashboard.py:58 | bounds the count of every candidate and is reached by one of them |
| DashboardRoute.Mode | backend/app/api/routes/dashboard.py:58 | "N/A" for no rows; otherwise a model that occurs most often, the smallest in string order among those tied |
| DashboardRoute.OccurrencesOfTwo | backend/app/api/routes/dashboard.py:58 | two different values occur together no more often than the sequence is long |
| DashboardRoute.ModeOfMajority | backend/app/api/routes/dashboard.py:58 | a model best for more than half of the valves is the best model |
| DashboardRoute.ModelSet | backend/app/api/routes/dashboard.py:41-48 | exactly the models of the best rows |
| DashboardRoute.ModelSetSnoc | backend/app/api/routes/dashboard.py:47-48 | appending a best row adds its model to the set |
| DashboardRoute.PerdidasTotales | backend/app/api/routes/dashboard.py:71-76 | never negative; the absolute NaN-skipping sum of the losses when the table has rows and the column, 0.0 otherwise |
| DashboardRoute.IndicePromedio | backend/app/api/routes/dashboard.py:81-86 | never negative; the absolute mean of the column when the table has it and the mean is not NaN |
| DashboardRoute.KpisOutcomeOk | backend/app/api/routes/dashboard.py:33-98 | when every table loads, the answer assembles the model KPIs, the total loss, the valve count and the mean index as a percentage |
| DashboardRoute.CollectBestRows | backend/app/api/routes/dashboard.py:40-48 | the loop collects the best row of every valve in order with the set of their models, or stops at the first exception |
| DashboardRoute.GetDashboardKpis | backend/app/api/routes/dashboard.py:22-110 | the loop over valves answers `DashboardKpis`, built from the per-valve best rows of KpisFromBestRows with the defaults and signs of KpisDefaultsAndSigns |
| DashboardRoute.BestRowIsMinimal | backend/app/api/routes/dashboard.py:44-46 | the best row of a valve is the first row of that valve, in table order, whose MAE is minimal: every earlier row of the valve has a strictly larger MAE |
| DashboardRoute.KpisFromBestRows | backend/app/api/routes/dashboard.py:38-63 | one minimal-MAE row per distinct valve, in order; MAE and RMSE are the means over them (0.0 for NaN); the r2 field is their MAPE mean when the column exists; the best model is their mode; the count is the distinct models among them |
| DashboardRoute.BestModelMostFrequent | backend/app/api/routes/dashboard.py:57-58 | the best model is among the best rows' models, none is more frequent, and it is the smallest of the most frequent |
| DashboardRoute.KpisDefaultsAndSigns | backend/app/api/routes/dashboard.py:38-97 | no metrics gives the zero defaults and "N/A"; the total loss and mean index are never negative; the index is a percentage; a non-empty summary counts its rows |
| DashboardRoute.Periodos | backend/app/api/routes/dashboard.py:141 | the period of every row, in order |
| DashboardRoute.GetLossIndexEvolution | backend/app/api/routes/dashboard.py:119-173 | the loop over sorted periods answers `LossIndexEvolution`: one point per distinct period, ascending, with the means of PointFacts |
| DashboardRoute.MeanAbsentIffNoIndex | backend/app/api/routes/dashboard.py:151-157 | the mean index is None exactly when no row has an index |
| DashboardRoute.PointFacts | backend/app/api/routes/dashboard.py:142-163 | the point names its period; the actual index is None exactly when no actual row of the period has one, the forecast index likewise |
| DashboardRoute.PointsListed | backend/app/api/routes/dashboard.py:141-165 | one point per distinct period, strictly increasing, each with None exactly where its rows have no index |
| DashboardRoute.EvolutionFlagFailure | backend/app/api/routes/dashboard.py:141-171 | a NaN flag in the table is a 500 whose detail is the `TypeError` of `~` exactly when a row of the first period kept holds it, the selection's `KeyError` otherwise; without a NaN flag the route answers |
| DashboardRoute.EvolutionPoints | backend/app/api/routes/dashboard.py:128-165 | with the two columns present the answer is the points of the valve's rows, or of all rows when no valve is given |
| DashboardRoute.TopValveOf | backend/app/api/routes/dashboard.py:204-217 | the loss index reported is never negative |
| DashboardRoute.Take | backend/app/api/routes/dashboard.py:200 | `head(limit)`: the first `limit` rows, or all of them when there are fewer |
| DashboardRoute.GetTopValves | backend/app/api/routes/dashboard.py:182-225 | the route answers `TopValves`: the rows by descending loss when that column exists, cut to `limit` (TopValvesListed) |
| DashboardRoute.ByLossDescendingOrder | backend/app/api/routes/dashboard.py:197-198 | the sort is a permutation, larger losses first and missing losses last |
| DashboardRoute.FilterSplits | backend/app/api/routes/dashboard.py:197-198 | the rows with and without a loss together are the rows |
| DashboardRoute.TopValvesListed | backend/app/api/routes/dashboard.py:190-225 | a table without the valve column is a 500 naming the key; otherwise the top entries |
| DashboardRoute.TopEntriesListed | backend/app/api/routes/dashboard.py:196-219 | at most `limit` entries, taken in order from a permutation of the rows; each loss index non-negative; with the loss column no row left out has a larger loss than a row kept |
| DashboardRoute.OrderedKeepsRows | backend/app/api/routes/dashboard.py:196-198 | the ordering keeps every row, sorted by descending loss when the column exists |
| DashboardRoute.AlertLevels | backend/app/api/routes/dashboard.py:276-279 | the map has exactly the valves of the alerts |
| DashboardRoute.AlertLevelIsLast | backend/app/api/routes/dashboard.py:278-279 | a valve's level is the level of its last alert |
| DashboardRoute.StatusOf | backend/app/api/routes/dashboard.py:282-298 | the mean index is never negative; the alert level is the valve's level in the map, "NORMAL" when absent |
| DashboardRoute.BuildAlertMap | backend/app/api/routes/dashboard.py:276-279 | the loop builds `AlertLevels(rows)`, where each valve maps to the level of its last alert row (AlertLevelIsLast) |
| DashboardRoute.StatusEntries | backend/app/api/routes/dashboard.py:281-298 | one status per summary row, in order |
| DashboardRoute.GetValvesStatus | backend/app/api/routes/dashboard.py:262-306 | the loop over summary rows answers `ValvesStatus`: one entry per row in order, with the latest alert level or "NORMAL" (StatusListed) |
| DashboardRoute.StatusListed | backend/app/api/routes/dashboard.py:272-300 | one status per summary row, naming its valve, with a non-negative index; "NORMAL" when the valve has no alert, otherwise the level of its last alert |
| DataLoader.ColumnIndex | backend/app/services/data_loader.py:37 | found exactly when the column is there, at the first position holding that name |
| DataLoader.Column | backend/app/services/data_loader.py:313 | present exactly when the table has the column, with one cell per row |
| DataLoader.StripStart | backend/app/services/data_loader.py:37 | a suffix of the name that does not start with whitespace |
| DataLoader.StripEnd | backend/app/services/data_loader.py:37 | a prefix of the name that does not end with whitespace |
| DataLoader.Strip | backend/app/services/data_loader.py:37 | the result neither starts nor ends with whitespace |
| DataLoader.CleanHeaders | backend/app/services/data_loader.py:37 | every header cleaned, in order |
| DataLoader.UpperKeepsSpaces | backend/app/services/data_loader.py:37 | upper-casing keeps whitespace exactly where it was |
| DataLoader.StripTrimmed | backend/app/services/data_loader.py:37 | stripping a name without surrounding whitespace changes nothing |
| DataLoader.CleanHeaderIdempotent | backend/app/services/data_loader.py:37 | cleaning a cleaned header changes nothing |
| DataLoader.AttemptOptions | backend/app/services/data_loader.py:274-288 | every attempt reads with ";" as separator, skips bad lines and uses the attempt's encoding |
| DataLoader.ReadCsvOutcomes | backend/app/services/data_loader.py:265-303 | a missing file is reported as such; a table comes from the first encoding that decodes; another read error stops at that encoding; "undecodable" exactly when all five encodings fail, with the last error |
| DataLoader.TryFromOutcomes | backend/app/services/data_loader.py:284-303 | from any attempt onward, the same outcomes hold over the remaining encodings |
| DataLoader.ReadCsv | backend/app/services/data_loader.py:257-303 | the loop over encodings answers `ReadCsvResult`, whose outcomes ReadCsvOutcomes states: missing file, first decodable encoding, stop at another error, or all five undecodable |
| DataLoader.Prepare | backend/app/services/data_loader.py:34-37 | the rows are kept; the matrix files keep their headers and every other file has them stripped and upper-cased |
| DataLoader.CacheKeyRoundTrip | backend/app/services/data_loader.py:29-553 | every dataset is recovered from its cache key |
| DataLoader.CacheKeysDistinct | backend/app/services/data_loader.py:29-553 | different datasets never share a cache key |
| DataLoader.CacheAfter | backend/app/services/data_loader.py:31-50 | a load adds at most the key of its own dataset, and only when the read and the numeric conversion both succeed |
| DataLoader.CacheHit | backend/app/services/data_loader.py:31-32 | with the cache on and the key present, the cached table is returned and the cache is unchanged |
| DataLoader.LoadThenHit | backend/app/services/data_loader.py:31-50 | after a successful load, a cached load returns the same table without reading the file |
| DataLoader.LoadKeepsOthers | backend/app/services/data_loader.py:49 | a load leaves the entries of every other dataset as they were |
| DataLoader.LoadMiss | backend/app/services/data_loader.py:34-50 | on a miss a failed read returns its error and leaves the cache; a read whose converted cells all convert returns the prepared table and caches it under the key; a read with a cell `astype(float)` rejects returns that error and leaves the cache |
| DataLoader.LoadMissOutcome | backend/app/services/data_loader.py:31-50 | with the cache off the file is always read, and a success overwrites the cached entry |
| DataLoader.ReplaceCommas | backend/app/services/data_loader.py:47 | same length, every comma turned into a point and every other character kept |
| DataLoader.ConvertColumns | backend/app/services/data_loader.py:44-47 | the conversion loop succeeds exactly when every cell of every column the loader converts is NaN or parses as a float after the comma replacement |
| DataLoader.CoercingLoadersConvert | backend/app/services/data_loader.py:199-205 | the top-index and descriptive-statistics loaders coerce with `to_numeric(errors='coerce')` and never fail on a cell |
| DataLoader.ThousandsSeparatorFails | backend/app/services/data_loader.py:47 | a cell "1.234,5" with a thousands point becomes "1.234.5", which a `float()` rejecting that text does not convert |
| DataLoader.UnconvertibleFallsBack | backend/app/services/data_loader.py:309-329 | a balances file that reads but holds an unconvertible cell is not cached, and the listings fall back to the five valves and to no period |
| DataLoader.FallbackSorted | backend/app/services/data_loader.py:316 | the fallback valves are in strictly increasing order |
| DataLoader.ValvesOf | backend/app/services/data_loader.py:309-316 | strictly increasing; exactly the distinct valves of the table; the five fallback valves when loading or the column fails, or when a NaN valve sits beside another value and the sort raises |
| DataLoader.NaNValveFallsBack | backend/app/services/data_loader.py:311-316 | a row too short to hold its valve makes the listing fall back to the five valves |
| DataLoader.PeriodsOf | backend/app/services/data_loader.py:318-329 | strictly increasing; empty on any failure; otherwise exactly the distinct periods of the rows of the valve (a NaN valve matching none), or of all rows when no valve is given |
| DataLoader.KeptPeriods | backend/app/services/data_loader.py:323-326 | exactly the periods of the rows from a position onward that belong to the valve |
| DataLoader.Loader.constructor | backend/app/services/data_loader.py:15-17 | a new loader starts with an empty cache |
| DataLoader.Loader.Load | backend/app/services/data_loader.py:21-553 | answers `LoadResult` and leaves the cache as `CacheAfter`: a hit returns the cached table (CacheHit), a miss reads, prepares, converts and caches, or returns the read or conversion error without caching (LoadMiss), other datasets are untouched (LoadKeepsOthers) |
| DataLoader.Loader.ClearCache | backend/app/services/data_loader.py:305-307 | the cache is empty afterwards |
| DataLoader.Loader.AvailableValves | backend/app/services/data_loader.py:309-316 | the valves of the balances table loaded through the cache, the fallback valves when the read or the conversion fails (UnconvertibleFallsBack), with the cache updated by that load |
| DataLoader.Loader.AvailablePeriods | backend/app/services/data_loader.py:318-329 | the periods of the balances table loaded through the cache, none when the read or the conversion fails (UnconvertibleFallsBack), with the cache updated by that load |
| ForecastRoute.PeriodCount | backend/app/api/routes/forecast.py:59-70 | 0 for NaN; otherwise `int()` truncation toward zero |
| ForecastRoute.PeriodCountTruncates | backend/app/api/routes/forecast.py:70 | the count is symmetric under negation, so a negative non-integral count is rounded up, not down as floor would |
| ForecastRoute.ByValveKeeps | backend/app/api/routes/forecast.py:47-48 | the rows kept are exactly those of the requested valve (all without one), in table order |
| ForecastRoute.GetSummaryByValve | backend/app/api/routes/forecast.py:20-91 | the loop that appends one summary per row answers `SummaryByValve`, whose errors and entries SummaryErrors and SummariesListed state |
| ForecastRoute.SummaryErrors | backend/app/api/routes/forecast.py:40-54 | an empty table answers with no forecasts; a missing VALVULA column is a 500 naming it; a requested valve absent from a non-empty table is a 404 |
| ForecastRoute.SummariesListed | backend/app/api/routes/forecast.py:46-83 | the summaries are exactly those of the selected rows, one per row in table order, and counted; the selected rows are exactly the requested valve's |
| ForecastRoute.ValveSummaryFirst | backend/app/api/routes/forecast.py:104-136 | a missing VALVULA column is a 500; a 404 when no row is of the valve; otherwise the summary of the first row of the valve |
| ForecastRoute.SummaryIsFirstOfList | backend/app/api/routes/forecast.py:100-136 | for a non-empty table the single-valve route succeeds exactly when the list route does, and answers its first summary; both fail with the same status otherwise |
| HealthIndicator.HealthStatusOf | frontend/src/components/ui/SystemHealthIndicator.jsx:9-30 | "Excelente" exactly from 80, "Bueno" exactly from 60 below 80, "Crítico" exactly below 60 |
| HealthIndicator.DefaultScoreExcellent | frontend/src/components/ui/SystemHealthIndicator.jsx:4-32 | the default score of 85 shows as "Excelente" |
| HealthIndicator.DisplayIssues | frontend/src/components/ui/SystemHealthIndicator.jsx:36-60 | given issues are shown as given; otherwise, with reliability valves, the three counts of "ALTA", "MEDIA-ALTA" and score below 70; otherwise the fixed counters |
| HealthIndicator.DerivedCountsBounded | frontend/src/components/ui/SystemHealthIndicator.jsx:42-52 | the healthy and monitored counts together, and the critical count, never exceed the number of valves |
| HealthIndicator.CriticalCounterOverlaps | frontend/src/components/ui/SystemHealthIndicator.jsx:42-52 | one "ALTA" valve with score 50 is counted both as operating normally and as critical |
| LossIndexChart.AbsIfTruthy | frontend/src/components/charts/LossIndexChart.jsx:33-34 | drawn exactly when the index is a non-zero number, as its positive magnitude |
| LossIndexChart.ChartData | frontend/src/components/charts/LossIndexChart.jsx:30-45 | the eight built-in points for no data, otherwise one point per record in order |
| LossIndexChart.DrawnValuesPositive | frontend/src/components/charts/LossIndexChart.jsx:30-45 | every value drawn is positive, from the data or the built-in points |
| LossIndexChart.MockMonthsInOrder | frontend/src/components/charts/LossIndexChart.jsx:36-45 | the built-in points are the first eight short months in order |
| LossIndexChart.SignIgnored | frontend/src/components/charts/LossIndexChart.jsx:33-34 | a negative index is drawn with the height of its opposite |
| ModelComparisonCard.MetricColor | frontend/src/components/ui/ModelComparisonCard.jsx:33-47 | for R² each colour exactly on its band (from 0.9, from 0.8, below); for errors each colour exactly on its band (up to 0.05, up to 0.08, above) |
| ModelComparisonCard.MetricColorMonotone | frontend/src/components/ui/ModelComparisonCard.jsx:33-47 | a better value (higher R², lower error) never gets a worse colour |
| ModelComparisonCard.DisplayModels | frontend/src/components/ui/ModelComparisonCard.jsx:9-31 | the models given when there are any, the two built-in models otherwise |
| ModelComparisonCard.MockBadge | frontend/src/components/ui/ModelComparisonCard.jsx:12-31 | the first built-in model carries the best badge and green MAE and R²; the second does not, and its RMSE is coloured worse |
| ModelComparisonCard.CardOf | frontend/src/components/ui/ModelComparisonCard.jsx:67-155 | a card renders exactly when the three metrics are present; it carries the model's id and best badge; it is active and highlighted exactly when its model is the selected one; its R² colour follows the bands; the MAE and RMSE colours are those of their values, as is the MAPE colour |
| ModelComparisonCard.Cards | frontend/src/components/ui/ModelComparisonCard.jsx:67-155 | all cards render exactly when each does, one per model in order |
| ModelComparisonCard.AtMostOneActive | frontend/src/components/ui/ModelComparisonCard.jsx:74-150 | with distinct ids at most one card is marked active |
| ModelComparisonCard.OnCardClick | frontend/src/components/ui/ModelComparisonCard.jsx:70 | a click selects the card's model exactly when a handler was given |
| ModelComparisonCard.ClickSelects | frontend/src/components/ui/ModelComparisonCard.jsx:70-150 | after a click with a handler the clicked card is the active one |
| ModelMetricsChart.ValueOf | frontend/src/components/charts/ModelMetricsChart.jsx:78-83 | present exactly when the model has the metric, and then its value |
| ModelMetricsChart.DisplayModels | frontend/src/components/charts/ModelMetricsChart.jsx:35-41 | never empty: the models given when there are any, the two built-in models otherwise |
| ModelMetricsChart.ConfigFor | frontend/src/components/charts/ModelMetricsChart.jsx:43-72 | the metric's own configuration when it has one, MAE's otherwise |
| ModelMetricsChart.ConfigColorsDistinct | frontend/src/components/charts/ModelMetricsChart.jsx:43-70 | two different configured metrics have different colours |
| ModelMetricsChart.BestModel | frontend/src/components/charts/ModelMetricsChart.jsx:75-87 | the best model is one of the displayed models |
| ModelMetricsChart.BestIsLastOptimum | frontend/src/components/charts/ModelMetricsChart.jsx:75-84 | when every model has the metric, the best is at least as good as every model and is the last of the optimal ones |
| ModelMetricsChart.UndefinedLastWins | frontend/src/components/charts/ModelMetricsChart.jsx:77-84 | a last model without the metric is taken as best, since a comparison with undefined is false |
| ModelMetricsChart.MockBest | frontend/src/components/charts/ModelMetricsChart.jsx:35-87 | over the built-in models XGBoost is best for R², MAE and RMSE, and Prophet for MAPE, which neither has |
| ModelMetricsChart.BarColor | frontend/src/components/charts/ModelMetricsChart.jsx:126-130 | the bar of the best model has the metric's colour, every other bar is grey |
| ModelMetricsChart.BarColors | frontend/src/components/charts/ModelMetricsChart.jsx:123-132 | one colour per displayed model, in order |
| ModelMetricsChart.OneBarHighlighted | frontend/src/components/charts/ModelMetricsChart.jsx:123-132 | some bar has the metric's colour, and with distinct names only one bar is not grey |
| ModelMetricsChart.ColorsDiffer | frontend/src/components/charts/ModelMetricsChart.jsx:43-130 | no metric colour is the grey of the other bars |
| ModelsRoute.ColumnAt | backend/app/api/routes/models.py:48 | a column has one cell per row, the row's value in that column |
| ModelsRoute.Modelos | backend/app/api/routes/models.py:44 | the model of every row, in order |
| ModelsRoute.Valvulas | backend/app/api/routes/models.py:238 | the valve of every row, in order |
| ModelsRoute.ModelId | backend/app/api/routes/models.py:70 | same length; spaces become underscores and letters are lower-cased, so no space or capital remains |
| ModelsRoute.ModelIdIdempotent | backend/app/api/routes/models.py:70 | an id maps to itself |
| ModelsRoute.OptionalMean | backend/app/api/routes/models.py:53-78 | reported exactly when the column exists and its NaN-skipping mean is a non-zero number, and then that mean |
| ModelsRoute.ZeroMapeReportedAbsent | backend/app/api/routes/models.py:53-78 | a MAPE averaging exactly 0 is reported as absent |
| ModelsRoute.GetModelsMetrics | backend/app/api/routes/models.py:23-92 | the loop over distinct models, then the sort, answers `ModelsMetrics`: one entry per model, ascending by mae (MetricsListed) |
| ModelsRoute.Names | backend/app/api/routes/models.py:71 | the name of every model entry, in order |
| ModelsRoute.SortedCollected | backend/app/api/routes/models.py:42-84 | sorting the collected entries keeps one per key, in key order, each from a key and every key's entry present |
| ModelsRoute.SortedMapped | backend/app/api/routes/models.py:126-139 | sorting the mapped entries keeps one per key, in key order, each from a key and every key's entry present |
| ModelsRoute.InfoForFacts | backend/app/api/routes/models.py:45-81 | an entry names its model, its id is derived from the name, it carries the requested valve and its MAE is the mean over the model's rows (0.0 for NaN) |
| ModelsRoute.MetricsFromListed | backend/app/api/routes/models.py:42-86 | one entry per distinct model, exactly the models of the rows, sorted by MAE, each with its derived id and mean MAE |
| ModelsRoute.MetricsFromEntries | backend/app/api/routes/models.py:69-81 | every entry has its derived id and the mean MAE of its model's rows |
| ModelsRoute.MetricsFromNames | backend/app/api/routes/models.py:44-81 | the entries name exactly the models of the rows |
| ModelsRoute.NamesOfCollected | backend/app/api/routes/models.py:44-81 | entries collected from every model, and only from them, name exactly those models |
| ModelsRoute.MetricsListed | backend/app/api/routes/models.py:31-86 | for a non-empty table the answer lists one entry per distinct model of the (valve's) rows, sorted by MAE, each with its derived id and mean MAE |
| ModelsRoute.GetModelsComparison | backend/app/api/routes/models.py:100-152 | the loop over distinct models, then the sort, answers `ModelsComparison`: a 400 for an unknown metric, a 500 for a text column (ComparisonOnText), otherwise the entries of ComparisonListed |
| ModelsRoute.ComparisonRejectsMetric | backend/app/api/routes/models.py:117-123 | a 400 exactly when the upper-cased metric is not a column |
| ModelsRoute.ComparisonOnText | backend/app/api/routes/models.py:117-136 | a metric naming a text column is accepted by the check but fails in the mean: a 500 when rows are selected, an empty comparison otherwise |
| ModelsRoute.ComparisonOfFacts | backend/app/api/routes/models.py:127-136 | an entry names its model, its value is the mean over the model's rows (0.0 for NaN), and it counts at least one row |
| ModelsRoute.ComparisonsListed | backend/app/api/routes/models.py:126-139 | one entry per distinct model, sorted by value, containing every model's entry and nothing else |
| ModelsRoute.ComparisonsSound | backend/app/api/routes/models.py:126-136 | every entry is the entry of a model of the rows |
| ModelsRoute.ComparisonsComplete | backend/app/api/routes/models.py:126-136 | every model of the rows has its entry |
| ModelsRoute.ComparisonListed | backend/app/api/routes/models.py:107-144 | a success echoes the metric and lists the comparisons of the (valve's) rows on the upper-cased column |
| ModelsRoute.BestIsFirstMinimum | backend/app/api/routes/models.py:166-204 | no data is a 404; an unknown metric a 400; a success reports the first row whose metric is minimal, its model, valve and value |
| ModelsRoute.GetBestModelsByValve | backend/app/api/routes/models.py:213-275 | the loop over distinct valves, then the sort, answers `BestModelsByValve`: one minimal entry per valve (EntryIsMinimal, BestByValveListed) |
| ModelsRoute.EntryIsMinimal | backend/app/api/routes/models.py:238-259 | a valve's entry names the model of the first row of the valve, in table order, whose metric is minimal; every earlier row has a strictly larger metric |
| ModelsRoute.ValveNamesOfCollected | backend/app/api/routes/models.py:238-259 | entries collected from every valve, and only from them, name exactly those valves |
| ModelsRoute.BestEntriesListed | backend/app/api/routes/models.py:236-262 | one entry per distinct valve, exactly the valves of the rows, sorted by MAE, each naming the model of a minimal row of that valve |
| ModelsRoute.BestByValveListed | backend/app/api/routes/models.py:222-267 | a success for a non-empty table lists the best entries and counts them |
| PdfReport.AmountOrDash | frontend/src/utils/pdfGenerator.js:96-98 | an amount exactly when the value is a number (0 included, its text being truthy), a dash otherwise |
| PdfReport.PercentOrDash | frontend/src/utils/pdfGenerator.js:99 | a percentage exactly when the index is a non-zero number, a dash otherwise |
| PdfReport.PdfRows | frontend/src/utils/pdfGenerator.js:94-101 | one table row per record, in order |
| PdfReport.PdfRowAgreesWithTable | frontend/src/utils/pdfGenerator.js:94-101 | the report's period label and row type agree with the balance table's |
| PdfReport.ZeroCells | frontend/src/utils/pdfGenerator.js:96-99 | an inflow of 0 is printed as 0 while an index of 0 is printed as a dash; the on-screen table shows the inflow as 0 too |
| PdfReport.Efficiency | frontend/src/utils/pdfGenerator.js:64 | efficiency and mean index add up to 100, a missing index counting 0 |
| PdfReport.KpiSummary | frontend/src/utils/pdfGenerator.js:56-78 | a KPI block exactly when KPIs are given, with their total loss and mean index and an efficiency completing the index to 100 |
| PdfReport.PageFootersDistinct | frontend/src/utils/pdfGenerator.js:180-181 | two pages of the same document never share a footer |
| PdfReport.Ids | frontend/src/utils/pdfGenerator.js:166 | the id of every valve, in order |
| PdfReport.Document.constructor | frontend/src/utils/pdfGenerator.js:118 | a new document has one page, the current one, with no footer and no section |
| PdfReport.Document.AddPage | frontend/src/utils/pdfGenerator.js:163 | one more page, which becomes current; the sections are unchanged |
| PdfReport.Document.SetPage | frontend/src/utils/pdfGenerator.js:177 | only the current page changes |
| PdfReport.Document.WriteFooter | frontend/src/utils/pdfGenerator.js:180-185 | only the footer of the current page changes |
| PdfReport.Document.AddValveContent | frontend/src/utils/pdfGenerator.js:48-112 | the valve's section starts on the current page; its tables add their overflow pages, the last of which becomes current |
| PdfReport.Document.AddPageNumbers | frontend/src/utils/pdfGenerator.js:174-187 | every page p of N carries "Página p de N"; pages and sections are unchanged |
| PdfReport.GenerateBalanceReport | frontend/src/utils/pdfGenerator.js:117-139 | one section on page 1, one page plus the overflow, every page numbered |
| PdfReport.GenerateFullReport | frontend/src/utils/pdfGenerator.js:145-172 | one section per valve in order, the first on page 1 and each next one on the page after the previous one's last; pages are 1 plus one per later valve plus all overflow; every page numbered |
| PdfReport.SumOfSnoc | frontend/src/utils/pdfGenerator.js:161-167 | one more valve adds its overflow to the total |
| PeriodLabels.ShortMonthsAbbreviateLong | frontend/src/components/charts/BalanceChart.jsx:59-72 | twelve short and twelve long month names, each short name the first three letters of its long name |
| PeriodLabels.ShortMonthsDistinct | frontend/src/components/charts/BalanceChart.jsx:59-72 | no two short month names are equal |
| PeriodLabels.LongMonthsDistinct | frontend/src/components/ui/BalanceTable.jsx:17-30 | no two long month names are equal |
| PeriodLabels.NotAvailableIsNoMonth | frontend/src/components/charts/BalanceChart.jsx:57-72 | "N/A" is not a month name |
| PeriodLabels.Lookup | frontend/src/components/ui/BalanceTable.jsx:31 | `meses[i]` is defined exactly for an index inside the list, and is then that name |
| PeriodLabels.MonthOf | frontend/src/components/ui/BalanceTable.jsx:16 | the month of a valid code lies from 1 to 12 |
| PeriodLabels.ValidMonthIndex | frontend/src/components/ui/BalanceTable.jsx:16-31 | `parseInt(substring(4, 6)) - 1` of a valid code is its month less one |
| PeriodLabels.LongLabelNotAvailable | frontend/src/components/ui/BalanceTable.jsx:13-32 | the label is "N/A" exactly for a falsy period |
| PeriodLabels.LongLabelOfValid | frontend/src/components/ui/BalanceTable.jsx:13-32 | a valid code is labelled with its month name, a space and its year |
| PeriodLabels.LongLabelOfBadMonth | frontend/src/components/ui/BalanceTable.jsx:31 | a period whose month is not 1 to 12 is labelled "undefined" followed by its first four characters |
| PeriodLabels.IndexOf | frontend/src/components/ui/BalanceTable.jsx:17-31 | found exactly when the name is in the list, at its first position |
| PeriodLabels.LongLabelRoundTrip | frontend/src/components/ui/BalanceTable.jsx:13-32 | a valid code is read back from its long label |
| PeriodLabels.LongLabelInjective | frontend/src/components/ui/BalanceTable.jsx:13-32 | two valid codes with the same long label are equal |
| PeriodLabels.ShortLabel | frontend/src/components/charts/BalanceChart.jsx:56-74 | "N/A" exactly for a falsy period; otherwise a short month name, or `undefined` |
| PeriodLabels.ShortLabelOfValid | frontend/src/components/charts/BalanceChart.jsx:56-74 | a valid code gets the short name of its month |
| PeriodLabels.ShortLabelAbbreviatesLong | frontend/src/components/charts/BalanceChart.jsx:56-74 | the chart's label of a valid code is the first three letters of the table's label |
| PeriodLabels.MonthOfShortLabel | frontend/src/components/charts/BalanceChart.jsx:59-73 | a short name stands for a month from 1 to 12 |
| PeriodLabels.ShortLabelRoundTrip | frontend/src/components/charts/BalanceChart.jsx:56-74 | the short label of a valid code gives back its month |
| PeriodLabels.LastTwoLabel | frontend/src/components/charts/LossIndexChart.jsx:48-53 | "" exactly for a falsy period; otherwise a short month name or the period's own text |
| PeriodLabels.LastTwoOfMonth | frontend/src/components/charts/LossIndexChart.jsx:51-52 | any text ending in the digits of a month from 01 to 12 gets that month's short name |
| PeriodLabels.LastTwoOfNonMonth | frontend/src/components/charts/LossIndexChart.jsx:51-52 | text ending in "00" or in a number above 12 is shown as itself |
| PeriodLabels.LastTwoAgreesWithShort | frontend/src/components/charts/LossIndexChart.jsx:48-53 | for a valid code the loss-index chart and the balance chart show the same short month |
| ReliabilityRoute.Scores | backend/app/api/routes/reliability.py:71 | the `SCORE` column of every row, in order, NaN included |
| ReliabilityRoute.ByValveKeeps | backend/app/api/routes/reliability.py:44-46 | the rows kept are exactly those of the requested valve (all without one), in table order |
| ReliabilityRoute.GetReliabilityScores | backend/app/api/routes/reliability.py:20-85 | the loop that appends one entry per row answers `ReliabilityScores`, whose errors ScoresErrors and ScoresMissingColumn and whose entries ScoresListed state |
| ReliabilityRoute.ScoresErrors | backend/app/api/routes/reliability.py:37-52 | an empty table gives no valves, mean 0 and total 0; a requested valve with no row gives a 404 naming it |
| ReliabilityRoute.ScoresMissingColumn | backend/app/api/routes/reliability.py:56-71 | once rows are selected, the first missing column among VALVULA, NIVEL, MEJOR_MODELO and SCORE is a 500 whose detail names it |
| ReliabilityRoute.ScoresListed | backend/app/api/routes/reliability.py:44-77 | the entries are exactly the selected rows' scores (NaN read as 0), one per row in table order; the selected rows are exactly the requested valve's; the mean is the NaN-skipping mean of their scores (0 when none); the total counts the entries |
| ReliabilityRoute.MeanSkipsListedZero | backend/app/api/routes/reliability.py:63-75 | for any table the list route answers, an added row with a NaN score is listed with score 0 while the mean stays unchanged |
| ReliabilityRoute.MeanNonNegative | backend/app/api/routes/reliability.py:70-75 | non-negative scores give a non-negative mean |
| ReliabilityRoute.ValveReliabilityFirst | backend/app/api/routes/reliability.py:94-130 | a missing VALVULA column is a 500; a 404 when the valve has no row; a 500 naming the first missing entry column; otherwise the valve's first row |
| ReliabilityRoute.SingleIsFirstOfList | backend/app/api/routes/reliability.py:20-130 | the single-valve route succeeds exactly when the filtered list does, and answers with the list's first entry; otherwise both give a 404 |
| ScatterPlot.MockData | frontend/src/components/charts/InteractiveScatterPlot.jsx:35-41 | thirty generated points, the i-th following the formula for i |
| ScatterPlot.DisplayData | frontend/src/components/charts/InteractiveScatterPlot.jsx:51 | the given data when there is some (an empty array included), the thirty mock points otherwise |
| ScatterPlot.Correlation | frontend/src/components/charts/InteractiveScatterPlot.jsx:54-70 | a non-null prop wins; a zero denominator gives 0; a non-zero one gives the number that, times the denominator, is the numerator; a negative radicand NaN |
| ScatterPlot.Ratio | frontend/src/components/charts/InteractiveScatterPlot.jsx:69 | the quotient times the denominator gives the numerator |
| ScatterPlot.EmptyDataGivesZero | frontend/src/components/charts/InteractiveScatterPlot.jsx:51-69 | an explicit empty array gives the coefficient 0 |
| ScatterPlot.CorrelationPermutationInvariant | frontend/src/components/charts/InteractiveScatterPlot.jsx:57-67 | the order of the points does not change the numerator or the radicand |
| ScatterPlot.Swap | frontend/src/components/charts/InteractiveScatterPlot.jsx:58-62 | each point with its two coordinates exchanged |
| ScatterPlot.SwapSums | frontend/src/components/charts/InteractiveScatterPlot.jsx:58-62 | exchanging the axes exchanges the sums of x and y, and of their squares, and keeps the sum of products |
| ScatterPlot.CorrelationSwapInvariant | frontend/src/components/charts/InteractiveScatterPlot.jsx:57-67 | the coefficient of y against x equals that of x against y |
| ScatterPlot.SwapVariablesInvariant | frontend/src/components/charts/InteractiveScatterPlot.jsx:64-67 | the numerator and the radicand are symmetric in the two variables |
| ScatterPlot.StrengthLabel | frontend/src/components/charts/InteractiveScatterPlot.jsx:74-79 | "Fuerte" exactly from 0.7 in absolute value, "Moderada" from 0.4 below that, "Débil" otherwise and for NaN |
| ScatterPlot.StrengthLabelSymmetric | frontend/src/components/charts/InteractiveScatterPlot.jsx:74-79 | the label does not depend on the sign |
| ScatterPlot.StrengthColor | frontend/src/components/charts/InteractiveScatterPlot.jsx:81-86 | one colour per strength; a strong coefficient is green exactly when it is at least 0.7, red when strong and negative |
| ScatterPlot.Direction | frontend/src/components/charts/InteractiveScatterPlot.jsx:99-102 | "Positiva" exactly for a positive coefficient; 0 and NaN read "Negativa" |
| TopValvesTable.StatusOf | frontend/src/components/ui/TopValvesTable.jsx:16-21 | critical exactly above 20, warning above 12 up to 20, normal up to 12 |
| TopValvesTable.StatusMonotone | frontend/src/components/ui/TopValvesTable.jsx:16-21 | a higher loss index never gets a milder status |
| TopValvesTable.TrendOf | frontend/src/components/ui/TopValvesTable.jsx:22 | "up" exactly when the mean loss exceeds 1000 in absolute value; never "down" |
| TopValvesTable.Rows | frontend/src/components/ui/TopValvesTable.jsx:6-24 | one row per valve in order, ranked from 1, named "Válvula " and the id, with its status and a trend that is never "down"; the loss index, inflow, outflow, losses and periods are the valve's own, and the trend is the one its mean loss gives |
| TopValvesTable.BarColor | frontend/src/components/ui/TopValvesTable.jsx:120-126 | red exactly above 12, amber above 10 up to 12, green up to 10 |
| TopValvesTable.BarAndStatus | frontend/src/components/ui/TopValvesTable.jsx:16-21 | a warning or critical valve always has a red bar; an amber bar belongs to a valve shown as normal |
| TopValvesTable.BarWidth | frontend/src/components/ui/TopValvesTable.jsx:128 | five times the index, capped at 100 exactly from an index of 20 |
| TopValvesTable.StatusBadge | frontend/src/components/ui/TopValvesTable.jsx:26-46 | the green badge is shown exactly for normal valves |
| ValveSelector.InfoOrEmpty | frontend/src/components/ui/ValveSelector.jsx:20 | the valve's entry when there is one, otherwise no name and no location |
| ValveSelector.FilteredValves | frontend/src/components/ui/ValveSelector.jsx:18-27 | exactly the valves matching the term, each taken from the list |
| ValveSelector.FilteredIsSubseq | frontend/src/components/ui/ValveSelector.jsx:18-27 | the filtered valves keep the list's order |
| ValveSelector.EmptyTermKeepsAll | frontend/src/components/ui/ValveSelector.jsx:18-27 | an empty search lists every valve |
| ValveSelector.CaseInsensitive | frontend/src/components/ui/ValveSelector.jsx:21-25 | lower-casing the term does not change what matches |
| ValveSelector.UnnamedMatchesId | frontend/src/components/ui/ValveSelector.jsx:20-25 | a valve without an entry matches only through its id |
| ValveSelector.FoundById | frontend/src/components/ui/ValveSelector.jsx:22 | searching a valve's id always finds it |
| ValveSelector.DisplayInfo | frontend/src/components/ui/ValveSelector.jsx:33-36 | the valve's entry, or its id as name and "Sin ubicación" as location |
| ValveSelector.GridItems | frontend/src/components/ui/ValveSelector.jsx:30-38 | one button per filtered valve in order, with its display info, selected exactly when it is the selected valve |
| ValveSelector.AtMostOneSelected | frontend/src/components/ui/ValveSelector.jsx:66 | two buttons with different ids are never both selected |
| ValveSelector.DefaultLocationNotSearched | frontend/src/components/ui/ValveSelector.jsx:20-36 | the fallback location is shown but not searched |
| ValveSelector.Search.constructor | frontend/src/components/ui/ValveSelector.jsx:11 | the search starts empty |
| ValveSelector.Search.HandleSearchChange | frontend/src/components/ui/ValveSelector.jsx:13-15 | the term becomes the typed value |
| ValveSelector.Search.Listed | frontend/src/components/ui/ValveSelector.jsx:18-27 | the listed valves keep the list's order |
| Frames.Handle | backend/app/api/routes/reliability.py:79-85 | success passes through unchanged; an `HTTPException` is re-raised as is where the route re-raises it; any other failure becomes a 500 whose detail starts with the route's prefix |
| Frames.FirstMissing | backend/app/api/routes/reliability.py:56-71 | no column is reported exactly when every required one exists; otherwise the first required column, in order, that is missing |
| Frames.Truncate | backend/app/api/routes/forecast.py:70 | `int()` of a float truncates toward zero, from either side |
| Seqs.MeanSkipNaN | backend/app/api/routes/reliability.py:71 | `Series.mean()` is NaN exactly when no cell is present |
| Seqs.MeanBounds | backend/app/api/routes/reliability.py:71 | a mean lies between any lower and upper bound of the present cells |
| Sorting.SortBy | backend/app/api/routes/dashboard.py:198 | the sorted rows are a permutation of the input, ordered by the key |
| Sorting.SortedDistinctStrings | backend/app/api/routes/dashboard.py:141 | `sorted(unique())`: strictly ascending, no longer than the column, with the same values |
| Text.ParseDecimal | frontend/src/components/ui/BalanceTable.jsx:16 | `parseInt` of a run of decimal digits is its decimal value |
| Text.JsLowerIdempotent | frontend/src/components/ui/ValveSelector.jsx:22-24 | lower-casing twice is lower-casing once |

## Left out

- Floating point: every number is an exact `real`. Python's `round`, JavaScript's `toFixed` and `toLocaleString`, and IEEE rounding of sums and quotients are not modelled, so a reported value is the unrounded one.
- ScatterPlot.Correlation: `Math.sqrt` is not computed. Its result is a parameter `root` that is only assumed to be non-negative, zero exactly for a zero radicand, and NaN for a negative one. The coefficient is therefore pinned down only up to that root.
- CorrelationsRoute.ScatterCorrelation and CorrelationsRoute.ScatterCorrelationCases: pandas' Pearson coefficient (`DataFrame.corr`) is a parameter. Only the branches around it (same variable, fewer than two rows, NaN) are modelled.
- pandas parsing: `read_csv` and `to_datetime` are not modelled. Of the decimal-comma conversions of each `load_*`, only whether `astype(float)` succeeds is modelled, with Python's `float()` given as a parameter (`parsesFloat`); the converted values and the wording of its `ValueError` are not. A table arrives as its column names and records whose numeric cells are reals or NaN (the scatter route's cells may also be text), and a read attempt's result is given as data. An infinite value is not represented.
- Text in the master dataset is represented only for `get_correlation_scatter`, as a cell `float()` cannot convert (CorrelationsRoute.MasterCell). A text that spells a number is represented by that number. The other routes read numeric cells only.
- CorrelationsRoute.ScatterCorrelation: the `ValueError` that `corr()` raises over a text cell ends the 500 detail in a fixed stand-in (`NotNumericMessage`); its real wording depends on the pandas version and names the cell.
- CorrelationsRoute.PointOf: a variable named `VALVULA` or `PERIODO` is selected twice by `df_clean`; the model keeps the rows' `dropna` on the one cell and skips every row in the loop, as `float()` of a two-cell Series raises.
- Text columns used as a metric: `/models/comparison` accepts "valvula" and "modelo" as metrics, and the mean then fails (ModelsRoute.ComparisonOnText). The same metrics reach `idxmin` in `/models/best` and `/models/best-by-valve` (backend/app/api/routes/models.py:166-275), where pandas compares strings; that case is not modelled: those routes look a metric up among the numeric cells of a row only.
- DashboardRoute.FlagFailure: when a NaN flag elsewhere in the table turns the flags of the first period into the integers -2 and -1, the detail of the 500 ends in a fixed stand-in for the `KeyError` text pandas builds from them.
- ModelsRoute.ComparisonOutcome: the detail of the 500 for a text metric ends in a fixed stand-in for the `TypeError` text pandas builds from the cells.
- ModelsRoute.BestOutcome, ModelsRoute.EntryFor and DashboardRoute.BestRowFor: when every value of the metric is NaN, the detail of the 500 ends in a fixed stand-in (`ModelsRoute.NoMinimumMessage`). pandas is not pinned, and the real text differs by version: pandas 2.x returns a NaN label from `idxmin`, and the `.loc` that follows raises `KeyError: nan`; pandas 3 raises `ValueError` "Encountered all NA values".
- An infinite value is represented only where a route creates one: the index that `fillna` computes over a zero inflow for "VALVULA_1" (BalancesRoute.IndexInfinite). Its effect is modelled as the 500 that serialising the response gives (BalancesRoute.InfiniteIndexFails), with Starlette's plain "Internal Server Error" as its detail.
- Correlation matrices have distinct variable names. pandas' behaviour with repeated labels is not modelled.
- Exception texts: a 500 detail is the route's prefix followed by the exception's text. That text is written out only for the errors the routes themselves cause: `KeyError` of a missing column, `~` on a NaN flag in the first period visited, and a 404 caught by a generic handler. Any other exception's text is an opaque string.
- Response validation by pydantic is modelled only where it decides the outcome. `get_all_alerts` builds alerts without their required fields (AlertsRoute.AlertNeverBuilt), but the wording of the validation error is not modelled.
- FastAPI query validation: `limit` of `get_top_valves` is declared between 1 and 20. An out-of-range value gets a 422 before the route runs; the model requires `1 <= limit <= 20`, the range FastAPI lets through (DashboardRoute.TopValves, DashboardRoute.GetTopValves, DashboardRoute.TopValvesListed), and the 422 is not modelled.
- `analyze_balance` (backend/app/api/routes/balances.py:179-279) calls the OpenAI API and is not modelled.
- `get_dashboard_summary` (backend/app/api/routes/dashboard.py:233-259) reads the clock and is not modelled.
- `get_correlation_matrix` (backend/app/api/routes/correlations.py:23-60) and `list_valves` (backend/app/api/routes/balances.py:130-148) only reshape the loaded table for JSON and are not modelled.
- Sorting.SortBy is a stable sort. pandas `sort_values` defaults to quicksort, which is not stable. For `get_top_valves` the model therefore fixes an order among rows with equal losses that the source leaves unspecified. The order by loss itself is as in the source.
- The evolution of the loss index sorts periods as strings, as `sorted(unique())` does on a text column. Periods stored as numbers would sort numerically in pandas; that case is not modelled.
- Text.JsLower and Text.PyUpper map case only on the ASCII letters and the Latin-1 letters with a one-character counterpart in Latin-1; ß, ÿ and µ, which Python upper-cases to "SS", 'Ÿ' and 'Μ', are left unchanged. Python's `str.lower` (for model ids) is modelled with the same mapping, which agrees with it on that range.
- In-place sorts (`list.sort`, `sort_values`) are modelled as functions returning the sorted sequence. The routes' loops that build lists are methods delegating to the generic `Frames.Collect` and `Frames.MapEach` loops.
- Colour and label lookups index JavaScript objects by a string. A key that names an inherited property of `Object.prototype` (such as `"constructor"`) is treated like any other unknown key.
- UserStoreModel.UserStore.constructor: models the first load, with nothing saved. A load with a saved state is UserStoreModel.UserStore.Reload.
- UserStoreModel.UserStore.Reload: the saved state is the one the store itself wrote. Text edited by hand in the browser's storage, an unparsable item, and the moment the middleware writes are not modelled.
- Network: `fetch` in the frontend services is not modelled. A response is given as data, and the error `fetchAPI` throws is a function of it. URL percent-encoding by `URLSearchParams` and `encodeURIComponent` is not modelled; values are inserted as they are.
- React rendering: components are modelled as the data they derive (rows, labels, colours, flags), not as markup. Hooks such as `useMemo` and `useCallback` are plain functions.
- `formatAlertDate` formats with `Intl` and is not modelled.
- The tooltip of the loss-index chart and the locale formatting of numbers in tooltips are not modelled.
- PDF output: drawing, fonts, the layout of `autoTable` (how many pages a table runs over is given as data), the generation date and `doc.save` are not modelled.

## Findings

| source | as written | input that shows it | evidently intended | confidence | as-written member | corrected member |
|---|---|---|---|---|---|---|
| backend/app/api/routes/balances.py:151-176 | `get_valve_periods` has no `except HTTPException: raise`, so the generic handler turns its own 404 into a 500 whose detail is "Error al obtener períodos: 404: No hay períodos disponibles para {id}" | any valve with no periods | answer the 404 with its own detail, as every other route does | high; not executed | BalancesRoute.ValvePeriodsAsWritten (shown by BalancesRoute.NoPeriodsStatus) | BalancesRoute.ValvePeriods (BalancesRoute.PeriodsOrdered, BalancesRoute.PeriodsAgreeWhenFound) |
| frontend/src/components/charts/BalanceChart.jsx:12-32 | `CustomTooltip` captions `payload[0]`, `payload[1]` and `payload[2]` as "Entrada", "Salida" and "Pérdidas" by position, but recharts leaves the null volumes out of `payload`, so a later volume moves up under an earlier caption | a month with inflow 0 (turned into `null` at line 78), outflow 100 and losses 40: the tooltip reads "Entrada: 100" and "Salida: 40"; with the losses missing it reads only "Entrada: 100" | caption each value by its own bar (`entry.name` or `dataKey`) | medium; not executed | BalanceChart.TooltipAsWritten (shown by BalanceChart.ZeroInflowMislabelled, BalanceChart.AsWrittenTruthfulIffNullsTrail) | BalanceChart.TooltipLines (BalanceChart.TooltipShowsPresent) |
