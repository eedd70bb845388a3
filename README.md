# AMiner CTI dashboard: cross-filter model

This project models the client side of the AMiner CTI Kibana plugin as Dafny.
The plugin is a dashboard with three tables of search hits: alerts,
alert-groups and meta-alerts.

- **Cross-filtering.** Selecting rows in one table derives id lists from the
  rows' relationship fields. Those ids go into the filters of the *other two*
  tables under the field names each of those tables uses. The two other tables
  are locked while the selection is non-empty. An empty selection clears their
  filters and unlocks them.
- **Graph.** Selecting meta-alerts also builds the node/link graph shown in
  the flyout. A meta-alert with many groups, or a group with many alerts,
  collapses into summary nodes.
- **Tables.** Each table composes its query from the time range, its filter
  map and a `search_after` cursor. A response replaces its rows, or appends
  to them on "load more". A failed request leaves the table as it was.
- **Older variant.** The older version of the dashboard does the same routing
  with `{groupIds, metaIds}` objects that drive query effects. It also keeps
  the last selection in browser storage.

Modules:

- `Wrappers`, `Docs`, `Search`: the documents, the time range, the query and
  its aggregations.
- `Docs.Obj`: an immutable JavaScript object compared by reference. React
  decides on this identity whether a table reloads or an effect runs. Every
  object literal and `_.cloneDeep` is a fresh `Obj`.
- `FilterMap`: a table's filter object. It is an association list because
  object keys keep insertion order, and that order becomes the order of the
  `terms` clauses. `Assign` is `Object.assign`.
- `Derive`: the id lists a selection derives:
  - the duplicate-free unions for alerts, with the `includes`/`push` loops as
    methods;
  - the parallel lists for groups and meta-alerts.
- `GraphBuilder`: the flyout graph. The node ids are a datatype:
  - `MA(id)`, `G(id)`, `A(id)`;
  - `GroupsSummary(n)` and `AlertsSummary(n)`. Their id is just the count,
    so equal counts share an id.
- `RecordTable`: the `Table` component as a class holding `hits`, `total` and
  `searchAfter`.
- `Dashboard`: the current dashboard component as class `App`.
  - Each handler is proved equal to a pure transition on a `Selection` value
    or a `Flyout` value.
  - Sequences of selections keep the locks exclusive.
- `LegacyDashboard`: the older component as class `LegacyApp`, with one
  `Pane` per table.

Inputs from the outside are parameters:

- `http.get` replies are datatypes (`Response`, `StatsResponse`, `LegacyResponse`).
- `Date.now()` is `now`.
- `Date.parse` is a function parameter `parse`.
- The parsed time-picker history is `history`.
- Browser storage is the `storage` map field.

A handler that throws a `TypeError` keeps the state updates made before the
throw and none after. React applies the setter calls already made.

## Model

| member | source | states |
|---|---|---|
| Docs.InitialRange | src/public/components/app.tsx:70-78 | the start-up range is the first entry of the stored time history when there is one, otherwise both ends are null |
| Search.ChartData | src/public/components/tables.tsx:65-69 | one point `[key, doc_count]` per bucket, same length and order |
| FilterMap.Assign | src/public/components/app.tsx:238-239 | after `Object.assign` the key maps to the new ids, every other key keeps its value, an existing key keeps its position, a new key goes last, keys stay unique |
| Derive.DedupCharacterised | src/public/components/app.tsx:221-229 | the `includes`-guarded push keeps exactly the elements of the input, each once, in first-occurrence order |
| Derive.PushAllNew | src/public/components/app.tsx:221-225 | pushing one alert's ids into the accumulator extends the deduplication of everything seen so far |
| Derive.AlertIdsAreUnions | src/public/components/app.tsx:218-231 | the derived group and meta-alert lists hold exactly the union of the selected alerts' `groups` / `meta_alerts`, without duplicates, in first-occurrence order |
| Derive.CollectAlertIds | src/public/components/app.tsx:218-231 | the nested `forEach` loops compute those two deduplicated unions |
| Derive.CollectGroupIds | src/public/components/app.tsx:260-266 | one group id and one meta-alert id per selected group, in order, so the lists are parallel and of equal length |
| Derive.CollectMetaIds | src/public/components/app.tsx:293-298 | one id per selected meta-alert, in order |
| GraphBuilder.TotalAlerts | src/public/components/app.tsx:321-325 | the alert count of a collapsed meta-alert exists iff every group has an alert list, and is then non-negative |
| GraphBuilder.CountAlerts | src/public/components/app.tsx:321-325 | the `alert_count +=` loop throws iff some alert list is null and otherwise yields that total |
| GraphBuilder.TotalAlertsOfPrefix | src/public/components/app.tsx:322-324 | a null alert list anywhere makes the whole accumulation throw |
| GraphBuilder.AlertLayer | src/public/components/app.tsx:336-347 | below 11 alerts one `A` node per alert id; from 11 up the single "<k> Alerts" node; every node linked from the group node |
| GraphBuilder.GroupLayer | src/public/components/app.tsx:330-349 | one group pushes its `G` node linked from `MA`, then its alert layer (nothing for a null list); equal numbers of nodes and links, at most 11 |
| GraphBuilder.GroupsLayer | src/public/components/app.tsx:330-349 | the groups' layers in order; as many links as nodes, at most 11 nodes per group |
| GraphBuilder.MetaGraph | src/public/components/app.tsx:312-351 | one meta-alert's part throws iff it has more than 11 groups and one has a null alert list; otherwise it starts with `MA` and has one link fewer than nodes |
| GraphBuilder.GraphOf | src/public/components/app.tsx:311-352 | the selection's graph has as many links as nodes minus selected meta-alerts |
| GraphBuilder.EmitAlerts | src/public/components/app.tsx:336-347 | the alert-level push equals `AlertLayer`: one `A` node per alert id below 11 alerts, otherwise one "<k> Alerts" node, each linked from the group node |
| GraphBuilder.EmitGroups | src/public/components/app.tsx:330-349 | the group loop pushes the group layers, in order |
| GraphBuilder.EmitMeta | src/public/components/app.tsx:312-351 | one meta-alert pushes `MA`, then the collapsed pair or the group layers; it fails exactly when the collapsed count throws |
| GraphBuilder.BuildGraph | src/public/components/app.tsx:309-353 | the outer loop builds the concatenation of the meta-alerts' parts, or throws |
| GraphBuilder.GraphOfPrefix | src/public/components/app.tsx:311-352 | once a prefix of the selection throws, the whole build throws |
| GraphBuilder.GroupsLayerPushedAfter | src/public/components/app.tsx:330-349 | in the group layers every link targets the node pushed with it and starts at a node pushed earlier; at most 11 nodes per group |
| GraphBuilder.MetaGraphWellFormed | src/public/components/app.tsx:313-351 | a meta-alert's part starts with its `MA` node; every further node comes with one link from an earlier node; at most 1 + 11·11 nodes |
| GraphBuilder.GraphOfFailsIff | src/public/components/app.tsx:311-352 | the build throws iff some selected meta-alert's part throws |
| GraphBuilder.JoinClosed | src/public/components/app.tsx:311-352 | appending one meta-alert's part keeps every link between existing nodes |
| GraphBuilder.JoinOrdered | src/public/components/app.tsx:311-352 | appending one meta-alert's part keeps every link running from a node pushed earlier to a node pushed later |
| GraphBuilder.RootedOrdered | src/public/components/app.tsx:313-351 | in one meta-alert's part every link runs from a node pushed earlier to a node pushed later |
| GraphBuilder.GraphLinks | src/public/components/app.tsx:309-353 | in the whole graph every link's ends are nodes and its source is pushed before its target |
| GraphBuilder.GraphMetaNodes | src/public/components/app.tsx:311-315 | every selected meta-alert's `MA` node is in the graph |
| GraphBuilder.GraphSize | src/public/components/app.tsx:309-353 | the graph has at most 1 + 11·11 nodes per selected meta-alert |
| GraphBuilder.GraphShape | src/public/components/app.tsx:309-353 | every link's ends are nodes, its source pushed before its target; every selected meta-alert has its `MA` node; links = nodes − selected meta-alerts; node count bounded per meta-alert; nodes are not deduplicated |
| GraphBuilder.GraphWellFormed | src/public/components/app.tsx:309-353 | the graph build throws iff some meta-alert's part throws; otherwise links are closed and ordered, every `MA` is present, links = nodes − metas, and the size is bounded |
| GraphBuilder.UniformGroupsLayerSize | src/public/components/app.tsx:330-349 | groups that all have k < 11 alerts push 1 + k nodes and 1 + k links each |
| GraphBuilder.SmallMetaExpands | src/public/components/app.tsx:330-342 | 3 groups of 5 alerts expand to 19 nodes and 18 links |
| GraphBuilder.ManyGroupsCollapse | src/public/components/app.tsx:317-328 | more than 11 groups give exactly `MA`, "<n> Groups", "<Σ> Alerts" and the links MA→Groups→Alerts |
| RecordTable.ComposeFilters | src/public/components/tables.tsx:27-42 | the filter list is the `@timestamp` range on the dates, then one `terms` clause per filter entry in key order, 1 + keys long |
| RecordTable.Fetched | src/public/components/tables.tsx:57-89 | failure leaves the page unchanged; success sets the total and the cursor `[now]`; rows are replaced, or appended with the old rows as prefix |
| RecordTable.ChartEmitted | src/public/components/tables.tsx:65-73 | chart data is emitted iff there is a handler and the response has `hits_over_time`, and it is the bucket projection |
| RecordTable.MoreCursor | src/public/components/tables.tsx:92-95 | load-more does nothing iff no hit is loaded; otherwise the cursor is the last hit's `sort` |
| RecordTable.LoadMoreOffered | src/public/components/tables.tsx:130 | the button is shown iff the total exceeds the loaded rows; it implies a positive total, and on an empty table it is shown iff the total is positive |
| RecordTable.LoadMoreScenario | src/public/components/tables.tsx:130 | 50 of 120 rows offer "load more"; after 100 they still do; after 120 they do not; earlier rows stay a prefix |
| RecordTable.Table.constructor | src/public/components/tables.tsx:8-15 | an empty page, total 0, cursor `[now]` |
| RecordTable.Table.ComponentDidUpdate | src/public/components/tables.tsx:20-24 | a non-append reload starts iff the `dates` or `filters` reference changed; the page is untouched |
| RecordTable.Table.FetchData | src/public/components/tables.tsx:26-90 | the request carries the props, the current cursor and the composed filters; the new page is `Fetched` of the old one; the chart output is `ChartEmitted` |
| RecordTable.Table.FetchMore | src/public/components/tables.tsx:92-98 | nothing happens on an empty table; otherwise the cursor moves to the last hit's `sort` and an append fetch is sent with it |
| Dashboard.InitialSelection | src/public/components/app.tsx:111-117 | all filters empty and all tables selectable, which satisfies the invariants |
| Dashboard.DatesUpdated | src/public/components/app.tsx:204-212 | dates change iff the submitted range is present with both ends truthy |
| Dashboard.AlertSelected | src/public/components/app.tsx:234-253 | with meta ids: group filter gets `meta_alert_id` and `id`, meta filter gets `id`, other keys kept, both tables locked; otherwise both filters `{}` and unlocked; the alert side untouched; invariants kept |
| Dashboard.GroupSelected | src/public/components/app.tsx:268-287 | with groups: alert filter gets `meta_alerts` and `groups`, meta filter gets `id`, other keys kept, both tables locked; otherwise both `{}` and unlocked; the group side untouched |
| Dashboard.MetaSelected | src/public/components/app.tsx:300-367 | with metas: alert filter gets `meta_alerts` and group filter `meta_alert_id`, both tables locked; if the graph throws, only the locks change; empty: both `{}`, unlocked |
| Dashboard.MetaFlyout | src/public/components/app.tsx:303-363 | a built graph is shown in a visible flyout; an empty selection hides an empty graph; a failed build changes nothing |
| Dashboard.StepKeepsInvariants | src/public/components/app.tsx:369-381 | a selection in a selectable table keeps the locks exclusive, the table selectable and filter keys unique |
| Dashboard.RunKeepsInvariants | src/public/components/app.tsx:369-381 | along any admissible sequence of selections the locks stay exclusive and the filter keys unique |
| Dashboard.ClearingUnlocks | src/public/components/app.tsx:242-250 | clearing the driving table's selection unlocks all three tables and empties the other two filters |
| Dashboard.Series | src/public/components/app.tsx:183-189 | one `[Date.parse(@timestamp), count]` point per statistics hit, in order |
| Dashboard.ProjectStats | src/public/components/app.tsx:183-189 | the `forEach` builds the three series |
| Dashboard.StatsCompleted | src/public/components/app.tsx:177-201 | a statistics response replaces all three series with equal-length projections; an error changes nothing |
| Dashboard.App.constructor | src/public/components/app.tsx:103-126 | dates from the time history, the initial selection, empty graph, hidden flyout, empty charts |
| Dashboard.App.OnDatetimeUpdate | src/public/components/app.tsx:204-212 | a fresh dates object and the statistics range exactly when both ends are truthy; nothing else is written |
| Dashboard.App.CompleteStats | src/public/components/app.tsx:177-201 | the chart series become `StatsCompleted` of the old ones |
| Dashboard.App.HandleAlertSelection | src/public/components/app.tsx:214-254 | the selection becomes `AlertSelected` of the old one, with fresh filter objects for the group and meta tables |
| Dashboard.App.HandleGroupSelection | src/public/components/app.tsx:256-288 | the selection becomes `GroupSelected` of the old one, with fresh filter objects |
| Dashboard.App.HandleMetaSelection | src/public/components/app.tsx:290-367 | selection and flyout become `MetaSelected` / `MetaFlyout` of the old ones; fresh filter objects, except that when the build throws both filter objects stay the same, so no table reloads |
| Dashboard.SelectAlertsAndRender | src/public/components/app.tsx:252-253 | after an alert selection, the group and meta-alert tables reload and the alert table does not |
| LegacyDashboard.NullIfEmpty | src/v7.10/aminer_cti/public/components/app_copy.tsx:473-474 | an empty list becomes null, never `[]` |
| LegacyDashboard.QueryFilter | src/v7.10/aminer_cti/public/components/app_copy.tsx:152-239 | range first; then `terms` on the group field iff group ids are non-null (never for metas); then on the meta field iff meta ids are non-null |
| LegacyDashboard.CollectionQuery | src/v7.10/aminer_cti/public/components/app_copy.tsx:163-177 | the index, size 50, sort, cursor and `hits_over_time` aggregation of the collection's query |
| LegacyDashboard.SharedIdsFilterAlike | src/v7.10/aminer_cti/public/components/app_copy.tsx:140-147 | one ids object makes all three queries filter on the same meta ids, and the alert and group queries on the same group ids |
| LegacyDashboard.EffectFetch | src/v7.10/aminer_cti/public/components/app_copy.tsx:152-181 | a table queries iff its ids object is non-null and not the one its effect last saw |
| LegacyDashboard.Stored | src/v7.10/aminer_cti/public/components/app_copy.tsx:136-137 | a missing storage key reads as null |
| LegacyDashboard.Persisted | src/v7.10/aminer_cti/public/components/app_copy.tsx:484-485 | alert and group selections write both `groupIds` and `metaIds`; other keys are kept |
| LegacyDashboard.MetaPersisted | src/v7.10/aminer_cti/public/components/app_copy.tsx:544 | a meta-alert selection writes only `metaIds` |
| LegacyDashboard.PersistRoundTrip | src/v7.10/aminer_cti/public/components/app_copy.tsx:132-150 | a submit reads back exactly the ids an alert or group selection stored |
| LegacyDashboard.MetaPersistRoundTrip | src/v7.10/aminer_cti/public/components/app_copy.tsx:536-544 | after a meta-alert selection a submit reads the old group ids and the new meta ids |
| LegacyDashboard.EmptyUnionIffNoneReferenced | src/v7.10/aminer_cti/public/components/app_copy.tsx:451-474 | a derived union is empty iff no selected alert references such an id |
| LegacyDashboard.AlertSelectionIds | src/v7.10/aminer_cti/public/components/app_copy.tsx:447-479 | the ids are the deduplicated unions, each null iff no selected alert has such ids |
| LegacyDashboard.GroupSelectionIds | src/v7.10/aminer_cti/public/components/app_copy.tsx:488-511 | the parallel group and meta id lists, both null iff nothing is selected |
| LegacyDashboard.MetaSelectionIds | src/v7.10/aminer_cti/public/components/app_copy.tsx:520-539 | group ids come from the group table's ids object (null object: throws); meta ids are the selected ids or null |
| LegacyDashboard.Relocked | src/v7.10/aminer_cti/public/components/app_copy.tsx:466-471 | the other two tables are locked iff the selection is non-empty; the driver's own flag never changes |
| LegacyDashboard.RelockedKeepsExclusive | src/v7.10/aminer_cti/public/components/app_copy.tsx:547-550 | a selection in a selectable table keeps the locks exclusive and that table selectable |
| LegacyDashboard.Completed | src/v7.10/aminer_cti/public/components/app_copy.tsx:283-347 | undefined response: no change; no `data`: reset; `data`: rows replaced, total only if present, aggregations only if present (not for groups), alert chart from them |
| LegacyDashboard.MetaChartStaysEmpty | src/v7.10/aminer_cti/public/components/app_copy.tsx:252-260 | the meta-alert chart stays empty whatever responses arrive |
| LegacyDashboard.GroupsKeepNoAggregations | src/v7.10/aminer_cti/public/components/app_copy.tsx:334-347 | group responses never change the group table's aggregations or chart |
| LegacyDashboard.LoadMoreShown | src/v7.10/aminer_cti/public/components/app_copy.tsx:757 | the button is shown iff there are rows and fewer than the total; it is never shown on an empty table and implies a total of at least 2 |
| LegacyDashboard.LoadMoreAfterResponse | src/v7.10/aminer_cti/public/components/app_copy.tsx:757 | "load more" disappears after a response without data and is kept after a failure; after data carrying `hits.total` it is shown iff the new rows are non-empty and fewer than that total |
| LegacyDashboard.NextCursor | src/v7.10/aminer_cti/public/components/app_copy.tsx:351-354 | the cursor becomes the last row's `sort` when there are rows and stays otherwise |
| LegacyDashboard.MoreQuery | src/v7.10/aminer_cti/public/components/app_copy.tsx:355 | the stored query with only its `search_after` replaced; no stored query: throws |
| LegacyDashboard.MoreFetched | src/v7.10/aminer_cti/public/components/app_copy.tsx:356-358 | the response rows are appended after the old rows; any other response throws and changes nothing |
| LegacyDashboard.MoreQueriesDifferOnlyInCursor | src/v7.10/aminer_cti/public/components/app_copy.tsx:349-383 | two load-more queries from the same stored query differ only in the cursor |
| LegacyDashboard.Pane.constructor | src/v7.10/aminer_cti/public/components/app_copy.tsx:71-93 | empty rows, total 0, no aggregations, empty chart, no stored query, cursor `[now]` |
| LegacyDashboard.Pane.Rendered | src/v7.10/aminer_cti/public/components/app_copy.tsx:71 | every render resets the cursor to `[now]` |
| LegacyDashboard.Pane.Issue | src/v7.10/aminer_cti/public/components/app_copy.tsx:152-181 | the effect body builds `CollectionQuery` with the current cursor and stores it |
| LegacyDashboard.Pane.Fetched | src/v7.10/aminer_cti/public/components/app_copy.tsx:300-315 | the table becomes `Completed` of its old state |
| LegacyDashboard.Pane.FetchMore | src/v7.10/aminer_cti/public/components/app_copy.tsx:349-359 | cursor is `NextCursor`, sent query is `MoreQuery`, rows are `MoreFetched` when sent |
| LegacyDashboard.LegacyApp.constructor | src/v7.10/aminer_cti/public/components/app_copy.tsx:95-116 | all tables selectable, no ids objects, empty panes, range from the time history |
| LegacyDashboard.LegacyApp.Render | src/v7.10/aminer_cti/public/components/app_copy.tsx:105-116 | the range is re-read from the time history and all cursors restart at `[now]` |
| LegacyDashboard.LegacyApp.OnQuerySubmit | src/v7.10/aminer_cti/public/components/app_copy.tsx:132-150 | with both dates truthy, one fresh ids object read from storage goes to all three tables; otherwise nothing changes |
| LegacyDashboard.LegacyApp.OnAlertSelectionChange | src/v7.10/aminer_cti/public/components/app_copy.tsx:447-486 | a fresh ids object for groups and metas only, `Relocked`, and storage `Persisted` |
| LegacyDashboard.LegacyApp.OnGroupSelection | src/v7.10/aminer_cti/public/components/app_copy.tsx:488-518 | a fresh ids object for alerts and metas only, `Relocked`, and storage `Persisted` |
| LegacyDashboard.LegacyApp.OnMetaSelection | src/v7.10/aminer_cti/public/components/app_copy.tsx:520-545 | `Relocked`; with a group ids object, a fresh ids object for alerts and groups and `metaIds` stored; without it, only the locks change |
| LegacyDashboard.LegacyApp.CommitEffects | src/v7.10/aminer_cti/public/components/app_copy.tsx:152-239 | each table whose ids object changed and is non-null stores and issues its query; the others keep their stored query |
| LegacyDashboard.SubmitAndCommit | src/v7.10/aminer_cti/public/components/app_copy.tsx:132-239 | a submit with both dates, then the render, then the effects: all three tables are queried with the stored ids, the range re-read from the time history and the cursor `[now]` |
| LegacyDashboard.SelectAlertsAndCommit | src/v7.10/aminer_cti/public/components/app_copy.tsx:447-486 | an alert selection, then the render, then the effects: the group and meta-alert tables are queried with its ids, the re-read range and the cursor `[now]`; the alert table is not queried |

## Left out

- The server routes (`src/server/routes/index.ts` and the v7.17 copy) are left out. They only forward requests to the Elasticsearch client.
- The plugin registration, `index.ts` and `types.ts` files are left out. They only wire the plugin into Kibana.
- JSX rendering, table columns, `graphConfig`, the graph, chart and EUI widgets, and `formatDate`/`formatTickDate` are left out. They are UI and foreign libraries.
- The "+" suffix next to the counts is left out as UI. In `tables.tsx:111` it reads an undefined `this.total`. In the older dashboard the group header tests `totalAlerts` (app_copy.tsx:775).
- Only the visibility conditions of the "Load more" buttons are modelled: `LoadMoreOffered` and `LoadMoreShown`.
- `generateGraph` (app_copy.tsx:417-445) is left out: it is a fixed demo graph and is never called.
- `filterByAlert` (app_copy.tsx:385-401) is left out: it is never used.
- The flyout's close button is left out: it only hides the flyout.
- `http.get`, notifications, `Date.now()`, `Date.parse` and browser storage access are parameters or fields, not I/O.
- The error toasts are not modelled. A failure is a response value that leaves the state as the code leaves it.
- `JSON.stringify`/`JSON.parse` of stored selections is abstracted: a stored key holds an id list or null.
- Asynchronous interleaving is not modelled. Each request completion is one atomic step applied to the state current at that step. This covers several gaps:
  - the states between a request and its response;
  - responses overtaking each other;
  - the stale `alerts`/`groups`/`metas` closure that `fetchMore*` appends to.
- `handleNodes` of the table is not modelled. No table in the core passes it.
- The `metaNodes`/`groupNodes` and `*GroupIds`/`*MetaIds` state of the current dashboard is not modelled: it is declared but never written.
- Documents are assumed well-formed: an alert always carries its `groups` and `meta_alerts` lists, and a hit always carries `sort`. Only the null cases that the handlers dereference are modelled: a null alert list in a collapsed meta-alert, a null ids object and a missing response.
- In the older dashboard, the alert-aggregation effect (app_copy.tsx:242-250) is folded into the fetch completion. A new aggregations object always sets the alert chart when it has `hits_over_time`.
- Behaviour of the code that the model keeps:
  - a late response is never discarded;
  - "load more" is not blocked while a reload is pending;
  - graph nodes are not deduplicated;
  - a date change does not clear filters or selections;
  - clearing a selection sets only the other two tables' flags;
  - the graph build can throw.
- `RecordTable.Table.FetchData`: `hits.total.value` is assumed present in every successful response, as the code assumes.
