/**
  The older variant of the dashboard. Instead of filter maps, each table is
  given an `ids` object `{groupIds, metaIds}` (either list may be null);
  when that object changes, an effect builds the table's query from the time
  range, the table's cursor and the ids, stores it and fetches it. Selections
  are also written to browser storage, and a submitted query with both dates
  reads them back for all three tables.
*/
module LegacyDashboard {
  import opened Wrappers
  import opened Docs
  import opened Search
  import opened Derive

  datatype Collection = Alerts | Groups | Metas

  const QuerySize: int := 50
  const AggsBuckets: int := 20

  /** The `aggs` every query carries. */
  const HitsOverTime: AggRequest := AutoDateHistogram("@timestamp", AggsBuckets)

  function IndexOf(c: Collection): string
  {
    match c
    case Alerts => "alerts*"
    case Groups => "alert-groups*"
    case Metas => "meta-alerts*"
  }

  function SortOf(c: Collection): seq<string>
  {
    match c
    case Alerts => ["id:desc"]
    case Groups => ["group_id:desc"]
    case Metas => ["id:desc"]
  }

  /** The field a collection's query filters on with the group ids; the meta-alert query does not. */
  function GroupField(c: Collection): Option<string>
  {
    match c
    case Alerts => Some("groups")
    case Groups => Some("group_id")
    case Metas => None
  }

  /** The field a collection's query filters on with the meta-alert ids. */
  function MetaField(c: Collection): string
  {
    match c
    case Alerts => "meta_alerts"
    case Groups => "meta_alert_id"
    case Metas => "id"
  }

  /** The `ids` object handed to a table: `{groupIds, metaIds}`, either of which may be null. */
  datatype Ids = Ids(groupIds: Option<seq<Id>>, metaIds: Option<seq<Id>>)

  /** `(list.length > 0) ? list : null`. */
  function NullIfEmpty(s: seq<Id>): (r: Option<seq<Id>>)
    ensures r.None? <==> s == []
    ensures r.Some? ==> r.value == s && |r.value| > 0
  {
    if |s| > 0 then Some(s) else None
  }

  // ---------------------------------------------------------------------------
  // Queries.

  /** The values of the first `terms` clause on `field`, if any. */
  function TermsFor(flts: seq<Filter>, field: string): Option<seq<Id>>
  {
    if flts == [] then None
    else if flts[0].Terms? && flts[0].field == field then Some(flts[0].values)
    else TermsFor(flts[1..], field)
  }

  lemma {:induction false} TermsForAppend(a: seq<Filter>, b: seq<Filter>, field: string)
    ensures TermsFor(a + b, field) == if TermsFor(a, field).Some? then TermsFor(a, field) else TermsFor(b, field)
  {
    if a == [] {
      assert a + b == b;
    } else {
      assert (a + b)[0] == a[0];
      assert (a + b)[1..] == a[1..] + b;
      TermsForAppend(a[1..], b, field);
    }
  }

  function Present(o: Option<seq<Id>>): nat
  {
    if o.Some? then 1 else 0
  }

  /**
    `query.bool.filter` of a collection's query: the range on `@timestamp`,
    then a `terms` clause on the collection's group field when the ids carry
    group ids (never for meta-alerts), then one on its meta-alert field when
    they carry meta-alert ids. A null list adds no clause.
  */
  function QueryFilter(c: Collection, range: TimeRange, ids: Ids): (r: seq<Filter>)
    ensures |r| == 1 + (if GroupField(c).Some? then Present(ids.groupIds) else 0) + Present(ids.metaIds)
    ensures r[0] == TimestampRange(range)
    ensures forall i :: 1 <= i < |r| ==> r[i].Terms?
    ensures TermsFor(r, MetaField(c)) == ids.metaIds
    ensures GroupField(c).Some? ==> TermsFor(r, GroupField(c).value) == ids.groupIds
    ensures GroupField(c).Some? && ids.groupIds.Some? ==> r[1] == Terms(GroupField(c).value, ids.groupIds.value)
  {
    var head := [TimestampRange(range)];
    var groupPart := if GroupField(c).Some? && ids.groupIds.Some? then [Terms(GroupField(c).value, ids.groupIds.value)] else [];
    var metaPart := if ids.metaIds.Some? then [Terms(MetaField(c), ids.metaIds.value)] else [];
    TermsForAppend(head, groupPart + metaPart, MetaField(c));
    TermsForAppend(groupPart, metaPart, MetaField(c));
    var groupField := if GroupField(c).Some? then GroupField(c).value else "";
    TermsForAppend(head, groupPart + metaPart, groupField);
    TermsForAppend(groupPart, metaPart, groupField);
    assert head + groupPart + metaPart == head + (groupPart + metaPart);
    head + groupPart + metaPart
  }

  /** The query a collection's effect builds and fetches. */
  function CollectionQuery(c: Collection, range: TimeRange, cursor: Cursor, ids: Ids): (q: Query)
    ensures q.index == IndexOf(c) && q.size == QuerySize && q.sort == SortOf(c)
    ensures q.searchAfter == cursor && q.aggs == Some(HitsOverTime)
    ensures q.filter == QueryFilter(c, range, ids)
  {
    Query(IndexOf(c), QuerySize, SortOf(c), cursor, Some(HitsOverTime), QueryFilter(c, range, ids))
  }

  /**
    All three queries built from one ids object filter every collection on
    the same meta-alert ids; the alert and group queries also share the
    group ids.
  */
  lemma SharedIdsFilterAlike(range: TimeRange, ids: Ids)
    ensures TermsFor(QueryFilter(Alerts, range, ids), "meta_alerts") == ids.metaIds
    ensures TermsFor(QueryFilter(Groups, range, ids), "meta_alert_id") == ids.metaIds
    ensures TermsFor(QueryFilter(Metas, range, ids), "id") == ids.metaIds
    ensures TermsFor(QueryFilter(Alerts, range, ids), "groups") == ids.groupIds
    ensures TermsFor(QueryFilter(Groups, range, ids), "group_id") == ids.groupIds
    ensures TermsFor(QueryFilter(Metas, range, ids), "group_id") == None
  {
    var r := QueryFilter(Metas, range, ids);
    var metaPart := if ids.metaIds.Some? then [Terms("id", ids.metaIds.value)] else [];
    assert r == [TimestampRange(range)] + metaPart;
    TermsForAppend([TimestampRange(range)], metaPart, "group_id");
  }

  /**
    The effect of one table after a render: it runs when the ids object is
    not the one it saw last (React compares dependencies by reference), and
    its body builds and issues a query only when the object is not null.
  */
  function EffectFetch(c: Collection, seen: Option<Obj<Ids>>, current: Option<Obj<Ids>>,
                       range: TimeRange, cursor: Cursor): (r: Option<Query>)
    ensures r.Some? <==> current.Some? && current != seen
    ensures r.Some? ==> r.value == CollectionQuery(c, range, cursor, current.value.value)
  {
    if current != seen && current.Some? then Some(CollectionQuery(c, range, cursor, current.value.value)) else None
  }

  // ---------------------------------------------------------------------------
  // Browser storage of the last selection.

  /** Stored selections: a key's value is the JSON of an id list or `null`. */
  type Storage = map<string, Option<seq<Id>>>

  /** `JSON.parse(localStorage.getItem(key))`: a missing key reads as null. */
  function Stored(st: Storage, key: string): (r: Option<seq<Id>>)
    ensures key in st ==> r == st[key]
    ensures key !in st ==> r.None?
  {
    if key in st then st[key] else None
  }

  /** An alert or group selection writes both keys. */
  function Persisted(st: Storage, ids: Ids): (r: Storage)
    ensures Stored(r, "groupIds") == ids.groupIds && Stored(r, "metaIds") == ids.metaIds
    ensures forall k :: k != "groupIds" && k != "metaIds" ==> Stored(r, k) == Stored(st, k)
  {
    st["groupIds" := ids.groupIds]["metaIds" := ids.metaIds]
  }

  /** A meta-alert selection writes only `metaIds`. */
  function MetaPersisted(st: Storage, metaIds: Option<seq<Id>>): (r: Storage)
    ensures Stored(r, "metaIds") == metaIds
    ensures forall k :: k != "metaIds" ==> Stored(r, k) == Stored(st, k)
  {
    st["metaIds" := metaIds]
  }

  /** The ids object a submitted query builds from storage. */
  function SubmittedIds(st: Storage): Ids
  {
    Ids(Stored(st, "groupIds"), Stored(st, "metaIds"))
  }

  /** What an alert or group selection stores, a later submit reads back unchanged. */
  lemma PersistRoundTrip(st: Storage, ids: Ids)
    ensures SubmittedIds(Persisted(st, ids)) == ids
  {
  }

  /** A meta-alert selection keeps the stored group ids and replaces the stored meta-alert ids. */
  lemma MetaPersistRoundTrip(st: Storage, metaIds: Option<seq<Id>>)
    ensures SubmittedIds(MetaPersisted(st, metaIds)) == Ids(Stored(st, "groupIds"), metaIds)
  {
  }

  // ---------------------------------------------------------------------------
  // Selections.

  lemma NoMemberMeansEmpty(s: seq<Id>)
    ensures s == [] <==> forall x :: x !in s
  {
    if s != [] {
      var x := s[0];
      assert x in s;
    }
  }

  /** The derived id list is empty exactly when no selected alert references any id. */
  lemma {:induction false} EmptyUnionIffNoneReferenced(selected: seq<Alert>)
    ensures AlertGroupIds(selected) == [] <==> forall i :: 0 <= i < |selected| ==> selected[i].groups == []
    ensures AlertMetaIds(selected) == [] <==> forall i :: 0 <= i < |selected| ==> selected[i].metaAlerts == []
  {
    AlertIdsAreUnions(selected);
    NoMemberMeansEmpty(AlertGroupIds(selected));
    NoMemberMeansEmpty(AlertMetaIds(selected));
    forall i | 0 <= i < |selected|
      ensures AlertGroupIds(selected) == [] ==> selected[i].groups == []
      ensures AlertMetaIds(selected) == [] ==> selected[i].metaAlerts == []
    {
      NoMemberMeansEmpty(selected[i].groups);
      NoMemberMeansEmpty(selected[i].metaAlerts);
      forall g | g in selected[i].groups
        ensures g in AlertGroupIds(selected)
      {
        assert exists j :: 0 <= j < |selected| && g in selected[j].groups;
      }
      forall m | m in selected[i].metaAlerts
        ensures m in AlertMetaIds(selected)
      {
        assert exists j :: 0 <= j < |selected| && m in selected[j].metaAlerts;
      }
    }
  }

  /**
    The ids an alert selection hands on: the duplicate-free unions of the
    selected alerts' groups and meta-alerts, each null when it would be empty.
  */
  function AlertSelectionIds(selected: seq<Alert>): (r: Ids)
    ensures r.groupIds.None? <==> forall i :: 0 <= i < |selected| ==> selected[i].groups == []
    ensures r.metaIds.None? <==> forall i :: 0 <= i < |selected| ==> selected[i].metaAlerts == []
    ensures r.groupIds.Some? ==> r.groupIds.value == AlertGroupIds(selected)
    ensures r.metaIds.Some? ==> r.metaIds.value == AlertMetaIds(selected)
  {
    EmptyUnionIffNoneReferenced(selected);
    Ids(NullIfEmpty(AlertGroupIds(selected)), NullIfEmpty(AlertMetaIds(selected)))
  }

  /** The ids a group selection hands on: one group id and one meta-alert id per selected group, or null. */
  function GroupSelectionIds(selected: seq<Group>): (r: Ids)
    ensures r.groupIds.None? <==> selected == []
    ensures r.metaIds.None? <==> selected == []
    ensures r.groupIds.Some? ==> r.groupIds.value == GroupIdsOf(selected)
    ensures r.metaIds.Some? ==> r.metaIds.value == GroupMetaIdsOf(selected)
  {
    Ids(NullIfEmpty(GroupIdsOf(selected)), NullIfEmpty(GroupMetaIdsOf(selected)))
  }

  /**
    The ids a meta-alert selection hands on: the group ids of the group
    table's current ids object, and the selected meta-alert ids or null.
    With no ids object on the group table, reading its `groupIds` throws.
  */
  function MetaSelectionIds(forGroups: Option<Ids>, selected: seq<Meta>): (r: Option<Ids>)
    ensures r.None? <==> forGroups.None?
    ensures r.Some? ==> r.value.groupIds == forGroups.value.groupIds
    ensures r.Some? ==> (r.value.metaIds.None? <==> selected == [])
    ensures r.Some? && r.value.metaIds.Some? ==> r.value.metaIds.value == MetaIdsOf(selected)
  {
    if forGroups.None? then None else Some(Ids(forGroups.value.groupIds, NullIfEmpty(MetaIdsOf(selected))))
  }

  /** Whether each table accepts a selection. */
  datatype Locks = Locks(alert: bool, group: bool, meta: bool)

  /**
    A selection in `driver`'s table: the other two tables are locked when it
    is non-empty and unlocked when it is empty; the driver's own flag stays.
  */
  function Relocked(l: Locks, driver: Collection, nonEmpty: bool): (r: Locks)
    ensures driver == Alerts ==> r.alert == l.alert && r.group == r.meta == !nonEmpty
    ensures driver == Groups ==> r.group == l.group && r.alert == r.meta == !nonEmpty
    ensures driver == Metas ==> r.meta == l.meta && r.alert == r.group == !nonEmpty
  {
    match driver
    case Alerts => l.(group := !nonEmpty, meta := !nonEmpty)
    case Groups => l.(alert := !nonEmpty, meta := !nonEmpty)
    case Metas => l.(alert := !nonEmpty, group := !nonEmpty)
  }

  function Selectable(l: Locks, c: Collection): bool
  {
    match c
    case Alerts => l.alert
    case Groups => l.group
    case Metas => l.meta
  }

  /** All tables selectable, or exactly one. */
  predicate ExclusiveLocks(l: Locks)
  {
    || (l.alert && l.group && l.meta)
    || (l.alert && !l.group && !l.meta)
    || (!l.alert && l.group && !l.meta)
    || (!l.alert && !l.group && l.meta)
  }

  /** A selection in a selectable table keeps the locks exclusive and its own table selectable. */
  lemma {:induction false} RelockedKeepsExclusive(l: Locks, driver: Collection, nonEmpty: bool)
    requires ExclusiveLocks(l) && Selectable(l, driver)
    ensures ExclusiveLocks(Relocked(l, driver, nonEmpty)) && Selectable(Relocked(l, driver, nonEmpty), driver)
  {
    match driver
    case Alerts =>
    case Groups =>
    case Metas =>
  }

  // ---------------------------------------------------------------------------
  // Responses.

  /** `data.hits` of a response: `total` may be absent. */
  datatype HitsBlock<T> = HitsBlock(total: Option<int>, hits: seq<Hit<T>>)

  /**
    What a fetch resolves to: `Failed` when the request failed (the error is
    shown and swallowed, so the response is undefined), `NoData` for a
    response without `data`, otherwise the data, whose `hits` may be missing.
  */
  datatype LegacyResponse<T> =
    | Failed
    | NoData
    | Data(hits: Option<HitsBlock<T>>, aggregations: Option<Aggregations>)

  /** The rows, total, last aggregations and chart series of one table. */
  datatype PaneState<T> = PaneState(items: seq<Hit<T>>, total: int, aggs: Option<Aggregations>, chart: seq<Point>)

  /**
    `fetchAlerts`/`fetchGroups`/`fetchMetas` and, for alerts, the effect that
    turns new aggregations into the chart. A failed request changes nothing.
    A response without `data` resets the rows and the total, and the chart
    of alerts and meta-alerts. Data without `hits` throws before any update.
    Otherwise the rows are replaced, the total is replaced only when present,
    and the alert and meta-alert tables keep the aggregations when present.
    Only the alert chart follows them: the meta-alert effect never sets its
    chart.
  */
  function Completed<T>(c: Collection, p: PaneState<T>, resp: LegacyResponse<T>): (r: PaneState<T>)
    ensures resp.Failed? ==> r == p
    ensures resp.NoData? ==> r.items == [] && r.total == 0 && r.aggs == p.aggs
    ensures resp.NoData? ==> r.chart == (if c == Groups then p.chart else [])
    ensures resp.Data? && resp.hits.None? ==> r == p
    ensures resp.Data? && resp.hits.Some? ==>
      && r.items == resp.hits.value.hits
      && r.total == (if resp.hits.value.total.Some? then resp.hits.value.total.value else p.total)
      && r.aggs == (if c != Groups && resp.aggregations.Some? then resp.aggregations else p.aggs)
    ensures resp.Data? && resp.hits.Some? && c == Alerts && resp.aggregations.Some?
            && resp.aggregations.value.hitsOverTime.Some? ==>
      r.chart == ChartData(resp.aggregations.value.hitsOverTime.value)
    ensures c == Metas ==> r.chart == p.chart || r.chart == []
    ensures c == Groups ==> r.aggs == p.aggs && r.chart == p.chart
  {
    match resp
    case Failed => p
    case NoData => p.(items := [], total := 0, chart := if c == Groups then p.chart else [])
    case Data(block, aggregations) =>
      if block.None? then p
      else
        var total := if block.value.total.Some? then block.value.total.value else p.total;
        var q := p.(items := block.value.hits, total := total);
        if c == Groups || aggregations.None? then q
        else if c == Alerts && aggregations.value.hitsOverTime.Some? then
          q.(aggs := aggregations, chart := ChartData(aggregations.value.hitsOverTime.value))
        else q.(aggs := aggregations)
  }

  /** A table's state after a sequence of responses. */
  function CompletedAll<T>(c: Collection, p: PaneState<T>, resps: seq<LegacyResponse<T>>): PaneState<T>
    decreases |resps|
  {
    if resps == [] then p else CompletedAll(c, Completed(c, p, resps[0]), resps[1..])
  }

  /**
    The meta-alert chart, empty at start-up, stays empty whatever responses
    come back, and the group table never holds aggregations or a chart.
  */
  lemma {:induction false} MetaChartStaysEmpty<T>(p: PaneState<T>, resps: seq<LegacyResponse<T>>)
    requires p.chart == []
    ensures CompletedAll(Metas, p, resps).chart == []
    decreases |resps|
  {
    if resps != [] {
      MetaChartStaysEmpty(Completed(Metas, p, resps[0]), resps[1..]);
    }
  }

  lemma {:induction false} GroupsKeepNoAggregations<T>(p: PaneState<T>, resps: seq<LegacyResponse<T>>)
    ensures CompletedAll(Groups, p, resps).aggs == p.aggs
    ensures CompletedAll(Groups, p, resps).chart == p.chart
    decreases |resps|
  {
    if resps != [] {
      GroupsKeepNoAggregations(Completed(Groups, p, resps[0]), resps[1..]);
    }
  }

  /** "Load more" is shown while the table has rows and fewer than its total. */
  predicate LoadMoreShown<T>(p: PaneState<T>)
    ensures LoadMoreShown(p) ==> p.items != [] && p.total >= 2
    ensures p.items == [] ==> !LoadMoreShown(p)
  {
    |p.items| > 0 && p.total > |p.items|
  }

  /** After a response without data the button disappears; after a failed one it stays as it was. */
  lemma LoadMoreAfterResponse<T>(c: Collection, p: PaneState<T>, resp: LegacyResponse<T>)
    ensures resp.NoData? ==> !LoadMoreShown(Completed(c, p, resp))
    ensures resp.Failed? ==> (LoadMoreShown(Completed(c, p, resp)) <==> LoadMoreShown(p))
    ensures resp.Data? && resp.hits.Some? && resp.hits.value.total.Some? ==>
      (LoadMoreShown(Completed(c, p, resp)) <==>
       |resp.hits.value.hits| > 0 && resp.hits.value.total.value > |resp.hits.value.hits|)
  {
  }

  // ---------------------------------------------------------------------------
  // Loading more rows.

  /** The cursor `fetchMore*` uses: the last row's `sort` when there are rows, otherwise the current cursor. */
  function NextCursor<T>(items: seq<Hit<T>>, cursor: Cursor): (r: Cursor)
    ensures |items| > 0 ==> r == items[|items| - 1].sort
    ensures |items| == 0 ==> r == cursor
  {
    if |items| > 0 then items[|items| - 1].sort else cursor
  }

  /**
    `{...query, body: {...query.body, search_after: cursor}}`: the stored
    query with only its cursor replaced; with no stored query, reading its
    `body` throws and nothing is sent.
  */
  function MoreQuery(stored: Option<Query>, cursor: Cursor): (r: Option<Query>)
    ensures r.None? <==> stored.None?
    ensures r.Some? ==> r.value.searchAfter == cursor && r.value.(searchAfter := stored.value.searchAfter) == stored.value
  {
    if stored.None? then None else Some(stored.value.(searchAfter := cursor))
  }

  /**
    The rows after a load-more response: the response's rows appended to the
    rows the table had; any other outcome throws in the response handler and
    changes nothing. The total is not updated.
  */
  function MoreFetched<T>(items: seq<Hit<T>>, resp: LegacyResponse<T>): (r: seq<Hit<T>>)
    ensures |r| >= |items|
    ensures resp.Data? && resp.hits.Some? ==> r[..|items|] == items && r[|items|..] == resp.hits.value.hits
    ensures !(resp.Data? && resp.hits.Some?) ==> r == items
  {
    if resp.Data? && resp.hits.Some? then items + resp.hits.value.hits else items
  }

  /** Two load-more steps on the same stored query send the same query but for the cursor. */
  lemma MoreQueriesDifferOnlyInCursor(stored: Query, c1: Cursor, c2: Cursor)
    ensures MoreQuery(Some(stored), c1).value.(searchAfter := c2) == MoreQuery(Some(stored), c2).value
  {
  }

  // ---------------------------------------------------------------------------
  // The component.

  /** The state of one table: its rows, total, aggregations, chart, stored query and cursor. */
  class Pane<T> {
    const kind: Collection
    var items: seq<Hit<T>>
    var total: int
    var aggs: Option<Aggregations>
    var chart: seq<Point>
    var query: Option<Query>
    var searchAfter: Cursor

    function State(): PaneState<T>
      reads this
    {
      PaneState(items, total, aggs, chart)
    }

    constructor (kind: Collection, now: int)
      ensures this.kind == kind
      ensures State() == PaneState([], 0, None, []) && query.None? && searchAfter == [now]
    {
      this.kind := kind;
      items, total, aggs, chart := [], 0, None, [];
      query := None;
      searchAfter := [now];
    }

    /** Every render starts the cursor afresh at `[Date.now()]`. */
    method Rendered(now: int)
      modifies this`searchAfter
      ensures searchAfter == [now]
    {
      searchAfter := [now];
    }

    /** The body of the table's query effect: build the query, store it and issue it. */
    method Issue(range: TimeRange, ids: Ids) returns (q: Query)
      modifies this`query
      ensures q == CollectionQuery(kind, range, searchAfter, ids) && query == Some(q)
    {
      var filter := [TimestampRange(range)];
      if GroupField(kind).Some? && ids.groupIds.Some? {
        filter := filter + [Terms(GroupField(kind).value, ids.groupIds.value)];
      }
      if ids.metaIds.Some? {
        filter := filter + [Terms(MetaField(kind), ids.metaIds.value)];
      }
      q := Query(IndexOf(kind), QuerySize, SortOf(kind), searchAfter, Some(HitsOverTime), filter);
      query := Some(q);
    }

    /** The completion of the table's fetch. */
    method Fetched(resp: LegacyResponse<T>)
      modifies this`items, this`total, this`aggs, this`chart
      ensures State() == Completed(kind, old(State()), resp)
    {
      match resp
      case Failed =>
      case NoData =>
        items, total := [], 0;
        if kind != Groups {
          chart := [];
        }
      case Data(block, aggregations) =>
        if block.Some? {
          if block.value.total.Some? {
            total := block.value.total.value;
          }
          items := block.value.hits;
          if kind != Groups && aggregations.Some? {
            aggs := aggregations;
            if kind == Alerts && aggregations.value.hitsOverTime.Some? {
              chart := ChartData(aggregations.value.hitsOverTime.value);
            }
          }
        }
    }

    /**
      `fetchMore*`: move the cursor to the last row's `sort`, send the stored
      query with that cursor, and append the rows of the response.
    */
    method FetchMore(resp: LegacyResponse<T>) returns (sent: Option<Query>)
      modifies this`searchAfter, this`items
      ensures searchAfter == NextCursor(old(items), old(searchAfter))
      ensures sent == MoreQuery(query, searchAfter)
      ensures items == (if sent.Some? then MoreFetched(old(items), resp) else old(items))
    {
      if |items| > 0 {
        searchAfter := items[|items| - 1].sort;
      }
      if query.None? {
        return None;
      }
      sent := Some(query.value.(searchAfter := searchAfter));
      if resp.Data? && resp.hits.Some? {
        items := items + resp.hits.value.hits;
      }
    }
  }

  class LegacyApp {
    const alerts: Pane<Alert>
    const groups: Pane<Group>
    const metas: Pane<Meta>
    var idsForAlerts: Option<Obj<Ids>>
    var idsForGroups: Option<Obj<Ids>>
    var idsForMetas: Option<Obj<Ids>>
    var isAlertSelectable: bool
    var isGroupSelectable: bool
    var isMetaSelectable: bool
    var storage: Storage
    /** The range every query filters on, re-read from the time picker's history on each render. */
    var range: TimeRange
    /** The ids objects each query effect saw when it last ran. */
    var seenForAlerts: Option<Obj<Ids>>
    var seenForGroups: Option<Obj<Ids>>
    var seenForMetas: Option<Obj<Ids>>

    predicate Valid()
    {
      alerts.kind == Alerts && groups.kind == Groups && metas.kind == Metas
    }

    function LockState(): Locks
      reads this
    {
      Locks(isAlertSelectable, isGroupSelectable, isMetaSelectable)
    }

    constructor (now: int, history: Option<seq<TimeRange>>, storage: Storage)
      ensures Valid() && fresh(alerts) && fresh(groups) && fresh(metas)
      ensures alerts.State() == PaneState([], 0, None, []) && alerts.query.None? && alerts.searchAfter == [now]
      ensures groups.State() == PaneState([], 0, None, []) && groups.query.None? && groups.searchAfter == [now]
      ensures metas.State() == PaneState([], 0, None, []) && metas.query.None? && metas.searchAfter == [now]
      ensures idsForAlerts.None? && idsForGroups.None? && idsForMetas.None?
      ensures seenForAlerts.None? && seenForGroups.None? && seenForMetas.None?
      ensures LockState() == Locks(true, true, true) && ExclusiveLocks(LockState())
      ensures this.storage == storage && range == InitialRange(history)
    {
      alerts := new Pane(Alerts, now);
      groups := new Pane(Groups, now);
      metas := new Pane(Metas, now);
      idsForAlerts, idsForGroups, idsForMetas := None, None, None;
      seenForAlerts, seenForGroups, seenForMetas := None, None, None;
      isAlertSelectable, isGroupSelectable, isMetaSelectable := true, true, true;
      this.storage := storage;
      range := InitialRange(history);
    }

    /** A re-render: the range is re-read and all three cursors start again at `[now]`. */
    method Render(now: int, history: Option<seq<TimeRange>>)
      modifies this`range, alerts`searchAfter, groups`searchAfter, metas`searchAfter
      ensures range == InitialRange(history)
      ensures alerts.searchAfter == groups.searchAfter == metas.searchAfter == [now]
    {
      range := InitialRange(history);
      alerts.Rendered(now);
      groups.Rendered(now);
      metas.Rendered(now);
    }

    /**
      `onQuerySubmit`: with both dates truthy, one new ids object read from
      storage is handed to all three tables; otherwise nothing happens.
    */
    method OnQuerySubmit(dateRange: Option<TimeRange>)
      modifies this`idsForAlerts, this`idsForGroups, this`idsForMetas
      ensures HasBothEnds(dateRange) ==>
        && idsForAlerts.Some? && fresh(idsForAlerts.value)
        && idsForGroups == idsForMetas == idsForAlerts
        && idsForAlerts.value.value == SubmittedIds(storage)
      ensures !HasBothEnds(dateRange) ==> unchanged(this)
    {
      if dateRange.Some? && Truthy(dateRange.value.from) && Truthy(dateRange.value.to) {
        var ids := new Obj(Ids(Stored(storage, "groupIds"), Stored(storage, "metaIds")));
        idsForAlerts, idsForGroups, idsForMetas := Some(ids), Some(ids), Some(ids);
      }
    }

    /** `onAlertSelectionChange`: hands new ids to the group and meta-alert tables and stores them. */
    method OnAlertSelectionChange(selected: seq<Alert>)
      modifies this`idsForGroups, this`idsForMetas, this`isGroupSelectable, this`isMetaSelectable, this`storage
      ensures idsForGroups.Some? && fresh(idsForGroups.value) && idsForMetas == idsForGroups
      ensures idsForGroups.value.value == AlertSelectionIds(selected)
      ensures LockState() == Relocked(old(LockState()), Alerts, |selected| > 0)
      ensures storage == Persisted(old(storage), AlertSelectionIds(selected))
    {
      var groupIds, metaIds := CollectAlertIds(selected);
      if |selected| > 0 {
        isGroupSelectable, isMetaSelectable := false, false;
      } else {
        isGroupSelectable, isMetaSelectable := true, true;
      }
      var ids := new Obj(Ids(NullIfEmpty(groupIds), NullIfEmpty(metaIds)));
      idsForGroups, idsForMetas := Some(ids), Some(ids);
      storage := storage["groupIds" := ids.value.groupIds];
      storage := storage["metaIds" := ids.value.metaIds];
    }

    /** `onGroupSelection`: hands new ids to the alert and meta-alert tables and stores them. */
    method OnGroupSelection(selected: seq<Group>)
      modifies this`idsForAlerts, this`idsForMetas, this`isAlertSelectable, this`isMetaSelectable, this`storage
      ensures idsForAlerts.Some? && fresh(idsForAlerts.value) && idsForMetas == idsForAlerts
      ensures idsForAlerts.value.value == GroupSelectionIds(selected)
      ensures LockState() == Relocked(old(LockState()), Groups, |selected| > 0)
      ensures storage == Persisted(old(storage), GroupSelectionIds(selected))
    {
      var groupIds, metaIds := CollectGroupIds(selected);
      if |selected| > 0 {
        isAlertSelectable, isMetaSelectable := false, false;
      } else {
        isAlertSelectable, isMetaSelectable := true, true;
      }
      var ids := new Obj(Ids(NullIfEmpty(groupIds), NullIfEmpty(metaIds)));
      idsForAlerts, idsForMetas := Some(ids), Some(ids);
      storage := storage["groupIds" := ids.value.groupIds];
      storage := storage["metaIds" := ids.value.metaIds];
    }

    /**
      `onMetaSelection`: hands new ids to the alert and group tables and
      stores the meta-alert ids; with no ids object on the group table it
      throws after the locks are set.
    */
    method OnMetaSelection(selected: seq<Meta>)
      modifies this`idsForAlerts, this`idsForGroups, this`isAlertSelectable, this`isGroupSelectable, this`storage
      ensures LockState() == Relocked(old(LockState()), Metas, |selected| > 0)
      ensures old(idsForGroups).None? ==>
        idsForAlerts == old(idsForAlerts) && idsForGroups == old(idsForGroups) && storage == old(storage)
      ensures old(idsForGroups).Some? ==>
        && idsForAlerts.Some? && fresh(idsForAlerts.value) && idsForGroups == idsForAlerts
        && Some(idsForAlerts.value.value) == MetaSelectionIds(Some(old(idsForGroups).value.value), selected)
        && storage == MetaPersisted(old(storage), NullIfEmpty(MetaIdsOf(selected)))
    {
      var metaIds := CollectMetaIds(selected);
      if |selected| > 0 {
        isAlertSelectable, isGroupSelectable := false, false;
      } else {
        isAlertSelectable, isGroupSelectable := true, true;
      }
      if idsForGroups.None? {
        return;
      }
      var ids := new Obj(Ids(idsForGroups.value.value.groupIds, NullIfEmpty(metaIds)));
      idsForAlerts, idsForGroups := Some(ids), Some(ids);
      storage := storage["metaIds" := ids.value.metaIds];
    }

    /**
      The query effects after a render: each table whose ids object changed
      and is not null stores and issues its query.
    */
    method CommitEffects() returns (alertFetch: Option<Query>, groupFetch: Option<Query>, metaFetch: Option<Query>)
      requires Valid()
      modifies this`seenForAlerts, this`seenForGroups, this`seenForMetas, alerts`query, groups`query, metas`query
      ensures alertFetch == EffectFetch(Alerts, old(seenForAlerts), idsForAlerts, range, alerts.searchAfter)
      ensures groupFetch == EffectFetch(Groups, old(seenForGroups), idsForGroups, range, groups.searchAfter)
      ensures metaFetch == EffectFetch(Metas, old(seenForMetas), idsForMetas, range, metas.searchAfter)
      ensures alerts.query == (if alertFetch.Some? then alertFetch else old(alerts.query))
      ensures groups.query == (if groupFetch.Some? then groupFetch else old(groups.query))
      ensures metas.query == (if metaFetch.Some? then metaFetch else old(metas.query))
      ensures seenForAlerts == idsForAlerts && seenForGroups == idsForGroups && seenForMetas == idsForMetas
    {
      alertFetch, groupFetch, metaFetch := None, None, None;
      if idsForAlerts != seenForAlerts && idsForAlerts.Some? {
        var q := alerts.Issue(range, idsForAlerts.value.value);
        alertFetch := Some(q);
      }
      if idsForGroups != seenForGroups && idsForGroups.Some? {
        var q := groups.Issue(range, idsForGroups.value.value);
        groupFetch := Some(q);
      }
      if idsForMetas != seenForMetas && idsForMetas.Some? {
        var q := metas.Issue(range, idsForMetas.value.value);
        metaFetch := Some(q);
      }
      seenForAlerts, seenForGroups, seenForMetas := idsForAlerts, idsForGroups, idsForMetas;
    }
  }

  /**
    A submit with both dates, the render it causes, then the effects: all
    three tables are re-queried, even when the stored selection is unchanged,
    with the stored ids, the re-read range and the fresh cursor `[now]`.
  */
  method SubmitAndCommit(app: LegacyApp, dateRange: Option<TimeRange>, now: int, history: Option<seq<TimeRange>>)
    returns (alertFetch: Option<Query>, groupFetch: Option<Query>, metaFetch: Option<Query>)
    requires app.Valid() && HasBothEnds(dateRange)
    modifies app, app.alerts, app.groups, app.metas
    ensures alertFetch.Some? && groupFetch.Some? && metaFetch.Some?
    ensures alertFetch.value.searchAfter == groupFetch.value.searchAfter == metaFetch.value.searchAfter == [now]
    ensures alertFetch.value.filter == QueryFilter(Alerts, InitialRange(history), SubmittedIds(app.storage))
    ensures groupFetch.value.filter == QueryFilter(Groups, InitialRange(history), SubmittedIds(app.storage))
    ensures metaFetch.value.filter == QueryFilter(Metas, InitialRange(history), SubmittedIds(app.storage))
    ensures TermsFor(alertFetch.value.filter, "meta_alerts") == Stored(app.storage, "metaIds")
    ensures TermsFor(groupFetch.value.filter, "meta_alert_id") == Stored(app.storage, "metaIds")
    ensures TermsFor(metaFetch.value.filter, "id") == Stored(app.storage, "metaIds")
    ensures TermsFor(alertFetch.value.filter, "groups") == Stored(app.storage, "groupIds")
    ensures TermsFor(groupFetch.value.filter, "group_id") == Stored(app.storage, "groupIds")
  {
    app.OnQuerySubmit(dateRange);
    app.Render(now, history);
    alertFetch, groupFetch, metaFetch := app.CommitEffects();
  }

  /**
    After the effects have caught up, an alert selection, the render it
    causes and the effects re-query the group and meta-alert tables, never
    the alert table itself.
  */
  method SelectAlertsAndCommit(app: LegacyApp, selected: seq<Alert>, now: int, history: Option<seq<TimeRange>>)
    returns (alertFetch: Option<Query>, groupFetch: Option<Query>, metaFetch: Option<Query>)
    requires app.Valid() && app.seenForAlerts == app.idsForAlerts
    modifies app, app.alerts, app.groups, app.metas
    ensures alertFetch.None? && groupFetch.Some? && metaFetch.Some?
    ensures groupFetch.value.filter == QueryFilter(Groups, InitialRange(history), AlertSelectionIds(selected))
    ensures metaFetch.value.filter == QueryFilter(Metas, InitialRange(history), AlertSelectionIds(selected))
    ensures groupFetch.value.searchAfter == metaFetch.value.searchAfter == [now]
  {
    app.OnAlertSelectionChange(selected);
    app.Render(now, history);
    alertFetch, groupFetch, metaFetch := app.CommitEffects();
  }
}
