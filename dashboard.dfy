/**
  The cross-filtering dashboard: three tables (alerts, alert-groups,
  meta-alerts), each given a filter object and a `selectable` flag. A row
  selection in one table derives ids from the selected documents, writes
  them into the other two tables' filters under the field names of those
  tables, and locks or unlocks the other two tables; selecting meta-alerts
  also builds the relationship graph shown in the flyout.

  Every filter (and the dates object) is a fresh object after each update,
  and a table reloads when the object it is given changes, so the
  freshness each handler ensures decides which tables reload.
*/
module Dashboard {
  import opened Wrappers
  import opened Docs
  import opened Search
  import opened FilterMap
  import opened Derive
  import opened GraphBuilder
  import RecordTable

  /** The three tables' filters and whether each table accepts a selection. */
  datatype Selection = Selection(
    alertFilters: Filters,
    groupFilters: Filters,
    metaFilters: Filters,
    alertSelectable: bool,
    groupSelectable: bool,
    metaSelectable: bool)

  /** The relationship graph and whether the flyout showing it is open. */
  datatype Flyout = Flyout(graph: Graph, visible: bool)

  /** The three series of the overview chart. */
  datatype Charts = Charts(alerts: seq<Point>, groups: seq<Point>, metas: seq<Point>)

  /** Either all tables are selectable, or exactly one is: the one driving the selection. */
  predicate Exclusive(s: Selection)
  {
    || (s.alertSelectable && s.groupSelectable && s.metaSelectable)
    || (s.alertSelectable && !s.groupSelectable && !s.metaSelectable)
    || (!s.alertSelectable && s.groupSelectable && !s.metaSelectable)
    || (!s.alertSelectable && !s.groupSelectable && s.metaSelectable)
  }

  predicate FiltersValid(s: Selection)
  {
    UniqueKeys(s.alertFilters) && UniqueKeys(s.groupFilters) && UniqueKeys(s.metaFilters)
  }

  /** At start-up: empty filters and every table selectable. */
  function InitialSelection(): (r: Selection)
    ensures r.alertFilters == r.groupFilters == r.metaFilters == []
    ensures r.alertSelectable && r.groupSelectable && r.metaSelectable
    ensures Exclusive(r) && FiltersValid(r)
  {
    Selection([], [], [], true, true, true)
  }

  /** `onDatetimeUpdate`: takes a submitted range only when both ends are truthy. */
  function DatesUpdated(dates: TimeRange, dateRange: Option<TimeRange>): (r: TimeRange)
    ensures HasBothEnds(dateRange) ==> r == dateRange.value
    ensures !HasBothEnds(dateRange) ==> r == dates
    ensures Truthy(r.from) && Truthy(r.to) <== HasBothEnds(dateRange)
  {
    if HasBothEnds(dateRange) then TimeRange(dateRange.value.from, dateRange.value.to) else dates
  }

  /** `handleAlertSelection`, gated on the number of derived meta-alert ids. */
  function AlertSelected(v: Selection, alerts: seq<Alert>): (r: Selection)
    ensures r.alertFilters == v.alertFilters && r.alertSelectable == v.alertSelectable
    ensures |AlertMetaIds(alerts)| > 0 ==>
      && Get(r.groupFilters, "meta_alert_id") == Some(AlertMetaIds(alerts))
      && Get(r.groupFilters, "id") == Some(AlertGroupIds(alerts))
      && (forall k :: k != "meta_alert_id" && k != "id" ==> Get(r.groupFilters, k) == Get(v.groupFilters, k))
      && Get(r.metaFilters, "id") == Some(AlertMetaIds(alerts))
      && (forall k :: k != "id" ==> Get(r.metaFilters, k) == Get(v.metaFilters, k))
      && !r.groupSelectable && !r.metaSelectable
    ensures |AlertMetaIds(alerts)| == 0 ==>
      r.groupFilters == [] && r.metaFilters == [] && r.groupSelectable && r.metaSelectable
    ensures Exclusive(v) && v.alertSelectable ==> Exclusive(r)
    ensures FiltersValid(v) ==> FiltersValid(r)
  {
    var groupIds, metaIds := AlertGroupIds(alerts), AlertMetaIds(alerts);
    if |metaIds| > 0 then
      v.(groupFilters := Assign(Assign(v.groupFilters, "meta_alert_id", metaIds), "id", groupIds),
         metaFilters := Assign(v.metaFilters, "id", metaIds),
         groupSelectable := false, metaSelectable := false)
    else
      v.(groupFilters := [], metaFilters := [], groupSelectable := true, metaSelectable := true)
  }

  /** `handleGroupSelection`: one group id and one meta-alert id per selected group. */
  function GroupSelected(v: Selection, groups: seq<Group>): (r: Selection)
    ensures r.groupFilters == v.groupFilters && r.groupSelectable == v.groupSelectable
    ensures |groups| > 0 ==>
      && Get(r.alertFilters, "meta_alerts") == Some(GroupMetaIdsOf(groups))
      && Get(r.alertFilters, "groups") == Some(GroupIdsOf(groups))
      && (forall k :: k != "meta_alerts" && k != "groups" ==> Get(r.alertFilters, k) == Get(v.alertFilters, k))
      && Get(r.metaFilters, "id") == Some(GroupMetaIdsOf(groups))
      && (forall k :: k != "id" ==> Get(r.metaFilters, k) == Get(v.metaFilters, k))
      && !r.alertSelectable && !r.metaSelectable
    ensures |groups| == 0 ==>
      r.alertFilters == [] && r.metaFilters == [] && r.alertSelectable && r.metaSelectable
    ensures Exclusive(v) && v.groupSelectable ==> Exclusive(r)
    ensures FiltersValid(v) ==> FiltersValid(r)
  {
    var groupIds, metaIds := GroupIdsOf(groups), GroupMetaIdsOf(groups);
    if |groupIds| > 0 then
      v.(alertFilters := Assign(Assign(v.alertFilters, "meta_alerts", metaIds), "groups", groupIds),
         metaFilters := Assign(v.metaFilters, "id", metaIds),
         alertSelectable := false, metaSelectable := false)
    else
      v.(alertFilters := [], metaFilters := [], alertSelectable := true, metaSelectable := true)
  }

  /**
    `handleMetaSelection`, on the filters. A non-empty selection locks the
    alert and group tables and filters them on the selected ids; when
    building the graph throws, only the two locks have taken effect. An
    empty selection clears both filters and unlocks both tables.
  */
  function MetaSelected(v: Selection, metas: seq<Meta>): (r: Selection)
    ensures r.metaFilters == v.metaFilters && r.metaSelectable == v.metaSelectable
    ensures |metas| > 0 && GraphOf(metas).Some? ==>
      && Get(r.alertFilters, "meta_alerts") == Some(MetaIdsOf(metas))
      && (forall k :: k != "meta_alerts" ==> Get(r.alertFilters, k) == Get(v.alertFilters, k))
      && Get(r.groupFilters, "meta_alert_id") == Some(MetaIdsOf(metas))
      && (forall k :: k != "meta_alert_id" ==> Get(r.groupFilters, k) == Get(v.groupFilters, k))
      && !r.alertSelectable && !r.groupSelectable
    ensures |metas| > 0 && GraphOf(metas).None? ==> r == v.(alertSelectable := false, groupSelectable := false)
    ensures |metas| == 0 ==>
      r.alertFilters == [] && r.groupFilters == [] && r.alertSelectable && r.groupSelectable
    ensures Exclusive(v) && v.metaSelectable ==> Exclusive(r)
    ensures FiltersValid(v) ==> FiltersValid(r)
  {
    var metaIds := MetaIdsOf(metas);
    if |metaIds| > 0 then
      if GraphOf(metas).None? then v.(alertSelectable := false, groupSelectable := false)
      else
        v.(alertFilters := Assign(v.alertFilters, "meta_alerts", metaIds),
           groupFilters := Assign(v.groupFilters, "meta_alert_id", metaIds),
           alertSelectable := false, groupSelectable := false)
    else
      v.(alertFilters := [], groupFilters := [], alertSelectable := true, groupSelectable := true)
  }

  /**
    `handleMetaSelection`, on the flyout: a non-empty selection whose graph
    builds shows that graph; an empty one empties the graph and hides the
    flyout; a failed build leaves both as they were.
  */
  function MetaFlyout(f: Flyout, metas: seq<Meta>): (r: Flyout)
    ensures |metas| > 0 && GraphOf(metas).Some? ==> r == Flyout(GraphOf(metas).value, true)
    ensures |metas| > 0 && GraphOf(metas).None? ==> r == f
    ensures |metas| == 0 ==> r.graph == Empty && !r.visible
  {
    if |MetaIdsOf(metas)| > 0 then
      match GraphOf(metas)
      case None => f
      case Some(g) => Flyout(g, true)
    else
      Flyout(Empty, false)
  }

  /** A selection change in one of the three tables. */
  datatype Event =
    | AlertsPicked(alerts: seq<Alert>)
    | GroupsPicked(groups: seq<Group>)
    | MetasPicked(metas: seq<Meta>)

  /** A table's rows can be (de)selected only while the table is selectable. */
  predicate Enabled(s: Selection, e: Event)
  {
    match e
    case AlertsPicked(_) => s.alertSelectable
    case GroupsPicked(_) => s.groupSelectable
    case MetasPicked(_) => s.metaSelectable
  }

  function Step(s: Selection, e: Event): Selection
  {
    match e
    case AlertsPicked(alerts) => AlertSelected(s, alerts)
    case GroupsPicked(groups) => GroupSelected(s, groups)
    case MetasPicked(metas) => MetaSelected(s, metas)
  }

  /** Every event of the sequence is enabled when it happens. */
  predicate Admissible(s: Selection, events: seq<Event>)
    decreases |events|
  {
    events == [] || (Enabled(s, events[0]) && Admissible(Step(s, events[0]), events[1..]))
  }

  function Run(s: Selection, events: seq<Event>): Selection
    decreases |events|
  {
    if events == [] then s else Run(Step(s, events[0]), events[1..])
  }

  /** The driving table stays selectable and the locks stay exclusive. */
  lemma StepKeepsInvariants(s: Selection, e: Event)
    requires Exclusive(s) && FiltersValid(s) && Enabled(s, e)
    ensures Exclusive(Step(s, e)) && FiltersValid(Step(s, e)) && Enabled(Step(s, e), e)
  {
  }

  /**
    From start-up, along any sequence of selections made in selectable
    tables, either every table is selectable or exactly one is, and no filter
    holds a field twice.
  */
  lemma {:induction false} RunKeepsInvariants(s: Selection, events: seq<Event>)
    requires Exclusive(s) && FiltersValid(s) && Admissible(s, events)
    ensures Exclusive(Run(s, events)) && FiltersValid(Run(s, events))
    decreases |events|
  {
    if events != [] {
      StepKeepsInvariants(s, events[0]);
      RunKeepsInvariants(Step(s, events[0]), events[1..]);
    }
  }

  /** Clearing the selection of the driving table unlocks every table and empties the other two filters. */
  lemma ClearingUnlocks(s: Selection, e: Event)
    requires Exclusive(s) && Enabled(s, e)
    requires e == AlertsPicked([]) || e == GroupsPicked([]) || e == MetasPicked([])
    ensures var r := Step(s, e);
      r.alertSelectable && r.groupSelectable && r.metaSelectable
    ensures e.AlertsPicked? ==> Step(s, e).groupFilters == [] && Step(s, e).metaFilters == []
    ensures e.GroupsPicked? ==> Step(s, e).alertFilters == [] && Step(s, e).metaFilters == []
    ensures e.MetasPicked? ==> Step(s, e).alertFilters == [] && Step(s, e).groupFilters == []
  {
    if e.AlertsPicked? {
      assert GroupLists([]) == [] && MetaLists([]) == [];
    }
  }

  // ---------------------------------------------------------------------------
  // The generator statistics behind the overview chart.

  /** `_source` of a `generator-stats*` hit. */
  datatype StatDoc = StatDoc(timestamp: string, alertCount: int, groupCount: int, metaCount: int)

  datatype StatsResponse = StatsOk(hits: seq<StatDoc>) | StatsErr

  /** One chart series of the statistics: the parsed timestamp and one of the counts of each hit, in order. */
  function Series(docs: seq<StatDoc>, parse: string -> int, count: StatDoc -> int): (r: seq<Point>)
    ensures |r| == |docs|
    ensures forall i :: 0 <= i < |docs| ==> r[i] == Point(parse(docs[i].timestamp), count(docs[i]))
  {
    seq(|docs|, i requires 0 <= i < |docs| => Point(parse(docs[i].timestamp), count(docs[i])))
  }

  function AlertCountOf(d: StatDoc): int { d.alertCount }
  function GroupCountOf(d: StatDoc): int { d.groupCount }
  function MetaCountOf(d: StatDoc): int { d.metaCount }

  /** The `hits.forEach` of `fetchStats`, pushing one point to each of the three series per hit; `parse` is `Date.parse`. */
  method ProjectStats(docs: seq<StatDoc>, parse: string -> int)
    returns (alertCounts: seq<Point>, groupCounts: seq<Point>, metaCounts: seq<Point>)
    ensures alertCounts == Series(docs, parse, AlertCountOf)
    ensures groupCounts == Series(docs, parse, GroupCountOf)
    ensures metaCounts == Series(docs, parse, MetaCountOf)
  {
    alertCounts, groupCounts, metaCounts := [], [], [];
    var i := 0;
    while i < |docs|
      invariant 0 <= i <= |docs|
      invariant alertCounts == Series(docs[..i], parse, AlertCountOf)
      invariant groupCounts == Series(docs[..i], parse, GroupCountOf)
      invariant metaCounts == Series(docs[..i], parse, MetaCountOf)
    {
      var ts := parse(docs[i].timestamp);
      alertCounts := alertCounts + [Point(ts, docs[i].alertCount)];
      groupCounts := groupCounts + [Point(ts, docs[i].groupCount)];
      metaCounts := metaCounts + [Point(ts, docs[i].metaCount)];
      i := i + 1;
    }
    assert docs[..i] == docs;
  }

  /** A statistics response replaces the three series; a failed one changes nothing. */
  function StatsCompleted(c: Charts, resp: StatsResponse, parse: string -> int): (r: Charts)
    ensures resp.StatsErr? ==> r == c
    ensures resp.StatsOk? ==>
      && r.alerts == Series(resp.hits, parse, AlertCountOf)
      && r.groups == Series(resp.hits, parse, GroupCountOf)
      && r.metas == Series(resp.hits, parse, MetaCountOf)
    ensures resp.StatsOk? ==> |r.alerts| == |r.groups| == |r.metas| == |resp.hits|
  {
    match resp
    case StatsErr => c
    case StatsOk(docs) =>
      Charts(Series(docs, parse, AlertCountOf), Series(docs, parse, GroupCountOf), Series(docs, parse, MetaCountOf))
  }

  // ---------------------------------------------------------------------------
  // The component.

  class App {
    var dates: Obj<TimeRange>
    var alertFilters: Obj<Filters>
    var groupFilters: Obj<Filters>
    var metaFilters: Obj<Filters>
    var isAlertSelectable: bool
    var isGroupSelectable: bool
    var isMetaSelectable: bool
    var graphData: Graph
    var isFlyoutVisible: bool
    var alertChartData: seq<Point>
    var groupChartData: seq<Point>
    var metaChartData: seq<Point>

    function SelectionState(): Selection
      reads this
    {
      Selection(alertFilters.value, groupFilters.value, metaFilters.value,
                isAlertSelectable, isGroupSelectable, isMetaSelectable)
    }

    function FlyoutState(): Flyout
      reads this
    {
      Flyout(graphData, isFlyoutVisible)
    }

    function ChartState(): Charts
      reads this
    {
      Charts(alertChartData, groupChartData, metaChartData)
    }

    constructor (history: Option<seq<TimeRange>>)
      ensures dates.value == InitialRange(history)
      ensures SelectionState() == InitialSelection()
      ensures FlyoutState() == Flyout(Empty, false) && ChartState() == Charts([], [], [])
    {
      dates := new Obj(InitialRange(history));
      alertFilters := new Obj([]);
      groupFilters := new Obj([]);
      metaFilters := new Obj([]);
      isAlertSelectable, isGroupSelectable, isMetaSelectable := true, true, true;
      graphData, isFlyoutVisible := Empty, false;
      alertChartData, groupChartData, metaChartData := [], [], [];
    }

    /**
      `onDatetimeUpdate`: with both ends truthy, a fresh dates object (so every
      table reloads) and the statistics request's range filter; otherwise nothing.
    */
    method OnDatetimeUpdate(dateRange: Option<TimeRange>) returns (statsFilter: Option<Filter>)
      modifies this`dates
      ensures dates.value == DatesUpdated(old(dates.value), dateRange)
      ensures HasBothEnds(dateRange) ==> fresh(dates) && statsFilter == Some(TimestampRange(dates.value))
      ensures !HasBothEnds(dateRange) ==> dates == old(dates) && statsFilter.None?
    {
      statsFilter := None;
      if dateRange.Some? {
        var range := dateRange.value;
        if Truthy(range.from) && Truthy(range.to) {
          dates := new Obj(TimeRange(range.from, range.to));
          statsFilter := Some(TimestampRange(TimeRange(range.from, range.to)));
        }
      }
    }

    /** The completion of `fetchStats`. */
    method CompleteStats(resp: StatsResponse, parse: string -> int)
      modifies this`alertChartData, this`groupChartData, this`metaChartData
      ensures ChartState() == StatsCompleted(old(ChartState()), resp, parse)
    {
      if resp.StatsOk? {
        alertChartData, groupChartData, metaChartData := ProjectStats(resp.hits, parse);
      }
    }

    /** `handleAlertSelection`: both written filters are new objects. */
    method HandleAlertSelection(alerts: seq<Alert>)
      modifies this`groupFilters, this`metaFilters, this`isGroupSelectable, this`isMetaSelectable
      ensures SelectionState() == AlertSelected(old(SelectionState()), alerts)
      ensures fresh(groupFilters) && fresh(metaFilters)
    {
      var groupIds, metaIds := CollectAlertIds(alerts);
      if |metaIds| > 0 {
        var groupTerms := Assign(Assign(groupFilters.value, "meta_alert_id", metaIds), "id", groupIds);
        var metaTerms := Assign(metaFilters.value, "id", metaIds);
        groupFilters := new Obj(groupTerms);
        metaFilters := new Obj(metaTerms);
        isGroupSelectable, isMetaSelectable := false, false;
      } else {
        groupFilters := new Obj([]);
        metaFilters := new Obj([]);
        isGroupSelectable, isMetaSelectable := true, true;
      }
    }

    /** `handleGroupSelection`: both written filters are new objects. */
    method HandleGroupSelection(groups: seq<Group>)
      modifies this`alertFilters, this`metaFilters, this`isAlertSelectable, this`isMetaSelectable
      ensures SelectionState() == GroupSelected(old(SelectionState()), groups)
      ensures fresh(alertFilters) && fresh(metaFilters)
    {
      var groupIds, metaIds := CollectGroupIds(groups);
      if |groupIds| > 0 {
        var alertTerms := Assign(Assign(alertFilters.value, "meta_alerts", metaIds), "groups", groupIds);
        var metaTerms := Assign(metaFilters.value, "id", metaIds);
        alertFilters := new Obj(alertTerms);
        metaFilters := new Obj(metaTerms);
        isAlertSelectable, isMetaSelectable := false, false;
      } else {
        alertFilters := new Obj([]);
        metaFilters := new Obj([]);
        isAlertSelectable, isMetaSelectable := true, true;
      }
    }

    /**
      `handleMetaSelection`, including the graph build. Written filters are new
      objects; when the build throws, both filter objects stay the same, so
      neither table reloads.
    */
    method HandleMetaSelection(metas: seq<Meta>)
      modifies this`alertFilters, this`groupFilters, this`isAlertSelectable, this`isGroupSelectable,
               this`graphData, this`isFlyoutVisible
      ensures SelectionState() == MetaSelected(old(SelectionState()), metas)
      ensures FlyoutState() == MetaFlyout(old(FlyoutState()), metas)
      ensures !(|metas| > 0 && GraphOf(metas).None?) ==> fresh(alertFilters) && fresh(groupFilters)
      ensures |metas| > 0 && GraphOf(metas).None? ==>
        alertFilters == old(alertFilters) && groupFilters == old(groupFilters)
    {
      var metaIds := CollectMetaIds(metas);
      if |metaIds| > 0 {
        var alertTerms := Assign(alertFilters.value, "meta_alerts", metaIds);
        var groupTerms := Assign(groupFilters.value, "meta_alert_id", metaIds);
        isAlertSelectable, isGroupSelectable := false, false;
        var graph := BuildGraph(metas);
        if graph.None? {
          return;
        }
        graphData, isFlyoutVisible := graph.value, true;
        alertFilters := new Obj(alertTerms);
        groupFilters := new Obj(groupTerms);
      } else {
        isAlertSelectable, isGroupSelectable := true, true;
        isFlyoutVisible, graphData := false, Empty;
        alertFilters := new Obj([]);
        groupFilters := new Obj([]);
      }
    }
  }

  /**
    After an alert selection the tables re-render with the dashboard's
    props: the group and meta-alert tables reload and the alert table, whose
    props did not change, does not.
  */
  method SelectAlertsAndRender(app: App, alertTable: RecordTable.Table<Alert>,
                               groupTable: RecordTable.Table<Group>, metaTable: RecordTable.Table<Meta>,
                               alerts: seq<Alert>)
    returns (alertReload: bool, groupReload: bool, metaReload: bool)
    requires alertTable.dates == app.dates && alertTable.filters == app.alertFilters
    modifies app, alertTable, groupTable, metaTable
    ensures app.SelectionState() == AlertSelected(old(app.SelectionState()), alerts)
    ensures !alertReload && groupReload && metaReload
  {
    app.HandleAlertSelection(alerts);
    alertReload := alertTable.ComponentDidUpdate(app.dates, app.alertFilters);
    groupReload := groupTable.ComponentDidUpdate(app.dates, app.groupFilters);
    metaReload := metaTable.ComponentDidUpdate(app.dates, app.metaFilters);
  }
}
