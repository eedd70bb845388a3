/**
  The documents of the three collections (alerts, alert-groups, meta-alerts)
  as the dashboard reads them from search hits, the time range handed over by
  the time picker, and the immutable JavaScript objects whose identity React
  compares when it decides whether a table reloads or an effect runs.
*/
module Docs {
  import opened Wrappers

  /** Identifier of an alert, an alert-group or a meta-alert. */
  type Id = int

  /** The sort values of a hit; also the `search_after` cursor of a query. */
  type Cursor = seq<int>

  /** `_source` of an alert: the groups and the meta-alerts it belongs to. */
  datatype Alert = Alert(groups: seq<Id>, metaAlerts: seq<Id>)

  /** `_source` of an alert-group: its id and the meta-alert it belongs to. */
  datatype Group = Group(id: Id, metaAlertId: Id)

  /** One `[groupId, alertIds]` pair of a meta-alert's `group_ids`; the alert list may be null. */
  datatype GroupTuple = GroupTuple(groupId: Id, alertIds: Option<seq<Id>>)

  /** `_source` of a meta-alert; `group_ids` may be absent. */
  datatype Meta = Meta(id: Id, groupIds: Option<seq<GroupTuple>>)

  /** A search hit: its sort values and its `_source`. */
  datatype Hit<T> = Hit(sort: Cursor, source: T)

  /** A time range `{from, to}`; either end may be null. */
  datatype TimeRange = TimeRange(from: Option<string>, to: Option<string>)

  /** JavaScript truthiness of a string that may be null: present and not empty. */
  predicate Truthy(s: Option<string>)
  {
    s.Some? && s.value != ""
  }

  /** The `dateRange` of a submitted query is present and both its ends are truthy. */
  predicate HasBothEnds(dateRange: Option<TimeRange>)
  {
    dateRange.Some? && Truthy(dateRange.value.from) && Truthy(dateRange.value.to)
  }

  /**
    The range restored at start-up from the time picker's history (the parsed
    `kibana.timepicker.timeHistory` item, `None` when it is absent): its first,
    most recent entry, or a range with both ends null when there is none.
  */
  function InitialRange(history: Option<seq<TimeRange>>): (r: TimeRange)
    ensures history.Some? && |history.value| > 0 ==> r == history.value[0]
    ensures history.None? || |history.value| == 0 ==> r.from.None? && r.to.None?
  {
    if history.Some? && |history.value| > 0 then history.value[0] else TimeRange(None, None)
  }

  /**
    A JavaScript object literal that is never mutated after it is built.
    Each literal, `_.cloneDeep` or `{}` allocates a new one; React compares
    them by reference, which is Dafny's reference equality here.
  */
  class Obj<T> {
    const value: T

    constructor (value: T)
      ensures this.value == value
    {
      this.value := value;
    }
  }
}
