/**
  One table of records (alerts, alert-groups or meta-alerts): the page of
  hits it holds, the running total, and the `search_after` cursor; how it
  composes its query from the `dates` and `filters` it is given; how a
  response replaces or extends the page; and "load more".
*/
module RecordTable {
  import opened Wrappers
  import opened Docs
  import opened Search
  import opened FilterMap

  /** A reply of the `/data` route: hits, `hits.total.value` and optional aggregations, or a failed request. */
  datatype Response<T> =
    | Ok(hits: seq<Hit<T>>, total: int, aggregations: Option<Aggregations>)
    | Err

  /** The table's state: the loaded hits, the total and the `search_after` cursor. */
  datatype Page<T> = Page(hits: seq<Hit<T>>, total: int, searchAfter: Cursor)

  /** `flts` is the range filter on the dates followed by one `terms` clause per filter entry, in order. */
  predicate ComposedFrom(flts: seq<Filter>, dates: TimeRange, filters: Filters)
  {
    && |flts| == 1 + |filters|
    && flts[0] == TimestampRange(dates)
    && forall i :: 0 <= i < |filters| ==> flts[i + 1] == Terms(filters[i].key, filters[i].ids)
  }

  /** The `flts` array `fetchData` builds: a `range` clause, then a `for…of` over the filter entries. */
  method ComposeFilters(dates: TimeRange, filters: Filters) returns (flts: seq<Filter>)
    ensures ComposedFrom(flts, dates, filters)
  {
    flts := [TimestampRange(dates)];
    if |filters| != 0 {
      var i := 0;
      while i < |filters|
        invariant 0 <= i <= |filters|
        invariant |flts| == 1 + i && flts[0] == TimestampRange(dates)
        invariant forall j :: 0 <= j < i ==> flts[j + 1] == Terms(filters[j].key, filters[j].ids)
      {
        flts := flts + [Terms(filters[i].key, filters[i].ids)];
        i := i + 1;
      }
    }
  }

  /**
    The state after a fetch completes: a failed request leaves it as it was;
    a successful one takes the response's total, replaces the hits (or, when
    appending, extends the held hits with the new ones) and restarts the
    cursor at `[now]`.
  */
  function Fetched<T>(p: Page<T>, append: bool, resp: Response<T>, now: int): (r: Page<T>)
    ensures resp.Err? ==> r == p
    ensures resp.Ok? ==> r.total == resp.total && r.searchAfter == [now]
    ensures resp.Ok? && !append ==> r.hits == resp.hits
    ensures resp.Ok? && append ==> |r.hits| == |p.hits| + |resp.hits| && r.hits[..|p.hits|] == p.hits
                                   && r.hits[|p.hits|..] == resp.hits
  {
    match resp
    case Err => p
    case Ok(hits, total, _) => Page(if append then p.hits + hits else hits, total, [now])
  }

  /** The chart data handed to `handleChartData`: only when a handler is given and the response has `hits_over_time`. */
  function ChartEmitted<T>(resp: Response<T>, hasChartHandler: bool): (r: Option<seq<Point>>)
    ensures r.Some? <==> hasChartHandler && resp.Ok? && resp.aggregations.Some?
                         && resp.aggregations.value.hitsOverTime.Some?
    ensures r.Some? ==> r.value == ChartData(resp.aggregations.value.hitsOverTime.value)
  {
    if hasChartHandler && resp.Ok? && resp.aggregations.Some? && resp.aggregations.value.hitsOverTime.Some?
    then Some(ChartData(resp.aggregations.value.hitsOverTime.value))
    else None
  }

  /** The cursor "load more" moves to: the last hit's sort values; `None` (no fetch) when no hit is loaded. */
  function MoreCursor<T>(hits: seq<Hit<T>>): (r: Option<Cursor>)
    ensures r.None? <==> hits == []
    ensures r.Some? ==> r.value == hits[|hits| - 1].sort
  {
    if |hits| == 0 then None else Some(hits[|hits| - 1].sort)
  }

  /** Whether the "Load more" button is shown. */
  predicate LoadMoreOffered<T>(p: Page<T>)
    ensures LoadMoreOffered(p) ==> p.total > 0
    ensures p.hits == [] ==> (LoadMoreOffered(p) <==> p.total > 0)
  {
    p.total > |p.hits|
  }

  /**
    A time range whose first page holds 50 of 120 hits offers "load more";
    appending 50 more still offers it; appending the last 20 reaches the
    total and no longer offers it. The loaded hits stay a prefix throughout.
  */
  lemma LoadMoreScenario<T>(p: Page<T>, h1: seq<Hit<T>>, h2: seq<Hit<T>>, h3: seq<Hit<T>>, t1: int, t2: int, t3: int)
    requires |h1| == 50 && |h2| == 50 && |h3| == 20
    ensures var p1 := Fetched(p, false, Ok(h1, 120, None), t1);
            var p2 := Fetched(p1.(searchAfter := MoreCursor(p1.hits).value), true, Ok(h2, 120, None), t2);
            var p3 := Fetched(p2.(searchAfter := MoreCursor(p2.hits).value), true, Ok(h3, 120, None), t3);
            && LoadMoreOffered(p1) && |p1.hits| == 50
            && LoadMoreOffered(p2) && |p2.hits| == 100 && p2.hits[..50] == h1
            && !LoadMoreOffered(p3) && |p3.hits| == 120 && p3.hits == h1 + h2 + h3
  {
    var p1 := Fetched(p, false, Ok(h1, 120, None), t1);
    var p2 := Fetched(p1.(searchAfter := MoreCursor(p1.hits).value), true, Ok(h2, 120, None), t2);
    assert p2.hits == h1 + h2;
  }

  /** The `Table` component: its props (`dates`, `filters`, query settings) and its state. */
  class Table<T> {
    var dates: Obj<TimeRange>
    var filters: Obj<Filters>
    const index: string
    const size: int
    const sort: seq<string>
    const aggs: Option<AggRequest>
    const hasChartHandler: bool

    var hits: seq<Hit<T>>
    var total: int
    var searchAfter: Cursor

    function State(): Page<T>
      reads this
    {
      Page(hits, total, searchAfter)
    }

    /** An empty page, total 0, and the cursor `[Date.now()]`. */
    constructor (dates: Obj<TimeRange>, filters: Obj<Filters>, index: string, size: int, sort: seq<string>,
                 aggs: Option<AggRequest>, hasChartHandler: bool, now: int)
      ensures State() == Page([], 0, [now])
      ensures this.dates == dates && this.filters == filters
      ensures this.index == index && this.size == size && this.sort == sort
      ensures this.aggs == aggs && this.hasChartHandler == hasChartHandler
    {
      this.dates, this.filters := dates, filters;
      this.index, this.size, this.sort, this.aggs, this.hasChartHandler := index, size, sort, aggs, hasChartHandler;
      hits, total, searchAfter := [], 0, [now];
    }

    /** `componentDidUpdate`: new props arrive; a non-append reload starts iff the `dates` or `filters` object changed. */
    method ComponentDidUpdate(newDates: Obj<TimeRange>, newFilters: Obj<Filters>) returns (reload: bool)
      modifies this`dates, this`filters
      ensures dates == newDates && filters == newFilters
      ensures reload == (newDates != old(dates) || newFilters != old(filters))
      ensures State() == old(State())
    {
      reload := newDates != dates || newFilters != filters;
      dates, filters := newDates, newFilters;
    }

    /**
      `fetchData(append)`: the request it sends (carrying the current cursor),
      the state once `resp` arrives, and the chart data it hands on.
    */
    method FetchData(append: bool, resp: Response<T>, now: int) returns (q: Query, chart: Option<seq<Point>>)
      modifies this`hits, this`total, this`searchAfter
      ensures q.index == index && q.size == size && q.sort == sort && q.aggs == aggs
      ensures q.searchAfter == old(searchAfter)
      ensures ComposedFrom(q.filter, dates.value, filters.value)
      ensures State() == Fetched(old(State()), append, resp, now)
      ensures chart == ChartEmitted(resp, hasChartHandler)
    {
      var flts := ComposeFilters(dates.value, filters.value);
      q := Query(index, size, sort, searchAfter, aggs, flts);
      chart := None;
      match resp {
        case Err =>
        case Ok(newHits, newTotal, aggregations) =>
          var all := newHits;
          if append {
            all := hits + newHits;
          }
          if aggregations.Some? && aggregations.value.hitsOverTime.Some? {
            var chdata := ChartData(aggregations.value.hitsOverTime.value);
            if hasChartHandler {
              chart := Some(chdata);
            }
          }
          hits, total, searchAfter := all, newTotal, [now];
      }
    }

    /**
      `fetchMore`: nothing when no hit is loaded; otherwise the cursor moves
      to the last hit's sort values and an append fetch is sent with it.
      The cursor move stays in place when that fetch fails.
    */
    method FetchMore(resp: Response<T>, now: int) returns (q: Option<Query>, chart: Option<seq<Point>>)
      modifies this`hits, this`total, this`searchAfter
      ensures old(hits) == [] ==> q.None? && chart.None? && State() == old(State())
      ensures old(hits) != [] ==>
        && q.Some? && q.value.searchAfter == MoreCursor(old(hits)).value
        && ComposedFrom(q.value.filter, dates.value, filters.value)
        && State() == Fetched(old(State()).(searchAfter := MoreCursor(old(hits)).value), true, resp, now)
        && chart == ChartEmitted(resp, hasChartHandler)
    {
      if |hits| == 0 {
        return None, None;
      }
      searchAfter := hits[|hits| - 1].sort;
      var sent;
      sent, chart := FetchData(true, resp, now);
      q := Some(sent);
    }
  }
}
