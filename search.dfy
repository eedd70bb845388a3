/**
  The structured search request both versions of the dashboard send to the
  `/data` route, and the aggregation buckets that come back with a response.
*/
module Search {
  import opened Wrappers
  import opened Docs

  /** One clause of `query.bool.filter`. */
  datatype Filter =
    | Range(field: string, gte: Option<string>, lte: Option<string>)
    | Terms(field: string, values: seq<Id>)

  /** The `range` clause on `@timestamp` that every query starts with. */
  function TimestampRange(dates: TimeRange): Filter
  {
    Range("@timestamp", dates.from, dates.to)
  }

  /** The `hits_over_time` aggregation: an `auto_date_histogram`. */
  datatype AggRequest = AutoDateHistogram(field: string, buckets: int)

  /** `{index, size, sort, body: {search_after, aggs, query: {bool: {filter}}}}`. */
  datatype Query = Query(
    index: string,
    size: int,
    sort: seq<string>,
    searchAfter: Cursor,
    aggs: Option<AggRequest>,
    filter: seq<Filter>)

  /** One bucket of `hits_over_time`. */
  datatype Bucket = Bucket(key: int, docCount: int)

  /** `aggregations` of a response; `hits_over_time` may be missing. */
  datatype Aggregations = Aggregations(hitsOverTime: Option<seq<Bucket>>)

  /** A chart point `[x, y]`. */
  datatype Point = Point(x: int, y: int)

  /** `buckets.map(bucket => [bucket.key, bucket.doc_count])`. */
  function ChartData(buckets: seq<Bucket>): (r: seq<Point>)
    ensures |r| == |buckets|
    ensures forall i :: 0 <= i < |buckets| ==> r[i] == Point(buckets[i].key, buckets[i].docCount)
  {
    if buckets == [] then [] else [Point(buckets[0].key, buckets[0].docCount)] + ChartData(buckets[1..])
  }
}
