/**
  The filter object of a table: field name to list of ids. JavaScript keeps
  the keys of an object in insertion order, and the table turns the entries
  into `terms` clauses in that order, so the object is an association list.
*/
module FilterMap {
  import opened Wrappers
  import opened Docs

  datatype Entry = Entry(key: string, ids: seq<Id>)

  type Filters = seq<Entry>

  /** The keys of an object, in insertion order. */
  function Keys(f: Filters): seq<string>
  {
    if f == [] then [] else [f[0].key] + Keys(f[1..])
  }

  /** An object never has the same key twice: no key occurs again after its entry. */
  predicate UniqueKeys(f: Filters)
  {
    f == [] || (Get(f[1..], f[0].key).None? && UniqueKeys(f[1..]))
  }

  /** `f[k]`, `None` when `k` is not a key. */
  function Get(f: Filters, k: string): (r: Option<seq<Id>>)
    ensures r.None? <==> forall i :: 0 <= i < |f| ==> f[i].key != k
  {
    if f == [] then None else if f[0].key == k then Some(f[0].ids) else Get(f[1..], k)
  }

  /**
    `Object.assign(f, {[k]: v})`: `k` now maps to `v`, every other key keeps
    its value, an existing key keeps its position and a new key goes last.
  */
  function Assign(f: Filters, k: string, v: seq<Id>): (r: Filters)
    ensures Get(r, k) == Some(v)
    ensures forall k' :: k' != k ==> Get(r, k') == Get(f, k')
    ensures Get(f, k).Some? ==> Keys(r) == Keys(f)
    ensures Get(f, k).None? ==> Keys(r) == Keys(f) + [k]
    ensures UniqueKeys(f) ==> UniqueKeys(r)
  {
    if f == [] then [Entry(k, v)]
    else if f[0].key == k then [Entry(k, v)] + f[1..]
    else
      var rest := Assign(f[1..], k, v);
      assert ([f[0]] + rest)[1..] == rest;
      [f[0]] + rest
  }
}
