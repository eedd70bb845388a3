/**
  The id lists a row selection derives from the selected documents' embedded
  relationship fields, shared by both versions of the dashboard.

  Alert selection walks every selected alert's `groups` (and `meta_alerts`),
  pushing an id only when the list does not yet include it; group and
  meta-alert selection push one id per selected row, without deduplication.
*/
module Derive {
  import opened Docs

  /** One `if (!acc.includes(x)) acc.push(x)` step. */
  function AppendNew(acc: seq<Id>, x: Id): seq<Id>
  {
    if x in acc then acc else acc + [x]
  }

  /** The list that pushing every element of `s` with `AppendNew` builds. */
  function Dedup(s: seq<Id>): seq<Id>
    decreases |s|
  {
    if s == [] then [] else AppendNew(Dedup(s[..|s| - 1]), s[|s| - 1])
  }

  predicate NoDuplicates(s: seq<Id>)
  {
    forall i, j :: 0 <= i < j < |s| ==> s[i] != s[j]
  }

  /** The position of the first occurrence of `x` in `s`. */
  function FirstIndex(s: seq<Id>, x: Id): (k: nat)
    requires x in s
    ensures k < |s| && s[k] == x
    ensures forall i :: 0 <= i < k ==> s[i] != x
  {
    if s[0] == x then 0 else 1 + FirstIndex(s[1..], x)
  }

  lemma {:induction false} FirstIndexOfPrefix(p: seq<Id>, x: Id, y: Id)
    requires y in p
    ensures FirstIndex(p + [x], y) == FirstIndex(p, y)
  {
    var k := FirstIndex(p, y);
    var k' := FirstIndex(p + [x], y);
    assert (p + [x])[k] == y;
    assert p[k'] == y || k' == |p|;
  }

  /**
    Deduplication keeps exactly the elements of `s`, each once, in the order
    of their first occurrence in `s`.
  */
  lemma {:induction false} DedupCharacterised(s: seq<Id>)
    ensures forall x :: x in Dedup(s) <==> x in s
    ensures NoDuplicates(Dedup(s))
    ensures forall i, j :: 0 <= i < j < |Dedup(s)| ==>
              FirstIndex(s, Dedup(s)[i]) < FirstIndex(s, Dedup(s)[j])
    decreases |s|
  {
    if s != [] {
      var p, x := s[..|s| - 1], s[|s| - 1];
      assert s == p + [x];
      DedupCharacterised(p);
      var d := Dedup(p);
      forall y | y in p ensures FirstIndex(s, y) == FirstIndex(p, y) {
        FirstIndexOfPrefix(p, x, y);
      }
      if x !in d {
        assert x !in p;
        assert FirstIndex(s, x) == |p|;
      }
    }
  }

  /** `[a, b] ++ [c]` flattening of a list of lists, as consecutive `forEach` loops visit them. */
  function Concat(ls: seq<seq<Id>>): seq<Id>
  {
    if ls == [] then [] else Concat(ls[..|ls| - 1]) + ls[|ls| - 1]
  }

  lemma {:induction false} InConcat(ls: seq<seq<Id>>, x: Id)
    ensures x in Concat(ls) <==> exists i :: 0 <= i < |ls| && x in ls[i]
  {
    if ls != [] {
      var init := ls[..|ls| - 1];
      assert Concat(ls) == Concat(init) + ls[|ls| - 1];
      InConcat(init, x);
      if x in Concat(init) {
        var i :| 0 <= i < |init| && x in init[i];
        assert ls[i] == init[i];
      }
      if exists i :: 0 <= i < |ls| && x in ls[i] {
        var i :| 0 <= i < |ls| && x in ls[i];
        if i < |init| {
          assert init[i] == ls[i];
        }
      }
    }
  }

  lemma ConcatSnoc(ls: seq<seq<Id>>, l: seq<Id>)
    ensures Concat(ls + [l]) == Concat(ls) + l
  {
    assert (ls + [l])[..|ls|] == ls;
  }

  function GroupLists(alerts: seq<Alert>): seq<seq<Id>>
  {
    seq(|alerts|, i requires 0 <= i < |alerts| => alerts[i].groups)
  }

  function MetaLists(alerts: seq<Alert>): seq<seq<Id>>
  {
    seq(|alerts|, i requires 0 <= i < |alerts| => alerts[i].metaAlerts)
  }

  /** The group ids an alert selection derives. */
  function AlertGroupIds(alerts: seq<Alert>): seq<Id>
  {
    Dedup(Concat(GroupLists(alerts)))
  }

  /** The meta-alert ids an alert selection derives. */
  function AlertMetaIds(alerts: seq<Alert>): seq<Id>
  {
    Dedup(Concat(MetaLists(alerts)))
  }

  /**
    The derived lists hold each id of the union of the selected alerts'
    `groups` (resp. `meta_alerts`) exactly once, in first-occurrence order.
  */
  lemma AlertIdsAreUnions(alerts: seq<Alert>)
    ensures forall g :: g in AlertGroupIds(alerts) <==> exists i :: 0 <= i < |alerts| && g in alerts[i].groups
    ensures forall m :: m in AlertMetaIds(alerts) <==> exists i :: 0 <= i < |alerts| && m in alerts[i].metaAlerts
    ensures NoDuplicates(AlertGroupIds(alerts)) && NoDuplicates(AlertMetaIds(alerts))
    ensures forall g :: g in AlertGroupIds(alerts) ==> g in Concat(GroupLists(alerts))
    ensures forall m :: m in AlertMetaIds(alerts) ==> m in Concat(MetaLists(alerts))
    ensures var s, d := Concat(GroupLists(alerts)), AlertGroupIds(alerts);
            forall i, j :: 0 <= i < j < |d| ==> FirstIndex(s, d[i]) < FirstIndex(s, d[j])
    ensures var s, d := Concat(MetaLists(alerts)), AlertMetaIds(alerts);
            forall i, j :: 0 <= i < j < |d| ==> FirstIndex(s, d[i]) < FirstIndex(s, d[j])
  {
    var gs, ms := GroupLists(alerts), MetaLists(alerts);
    DedupCharacterised(Concat(gs));
    DedupCharacterised(Concat(ms));
    forall g ensures g in Concat(gs) <==> exists i :: 0 <= i < |alerts| && g in alerts[i].groups {
      InConcat(gs, g);
      if g in Concat(gs) {
        var i :| 0 <= i < |gs| && g in gs[i];
        assert g in alerts[i].groups;
      }
      if exists i :: 0 <= i < |alerts| && g in alerts[i].groups {
        var i :| 0 <= i < |alerts| && g in alerts[i].groups;
        assert g in gs[i];
      }
    }
    forall m ensures m in Concat(ms) <==> exists i :: 0 <= i < |alerts| && m in alerts[i].metaAlerts {
      InConcat(ms, m);
      if m in Concat(ms) {
        var i :| 0 <= i < |ms| && m in ms[i];
        assert m in alerts[i].metaAlerts;
      }
      if exists i :: 0 <= i < |alerts| && m in alerts[i].metaAlerts {
        var i :| 0 <= i < |alerts| && m in alerts[i].metaAlerts;
        assert m in ms[i];
      }
    }
  }

  /** One inner `forEach`: push every id of `xs` that `acc` does not yet include. */
  method PushAllNew(acc: seq<Id>, xs: seq<Id>, ghost seen: seq<Id>) returns (r: seq<Id>)
    requires acc == Dedup(seen)
    ensures r == Dedup(seen + xs)
  {
    r := acc;
    var j := 0;
    assert seen + xs[..0] == seen;
    while j < |xs|
      invariant 0 <= j <= |xs|
      invariant r == Dedup(seen + xs[..j])
    {
      assert (seen + xs[..j + 1])[..|seen + xs[..j + 1]| - 1] == seen + xs[..j];
      if xs[j] !in r {
        r := r + [xs[j]];
      }
      j := j + 1;
    }
    assert xs[..j] == xs;
  }

  lemma ListsOfPrefix(alerts: seq<Alert>, i: nat)
    requires i < |alerts|
    ensures Concat(GroupLists(alerts[..i + 1])) == Concat(GroupLists(alerts[..i])) + alerts[i].groups
    ensures Concat(MetaLists(alerts[..i + 1])) == Concat(MetaLists(alerts[..i])) + alerts[i].metaAlerts
  {
    assert GroupLists(alerts[..i + 1]) == GroupLists(alerts[..i]) + [alerts[i].groups];
    assert MetaLists(alerts[..i + 1]) == MetaLists(alerts[..i]) + [alerts[i].metaAlerts];
    ConcatSnoc(GroupLists(alerts[..i]), alerts[i].groups);
    ConcatSnoc(MetaLists(alerts[..i]), alerts[i].metaAlerts);
  }

  /** The nested `forEach`/`includes`/`push` loops of an alert selection. */
  method CollectAlertIds(alerts: seq<Alert>) returns (groupIds: seq<Id>, metaIds: seq<Id>)
    ensures groupIds == AlertGroupIds(alerts)
    ensures metaIds == AlertMetaIds(alerts)
  {
    groupIds, metaIds := [], [];
    var i := 0;
    while i < |alerts|
      invariant 0 <= i <= |alerts|
      invariant groupIds == Dedup(Concat(GroupLists(alerts[..i])))
      invariant metaIds == Dedup(Concat(MetaLists(alerts[..i])))
    {
      ListsOfPrefix(alerts, i);
      groupIds := PushAllNew(groupIds, alerts[i].groups, Concat(GroupLists(alerts[..i])));
      metaIds := PushAllNew(metaIds, alerts[i].metaAlerts, Concat(MetaLists(alerts[..i])));
      i := i + 1;
    }
    assert alerts[..i] == alerts;
  }

  /** The group ids a group selection pushes, one per selected group. */
  function GroupIdsOf(groups: seq<Group>): (r: seq<Id>)
    ensures |r| == |groups| && forall i :: 0 <= i < |groups| ==> r[i] == groups[i].id
  {
    seq(|groups|, i requires 0 <= i < |groups| => groups[i].id)
  }

  /** The meta-alert ids a group selection pushes, parallel to `GroupIdsOf`. */
  function GroupMetaIdsOf(groups: seq<Group>): (r: seq<Id>)
    ensures |r| == |groups| && forall i :: 0 <= i < |groups| ==> r[i] == groups[i].metaAlertId
  {
    seq(|groups|, i requires 0 <= i < |groups| => groups[i].metaAlertId)
  }

  /** The `forEach`/`push` loop of a group selection. */
  method CollectGroupIds(groups: seq<Group>) returns (groupIds: seq<Id>, metaIds: seq<Id>)
    ensures groupIds == GroupIdsOf(groups) && metaIds == GroupMetaIdsOf(groups)
    ensures |groupIds| == |metaIds| == |groups|
  {
    groupIds, metaIds := [], [];
    var i := 0;
    while i < |groups|
      invariant 0 <= i <= |groups|
      invariant groupIds == GroupIdsOf(groups[..i]) && metaIds == GroupMetaIdsOf(groups[..i])
    {
      groupIds := groupIds + [groups[i].id];
      metaIds := metaIds + [groups[i].metaAlertId];
      i := i + 1;
    }
    assert groups[..i] == groups;
  }

  /** The meta-alert ids a meta-alert selection pushes, one per selected meta-alert. */
  function MetaIdsOf(metas: seq<Meta>): (r: seq<Id>)
    ensures |r| == |metas| && forall i :: 0 <= i < |metas| ==> r[i] == metas[i].id
  {
    seq(|metas|, i requires 0 <= i < |metas| => metas[i].id)
  }

  /** The `forEach`/`push` loop of a meta-alert selection. */
  method CollectMetaIds(metas: seq<Meta>) returns (metaIds: seq<Id>)
    ensures metaIds == MetaIdsOf(metas)
  {
    metaIds := [];
    var i := 0;
    while i < |metas|
      invariant 0 <= i <= |metas|
      invariant metaIds == MetaIdsOf(metas[..i])
    {
      metaIds := metaIds + [metas[i].id];
      i := i + 1;
    }
    assert metas[..i] == metas;
  }
}
