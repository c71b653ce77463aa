/** The store the service runs on: a list of nodes, updated, appended to and cut in place
    (internal/core/nodestore/memory.go). Its contents are a map; queries come back in any order. */
module Nodes {
  import opened Model

  datatype Entry = Entry(id: Id, node: Node)

  /** What a listing asks for; a field that is None is not applied. */
  datatype Query = Query(
    ids: Option<set<Id>>, parents: Option<set<Id>>, kind: Option<Kind>, statuses: Option<set<Status>>,
    owner: Option<Token>, admins: Option<set<Token>>)

  predicate Matches(id: Id, n: Node, q: Query) {
    && (q.ids.Some? ==> id in q.ids.value)
    && (q.parents.Some? ==> n.parent.Some? && n.parent.value in q.parents.value)
    && (q.kind.Some? ==> n.kind == q.kind.value)
    && (q.statuses.Some? ==> n.status in q.statuses.value)
    && (q.owner.Some? ==> n.owner == q.owner.value)
    && (q.admins.Some? ==> n.policy.admins * q.admins.value != {})
  }

  function SetOf(ids: seq<Id>): set<Id> {
    set id | id in ids
  }

  predicate Stored(s: Store, e: Entry) {
    e.id in s && s[e.id] == e.node
  }

  predicate DistinctIds(es: seq<Entry>) {
    forall i, j :: 0 <= i < j < |es| ==> es[i].id != es[j].id
  }

  /** es lists exactly the nodes of s that match. */
  ghost predicate Lists(s: Store, q: Query, es: seq<Entry>) {
    && DistinctIds(es)
    && (forall e :: e in es ==> e.id in s && s[e.id] == e.node && Matches(e.id, e.node, q))
    && (forall id :: id in s && Matches(id, s[id], q) ==> Entry(id, s[id]) in es)
  }

  ghost function AsMap(es: seq<Entry>): Store
    requires DistinctIds(es)
  {
    map i | 0 <= i < |es| :: es[i].id := es[i].node
  }

  lemma AsMapAt(es: seq<Entry>, i: nat)
    requires DistinctIds(es) && i < |es|
    ensures es[i].id in AsMap(es) && AsMap(es)[es[i].id] == es[i].node
  {
    assert es[i].id in AsMap(es);
  }

  lemma AsMapUpdate(es: seq<Entry>, i: nat, n: Node)
    requires DistinctIds(es) && i < |es|
    ensures DistinctIds(es[i := Entry(es[i].id, n)])
    ensures AsMap(es[i := Entry(es[i].id, n)]) == AsMap(es)[es[i].id := n]
  {
    var fs, m := es[i := Entry(es[i].id, n)], AsMap(es)[es[i].id := n];
    assert forall j :: 0 <= j < |fs| ==> fs[j].id == es[j].id;
    forall j | 0 <= j < |fs| ensures fs[j].id in m && m[fs[j].id] == fs[j].node {
      AsMapAt(es, j);
    }
    IsAsMap(fs, m);
  }

  lemma IsAsMap(es: seq<Entry>, m: Store)
    requires DistinctIds(es)
    requires forall i :: 0 <= i < |es| ==> es[i].id in m && m[es[i].id] == es[i].node
    requires forall id :: id in m ==> exists i :: 0 <= i < |es| && es[i].id == id
    ensures AsMap(es) == m
  {
  }

  lemma AsMapAppend(es: seq<Entry>, id: Id, n: Node)
    requires DistinctIds(es) && forall i :: 0 <= i < |es| ==> es[i].id != id
    ensures DistinctIds(es + [Entry(id, n)])
    ensures AsMap(es + [Entry(id, n)]) == AsMap(es)[id := n]
  {
    var fs := es + [Entry(id, n)];
    forall x | x in AsMap(fs) ensures x in AsMap(es)[id := n] && AsMap(fs)[x] == AsMap(es)[id := n][x] {
      var j :| 0 <= j < |fs| && fs[j].id == x;
      AsMapAt(fs, j);
      if j < |es| { AsMapAt(es, j); }
    }
    forall x | x in AsMap(es)[id := n] ensures x in AsMap(fs) {
      if x == id {
        AsMapAt(fs, |es|);
      } else {
        var j :| 0 <= j < |es| && es[j].id == x;
        assert fs[j].id == x;
      }
    }
  }

  class NodeStore {
    var nodes: seq<Entry>

    ghost predicate Valid()
      reads this
    {
      DistinctIds(nodes)
    }

    ghost function Contents(): Store
      reads this
      requires Valid()
    {
      AsMap(nodes)
    }

    constructor ()
      ensures Valid() && Contents() == map[]
    {
      nodes := [];
    }

    method GetNode(id: Id) returns (n: Option<Node>)
      requires Valid()
      ensures n == if id in Contents() then Some(Contents()[id]) else None
    {
      for i := 0 to |nodes|
        invariant forall j :: 0 <= j < i ==> nodes[j].id != id
      {
        if nodes[i].id == id {
          AsMapAt(nodes, i);
          return Some(nodes[i].node);
        }
      }
      return None;
    }

    method ListNodes(q: Query) returns (out: seq<Entry>)
      requires Valid()
      ensures Lists(Contents(), q, out)
    {
      out := [];
      for i := 0 to |nodes|
        invariant DistinctIds(out)
        invariant forall e :: e in out ==> Matches(e.id, e.node, q) && e in nodes[..i]
        invariant forall j :: 0 <= j < i && Matches(nodes[j].id, nodes[j].node, q) ==> nodes[j] in out
      {
        if Matches(nodes[i].id, nodes[i].node, q) {
          out := out + [nodes[i]];
        }
      }
      forall e | e in out
        ensures e.id in Contents() && Contents()[e.id] == e.node
      {
        var j :| 0 <= j < |nodes| && nodes[j] == e;
        AsMapAt(nodes, j);
      }
      forall id | id in Contents() && Matches(id, Contents()[id], q)
        ensures Entry(id, Contents()[id]) in out
      {
        var j :| 0 <= j < |nodes| && nodes[j].id == id;
        AsMapAt(nodes, j);
      }
    }

    method UpsertNode(id: Id, n: Node)
      requires Valid()
      modifies this
      ensures Valid() && Contents() == Put(old(Contents()), id, n)
    {
      var capped := CapHistory(n);
      for i := 0 to |nodes|
        invariant Valid() && nodes == old(nodes)
        invariant forall j :: 0 <= j < i ==> nodes[j].id != id
      {
        if nodes[i].id == id {
          AsMapUpdate(nodes, i, capped);
          nodes := nodes[i := Entry(id, capped)];
          return;
        }
      }
      AsMapAppend(nodes, id, capped);
      nodes := nodes + [Entry(id, capped)];
    }

    /** change sees the node as it is stored now; None leaves it alone. */
    method UpdateNode(id: Id, change: Node -> Option<Node>) returns (wrote: bool)
      requires Valid()
      modifies this
      ensures Valid()
      ensures wrote <==> id in old(Contents()) && change(old(Contents())[id]).Some?
      ensures Contents() ==
        if wrote then Put(old(Contents()), id, change(old(Contents())[id]).value) else old(Contents())
    {
      for i := 0 to |nodes|
        invariant Valid() && nodes == old(nodes)
        invariant forall j :: 0 <= j < i ==> nodes[j].id != id
      {
        if nodes[i].id == id {
          AsMapAt(nodes, i);
          var changed := change(nodes[i].node);
          if changed.None? { return false; }
          AsMapUpdate(nodes, i, CapHistory(changed.value));
          nodes := nodes[i := Entry(id, CapHistory(changed.value))];
          return true;
        }
      }
      return false;
    }

    method DeleteNodeIf(id: Id, pred: Node -> bool) returns (deleted: bool)
      requires Valid()
      modifies this
      ensures Valid()
      ensures deleted <==> id in old(Contents()) && pred(old(Contents())[id])
      ensures Contents() == if deleted then old(Contents()) - {id} else old(Contents())
    {
      for i := 0 to |nodes|
        invariant Valid() && nodes == old(nodes)
        invariant forall j :: 0 <= j < i ==> nodes[j].id != id
      {
        if nodes[i].id == id {
          AsMapAt(nodes, i);
          if !pred(nodes[i].node) { return false; }
          AsMapCut(nodes, i);
          nodes := nodes[..i] + nodes[i + 1..];
          return true;
        }
      }
      return false;
    }

    method DeleteNodes(ids: set<Id>)
      requires Valid()
      modifies this
      ensures Valid() && Contents() == old(Contents()) - ids
    {
      var filtered: seq<Entry> := [];
      for i := 0 to |nodes|
        invariant Valid() && nodes == old(nodes) && DistinctIds(filtered)
        invariant forall e :: e in filtered <==> e in nodes[..i] && e.id !in ids
      {
        if nodes[i].id !in ids {
          filtered := filtered + [nodes[i]];
        }
      }
      AsMapKept(nodes, filtered, ids);
      nodes := filtered;
    }
  }

  lemma AsMapCut(es: seq<Entry>, i: nat)
    requires DistinctIds(es) && i < |es|
    ensures DistinctIds(es[..i] + es[i + 1..])
    ensures AsMap(es[..i] + es[i + 1..]) == AsMap(es) - {es[i].id}
  {
    var fs := es[..i] + es[i + 1..];
    assert forall j :: 0 <= j < i ==> fs[j] == es[j];
    assert forall j :: i <= j < |fs| ==> fs[j] == es[j + 1];
    forall e ensures e in fs <==> e in es && e.id !in {es[i].id} {
      if e in es {
        var j :| 0 <= j < |es| && es[j] == e;
        if j < i { assert fs[j] == e; } else if j > i { assert fs[j - 1] == e; }
      }
    }
    AsMapKept(es, fs, {es[i].id});
  }

  lemma AsMapKept(es: seq<Entry>, fs: seq<Entry>, gone: set<Id>)
    requires DistinctIds(es) && DistinctIds(fs)
    requires forall e :: e in fs <==> e in es && e.id !in gone
    ensures AsMap(fs) == AsMap(es) - gone
  {
    forall id | id in AsMap(fs) ensures id in AsMap(es) && id !in gone && AsMap(fs)[id] == AsMap(es)[id] {
      var j :| 0 <= j < |fs| && fs[j].id == id;
      AsMapAt(fs, j);
      assert fs[j] in es;
      var k :| 0 <= k < |es| && es[k] == fs[j];
      AsMapAt(es, k);
    }
    forall id | id in AsMap(es) && id !in gone ensures id in AsMap(fs) {
      var k :| 0 <= k < |es| && es[k].id == id;
      assert es[k] in fs;
    }
  }
}
