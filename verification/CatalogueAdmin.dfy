/** The availabilities root admins offer, withdraw, restore and remove: the stored entries and what is
    published of them, and the steps on the catalogue and the tree together
    (internal/provider/openstack/catalog). */
module CatalogueAdmin {
  import opened Model
  import opened Chains
  import opened Steps
  import opened Reports
  import opened Nodes
  import opened TreeService
  import opened Catalogue

  datatype State = Offered | Withdrawn | Removed

  /** The grant an availability stands for at OpenStack. */
  datatype Grant = Grant(kind: string, target: string)

  /** One availability. */
  datatype Item = Item(id: Rid, name: string, group: string, grant: Grant, state: State)

  type Items = map<Rid, Item>

  /** What OpenStack says of a grant: there is no cloud, it cannot be asked, or so many of the portal's
      projects have it. */
  datatype Cloud = NoCloud | Unreachable | Granted(managed: nat)

  predicate ValidGrant(g: Grant) {
    (g.kind == "network" || g.kind == "image" || g.kind == "flavor") && g.target != ""
  }

  /** The catalogue could have been configured like this: ids of their own, and grants that mean something. */
  predicate Publishable(quantities: seq<Rid>, items: seq<Item>) {
    && (quantities != [] || exists e :: e in items && e.state != Removed)
    && (forall i, j :: 0 <= i < j < |quantities| ==> quantities[i] != quantities[j])
    && (forall r :: r in quantities ==> r != "")
    && (forall e :: e in items && e.state != Removed ==> e.id != "" && e.id !in quantities && ValidGrant(e.grant))
  }

  /** An entry in use: offered or withdrawn. */
  predicate InUse(items: Items, id: Rid) {
    id in items && items[id].state != Removed
  }

  /** The entry is in another state, and nothing else is changed. */
  predicate Became(was: Items, now: Items, id: Rid, state: State) {
    id in was && now == was[id := was[id].(state := state)]
  }

  predicate DistinctItems(items: seq<Item>) {
    forall i, j :: 0 <= i < j < |items| ==> items[i].id != items[j].id
  }

  function AsItems(items: seq<Item>): Items
    requires DistinctItems(items)
  {
    map i | 0 <= i < |items| :: items[i].id := items[i]
  }

  /** The entries of what is stored and what everybody reads. */
  class Entries {
    const quantities: seq<Rid>
    var stored: Items
    var published: seq<Item>

    ghost predicate Valid()
      reads this
    {
      DistinctItems(published) && stored == AsItems(published) && Publishable(quantities, published)
    }

    constructor (quantities: seq<Rid>, seed: seq<Item>)
      requires DistinctItems(seed) && Publishable(quantities, seed)
      ensures Valid() && this.quantities == quantities && stored == AsItems(seed)
    {
      this.quantities := quantities;
      this.stored := AsItems(seed);
      this.published := seed;
    }

    /** One entry, removed ones included. */
    method Get(id: Rid) returns (e: Option<Item>)
      requires Valid()
      ensures e == if id in stored then Some(stored[id]) else None
    {
      for i := 0 to |published|
        invariant forall j :: 0 <= j < i ==> published[j].id != id
      {
        if published[i].id == id {
          assert id in AsItems(published);
          return Some(published[i]);
        }
      }
      return None;
    }

    /** Stores and publishes e - not where the catalogue would not be valid, or the store is down. */
    method Write(e: Item, up: bool) returns (err: Option<Error>)
      requires Valid()
      modifies this
      ensures Valid() && stored == if err.None? then old(stored)[e.id := e] else old(stored)
      ensures (err.None? ==> up) && err != Some(NotFound)
      ensures up && InUse(old(stored), e.id) && old(stored)[e.id].grant == e.grant && e.state != Removed ==> err.None?
    {
      var i := 0;
      while i < |published| && published[i].id != e.id
        invariant 0 <= i <= |published| && forall j :: 0 <= j < i ==> published[j].id != e.id
      {
        i := i + 1;
      }
      var items := if i < |published| then published[i := e] else published + [e];
      ItemsWritten(published, i, e);
      OneReplaced(quantities, published, i, e);
      if !Publishable(quantities, items) { return Some(Invalid); }
      if !up { return Some(Conflict); }
      stored := stored[e.id := e];
      published := items;
      return None;
    }

    /** A new availability, or a removed one brought back under its id; quantities keep their ids. */
    method Add(e: Item, up: bool) returns (err: Option<Error>)
      requires Valid() && e.state == Offered
      modifies this
      ensures Valid() && stored == if err.None? then old(stored)[e.id := e] else old(stored)
      ensures err.None? ==> e.id !in old(stored) || old(stored)[e.id].state == Removed
    {
      if e.name == "" { return Some(Invalid); }
      if e.id in quantities { return Some(Conflict); }
      var was := Get(e.id);
      if was.Some? && was.value.state != Removed { return Some(Conflict); }
      err := Write(e, up);
    }

    /** Moves an entry on from one state to another; where it is there already nothing is to do. */
    method SetState(id: Rid, from: State, to: State, up: bool) returns (err: Option<Error>)
      requires Valid()
      modifies this
      ensures Valid()
      ensures if err.None? then Became(old(stored), stored, id, to) else stored == old(stored)
      ensures !InUse(old(stored), id) <==> err == Some(NotFound)
      ensures err.None? ==> InUse(old(stored), id) && (old(stored)[id].state == to || old(stored)[id].state == from)
      ensures InUse(old(stored), id) && old(stored)[id].state == to ==> err.None?
      ensures InUse(old(stored), id) && old(stored)[id].state == from && to != Removed && up ==> err.None?
    {
      var e := Get(id);
      if e.None? || e.value.state == Removed { return Some(NotFound); }
      StoredUnderId(published, id);
      if e.value.state == to {
        assert stored[id := stored[id].(state := to)] == stored;
        return None;
      }
      if e.value.state != from { return Some(Conflict); }
      err := Write(e.value.(state := to), up);
    }
  }

  lemma StoredUnderId(items: seq<Item>, id: Rid)
    requires DistinctItems(items) && id in AsItems(items)
    ensures AsItems(items)[id].id == id
  {
  }

  lemma ItemsWritten(items: seq<Item>, i: nat, e: Item)
    requires DistinctItems(items) && i <= |items| && forall j :: 0 <= j < i ==> items[j].id != e.id
    requires i < |items| ==> items[i].id == e.id
    ensures var to := if i < |items| then items[i := e] else items + [e];
            DistinctItems(to) && AsItems(to) == AsItems(items)[e.id := e]
  {
    if i < |items| { ItemReplaced(items, i, e); } else { ItemAdded(items, e); }
  }

  lemma ItemReplaced(items: seq<Item>, i: nat, e: Item)
    requires DistinctItems(items) && i < |items| && items[i].id == e.id
    ensures DistinctItems(items[i := e]) && AsItems(items[i := e]) == AsItems(items)[e.id := e]
  {
    var to, m := items[i := e], AsItems(items)[e.id := e];
    assert forall j :: 0 <= j < |to| ==> to[j].id == items[j].id;
    forall j | 0 <= j < |to| ensures to[j].id in m && m[to[j].id] == to[j] {
      assert items[j].id in AsItems(items);
    }
    IsAsItems(to, m);
  }

  lemma ItemAdded(items: seq<Item>, e: Item)
    requires DistinctItems(items) && forall j :: 0 <= j < |items| ==> items[j].id != e.id
    ensures DistinctItems(items + [e]) && AsItems(items + [e]) == AsItems(items)[e.id := e]
  {
    var to, m := items + [e], AsItems(items)[e.id := e];
    forall j | 0 <= j < |to| ensures to[j].id in m && m[to[j].id] == to[j] {
      if j < |items| { assert items[j].id in AsItems(items); }
    }
    forall r | r in m ensures exists j :: 0 <= j < |to| && to[j].id == r {
      if r == e.id { assert to[|items|].id == r; }
      else {
        var j :| 0 <= j < |items| && items[j].id == r;
        assert to[j].id == r;
      }
    }
    IsAsItems(to, m);
  }

  lemma IsAsItems(items: seq<Item>, m: Items)
    requires DistinctItems(items)
    requires forall j :: 0 <= j < |items| ==> items[j].id in m && m[items[j].id] == items[j]
    requires forall r :: r in m ==> exists j :: 0 <= j < |items| && items[j].id == r
    ensures AsItems(items) == m
  {
  }

  /** An offered or withdrawn entry can become the other. */
  lemma OneReplaced(quantities: seq<Rid>, items: seq<Item>, i: nat, e: Item)
    requires DistinctItems(items) && Publishable(quantities, items) && i <= |items|
    requires forall j :: 0 <= j < i ==> items[j].id != e.id
    requires i < |items| ==> items[i].id == e.id
    ensures e.id in AsItems(items) && AsItems(items)[e.id].grant == e.grant
            && AsItems(items)[e.id].state != Removed && e.state != Removed
            ==> i < |items| && Publishable(quantities, items[i := e])
  {
    if e.id in AsItems(items) {
      var j :| 0 <= j < |items| && items[j].id == e.id;
      assert j == i && AsItems(items)[e.id] == items[i];
      assert items[i] in items && items[i := e][i] == e;
      forall x | x in items[i := e] ensures x == e || x in items {
        var k :| 0 <= k < |items| && items[i := e][k] == x;
      }
    }
  }

  // ── Who holds it ────────────────────────────────────────────────────────────

  datatype Via = ByLimit | ByAllocation(source: Id) | ByPending | ByShare

  datatype Holder = Holder(node: Id, via: Via)

  predicate HoldsBy(n: Node, r: Rid, via: Via) {
    match via
    case ByLimit => Q(n.limit, r) == 1
    case ByAllocation(b) => exists a :: a in n.allocations && a.budget == b && Q(a.limit, r) == 1
    case ByPending => n.pending.Some? && n.pending.value.limit.Some? && Q(n.pending.value.limit.value, r) == 1
    case ByShare => n.policy.auto.Some? && Q(n.policy.auto.value, r) == 1
  }

  lemma HoldingBy(n: Node, r: Rid)
    ensures Holding(n, r) <==> exists via :: HoldsBy(n, r, via)
  {
    if Holding(n, r) {
      if Q(n.limit, r) == 1 { assert HoldsBy(n, r, ByLimit); }
      else if exists a :: a in n.allocations && Q(a.limit, r) == 1 {
        var a :| a in n.allocations && Q(a.limit, r) == 1;
        assert HoldsBy(n, r, ByAllocation(a.budget));
      }
      else if n.pending.Some? && n.pending.value.limit.Some? && Q(n.pending.value.limit.value, r) == 1 {
        assert HoldsBy(n, r, ByPending);
      }
      else { assert HoldsBy(n, r, ByShare); }
    }
  }

  /** Nobody but the root holds it. */
  ghost predicate NoHolders(s: Store, r: Rid) {
    forall id {:trigger Holding(s[id], r)} :: id in s && id != ROOT ==> !Holding(s[id], r)
  }

  ghost predicate HeldThere(s: Store, r: Rid, h: Holder) {
    h.node in s && h.node != ROOT && HoldsBy(s[h.node], r, h.via)
  }

  lemma NobodyListed(s: Store, r: Rid)
    requires forall h :: !HeldThere(s, r, h)
    ensures NoHolders(s, r)
  {
    forall id | id in s && id != ROOT ensures !Holding(s[id], r) {
      HoldingBy(s[id], r);
      forall via ensures !HoldsBy(s[id], r, via) {
        assert !HeldThere(s, r, Holder(id, via));
      }
    }
  }

  /** The ways one node holds it. */
  method HoldersAt(e: Entry, r: Rid) returns (out: seq<Holder>)
    ensures forall h :: h in out <==> h.node == e.id && HoldsBy(e.node, r, h.via)
  {
    var n := e.node;
    out := if Q(n.limit, r) == 1 then [Holder(e.id, ByLimit)] else [];
    for i := 0 to |n.allocations|
      invariant forall h :: h in out <==> h.node == e.id && match h.via
        case ByLimit => Q(n.limit, r) == 1
        case ByAllocation(b) => exists a :: a in n.allocations[..i] && a.budget == b && Q(a.limit, r) == 1
        case _ => false
    {
      var a := n.allocations[i];
      assert n.allocations[..i + 1] == n.allocations[..i] + [a];
      if Q(a.limit, r) == 1 { out := out + [Holder(e.id, ByAllocation(a.budget))]; }
    }
    assert n.allocations[..|n.allocations|] == n.allocations;
    if n.pending.Some? && n.pending.value.limit.Some? && Q(n.pending.value.limit.value, r) == 1 {
      out := out + [Holder(e.id, ByPending)];
    }
    if n.policy.auto.Some? && Q(n.policy.auto.value, r) == 1 { out := out + [Holder(e.id, ByShare)]; }
  }

  /** Everybody who holds it, and how; the root, which holds everything offered, is left out. */
  method Holders(nodes: NodeStore, r: Rid) returns (out: seq<Holder>)
    requires nodes.Valid()
    ensures forall h :: h in out <==> HeldThere(nodes.Contents(), r, h)
  {
    var listed := nodes.ListNodes(EVERYTHING);
    ghost var s := nodes.Contents();
    out := [];
    for i := 0 to |listed|
      invariant forall h ::
          h in out <==> h.node != ROOT && exists e :: e in listed[..i] && e.id == h.node && HoldsBy(e.node, r, h.via)
    {
      assert listed[..i + 1] == listed[..i] + [listed[i]];
      if listed[i].id == ROOT { continue; }
      var more := HoldersAt(listed[i], r);
      out := out + more;
    }
    assert listed[..|listed|] == listed;
    forall id | id in s ensures Entry(id, s[id]) in listed { assert Matches(id, s[id], EVERYTHING); }
  }

  /** The id is in no amount anywhere. */
  ghost predicate NoKey(s: Store, r: Rid) {
    forall id, q :: id in s && Stores(s[id], q) ==> r !in q
  }

  ghost predicate Removable(items: Items, s: Store, id: Rid, cloud: Cloud) {
    id in items && items[id].state == Withdrawn && NoHolders(s, id) && (cloud == NoCloud || cloud == Granted(0))
  }

  // ── The steps of the root admins ────────────────────────────────────────────

  class Admin {
    const entries: Entries
    const service: Service

    ghost predicate Valid()
      reads entries, service.nodes
    {
      entries.Valid() && service.nodes.Valid() && Neat(service.S())
    }

    constructor (entries: Entries, service: Service)
      ensures this.entries == entries && this.service == service
    {
      this.entries := entries;
      this.service := service;
    }

    /** Offers a new availability, or a removed one again, once its target was found good: the root holds it. */
    method Add(e: Item, target: Option<Error>, up: bool) returns (err: Option<Error>)
      requires Valid() && e.state == Offered
      modifies entries, service.nodes
      ensures Valid()
      ensures err.Some? ==> entries.stored == old(entries.stored) && service.S() == old(service.S())
      ensures err.None? ==> target.None? && !InUse(old(entries.stored), e.id)
      ensures err.None? ==> entries.stored == old(entries.stored)[e.id := e]
      ensures err.None? ==> service.S() == AdoptAvailability(old(service.S()), e.id)
    {
      if target.Some? { return target; }
      err := entries.Add(e, up);
      if err.Some? { return; }
      service.GrantRoot(e.id);
    }

    /** Takes the availability away everywhere: first it is withdrawn, so that nothing is granted meanwhile, then
        every amount of it is set to 0. Doing it again changes nothing, and finishes one that failed half
        way. */
    method Withdraw(id: Rid, up: bool) returns (r: Result<nat>)
      requires Valid()
      modifies entries, service.nodes
      ensures Valid()
      ensures r.Err? ==> entries.stored == old(entries.stored) && service.S() == old(service.S())
      ensures r.Ok? ==> InUse(old(entries.stored), id) && Became(old(entries.stored), entries.stored, id, Withdrawn)
      ensures r.Ok? ==> service.S() == RewriteAll(old(service.S()), Reports.Withdraw(id)) && Unheld(service.S(), id)
      ensures r.Ok? ==> NothingLeft(service.S(), Reports.Withdraw(id))
      ensures r.Ok? && NothingLeft(old(service.S()), Reports.Withdraw(id)) ==>
        r.value == 0 && service.S() == old(service.S())
      ensures InUse(old(entries.stored), id) && (up || old(entries.stored)[id].state == Withdrawn) ==> r.Ok?
    {
      var err := entries.SetState(id, Offered, Withdrawn, up);
      if err.Some? { return Err(err.value); }
      WithdrawalLeavesNone(service.S(), id);
      RewriteIdempotent(service.S(), Reports.Withdraw(id));
      NeatRewritten(service.S(), Reports.Withdraw(id));
      var changed := service.RewriteEverything(Reports.Withdraw(id));
      return Ok(changed);
    }

    /** Offers it again: the root holds it, everyone else starts from nothing. */
    method Restore(id: Rid, up: bool) returns (err: Option<Error>)
      requires Valid()
      modifies entries, service.nodes
      ensures Valid()
      ensures err.Some? ==> entries.stored == old(entries.stored) && service.S() == old(service.S())
      ensures err.None? ==> InUse(old(entries.stored), id) && Became(old(entries.stored), entries.stored, id, Offered)
      ensures err.None? ==> service.S() == AdoptAvailability(old(service.S()), id)
    {
      err := entries.SetState(id, Withdrawn, Offered, up);
      if err.Some? { return; }
      service.GrantRoot(id);
    }

    /** Takes a withdrawn availability out of the catalogue for good, once nobody holds it and OpenStack grants
        it to no project of the portal. Where only storing that fails the amounts are gone already. */
    method Remove(id: Rid, cloud: Cloud, up: bool) returns (err: Option<Error>)
      requires Valid()
      modifies entries, service.nodes
      ensures Valid()
      ensures err.None? ==> Removable(old(entries.stored), old(service.S()), id, cloud)
      ensures err.None? ==> Became(old(entries.stored), entries.stored, id, Removed)
      ensures err.None? ==> service.S() == RewriteAll(old(service.S()), Forget(id)) && NoKey(service.S(), id)
      ensures err.Some? ==> entries.stored == old(entries.stored)
      ensures err.Some? && service.S() != old(service.S()) ==>
        (Removable(old(entries.stored), old(service.S()), id, cloud)
         && service.S() == RewriteAll(old(service.S()), Forget(id)))
    {
      var e := entries.Get(id);
      if e.None? || e.value.state == Removed { return Some(NotFound); }
      if e.value.state != Withdrawn { return Some(Conflict); }
      var held := Holders(service.nodes, id);
      if held != [] {
        return Some(Conflict);
      }
      NobodyListed(service.S(), id);
      if cloud == Unreachable || (cloud.Granted? && cloud.managed > 0) { return Some(Conflict); }
      RemovalLeavesNoKey(service.S(), id);
      NeatRewritten(service.S(), Forget(id));
      var changed := service.RewriteEverything(Forget(id));
      err := entries.SetState(id, Withdrawn, Removed, up);
    }
  }

  lemma NeatRewritten(s: Store, w: Rewrite)
    requires Neat(s)
    ensures Neat(RewriteAll(s, w))
  {
    forall id | id in s ensures CapHistory(RewrittenNode(w, s[id])) == RewrittenNode(w, s[id]) {
      assert CapHistory(s[id]) == s[id];
    }
  }
}
