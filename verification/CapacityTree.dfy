/** Capacity through the operations on budgets and on the tree: limits, inheritance, moves, deletion. */
module CapacityTree {
  import opened Model
  import opened Chains
  import opened Charges
  import opened Rules
  import opened Steps
  import opened Reports
  import opened Runs
  import opened Shape
  import opened Values
  import opened Sources
  import opened Locality
  import opened Capacity

  // ── Limits ──────────────────────────────────────────────────────────────────

  lemma BoundedUpdate(cfg: Config, s: Store, c: Caller, id: Id, req: UpdateRequest)
    requires Off(cfg) && Safe(cfg, s) && Update(cfg, s, c, id, req).Ok?
    ensures Bounded(cfg, Update(cfg, s, c, id, req).value)
  {
    UpdateFacts(cfg, s, c, id, req);
    var e := Edited(s, s[id], Above(s, s[id]), req);
    if s[id].kind == Budget {
      EditedBounded(cfg, s, id, req);
    } else {
      LeafEditKeeps(s, s[id], Above(s, s[id]), req);
      assert SameHoldings(s[id], e);
      InPlaceBudgets(s, Put(s, id, e));
      BoundedSame(cfg, s, Put(s, id, e));
    }
    var t := Put(s, id, e);
    CarriedDownHoldings(t, id, req, c.now);
    CarriedDownPlaces(t, id, req, c.now);
    BoundedSame(cfg, t, CarriedDown(t, id, req, c.now));
  }

  lemma LeafEditKeeps(s: Store, n: Node, chain: seq<Id>, req: UpdateRequest)
    requires LeafDirectEdit(req)
    ensures SameHoldings(n, Edited(s, n, chain, req)) && SamePlace(n, Edited(s, n, chain, req))
  {
  }

  lemma CarriedDownPlaces(s: Store, id: Id, req: UpdateRequest, now: Time)
    ensures CarriedDown(s, id, req, now).Keys == s.Keys
    ensures forall x :: x in s ==> SamePlace(s[x], CarriedDown(s, id, req, now)[x])
    ensures Budgets(CarriedDown(s, id, req, now)) == Budgets(s)
  {
    var t := if req.end.Some? then CascadeEnds(s, id, req.end.value) else s;
    assert forall x :: x in s ==> SamePlace(s[x], t[x]);
    InPlaceBudgets(s, CarriedDown(s, id, req, now));
  }

  lemma EditedBounded(cfg: Config, s: Store, id: Id, req: UpdateRequest)
    requires Off(cfg) && Safe(cfg, s) && id in s && s[id].kind == Budget
    requires LimitEditOk(cfg, s, id, Above(s, s[id]), req)
    ensures Bounded(cfg, Put(s, id, Edited(s, s[id], Above(s, s[id]), req)))
  {
    var n, chain := s[id], Above(s, s[id]);
    var e := Edited(s, n, chain, req);
    forall r | r in cfg.counts && !e.inherits && Q(e.limit, r) != UNLIMITED
      ensures Usage(cfg, s, id, r) <= Q(e.limit, r)
    {
      if EditedLimit(s, n, chain, req).Some? {
        FloorIsExact(cfg, s, id, e.limit, r);
      } else {
        assert id in Budgets(s);
        if n.inherits && id != ROOT { AboveBinding(s, id); }
        assert Within(cfg, s, id, r);
      }
    }
    BoundedLimit(cfg, s, id, e);
  }

  lemma BoundedApproveBudget(cfg: Config, s: Store, c: Caller, id: Id, req: ApproveRequest)
    requires Off(cfg) && Safe(cfg, s) && Approve(cfg, s, c, id, req).Ok? && s[id].kind == Budget
    ensures Bounded(cfg, Approve(cfg, s, c, id, req).value)
  {
    ApproveFacts(cfg, s, c, id, req);
    var d := Decided(s, s[id], req, c.now);
    if !s[id].inherits { GrantHolds(cfg, s, id, d.limit); }
    BoundedLimit(cfg, s, id, d);
    if d.end.Some? {
      BoundedCascade(cfg, Put(s, id, d), id, d.end.value, 0, c.now);
    }
  }

  /** A limit granted to a budget covers what the budget is charged already. */
  lemma GrantHolds(cfg: Config, s: Store, id: Id, limit: Quota)
    requires Off(cfg) && Safe(cfg, s) && id in s && s[id].kind == Budget && !s[id].inherits
    requires s[id].status == Pending || s[id].status == ChangePending
    requires GrantOk(cfg, s, id, limit)
    ensures forall r :: r in cfg.counts && Q(limit, r) != UNLIMITED ==> Usage(cfg, s, id, r) <= Q(limit, r)
  {
    forall r | r in cfg.counts && Q(limit, r) != UNLIMITED
      ensures Usage(cfg, s, id, r) <= Q(limit, r)
    {
      if s[id].status == ChangePending {
        FloorIsExact(cfg, s, id, limit, r);
      } else {
        InactiveUnused(cfg, s, id, r);
        BudgetLimitCaps(cfg, limit);
      }
    }
  }

  lemma BoundedCascade(cfg: Config, s: Store, top: Id, end: Time, days: int, now: Time)
    requires Off(cfg) && Bounded(cfg, s)
    ensures Bounded(cfg, CascadeEnds(s, top, end)) && Bounded(cfg, CascadeTerms(s, top, days, now))
  {
    var t, u := CascadeEnds(s, top, end), CascadeTerms(s, top, days, now);
    CascadeEndsHoldings(s, top, end);
    CascadeTermsHoldings(s, top, days, now);
    InPlaceBudgets(s, t);
    InPlaceBudgets(s, u);
    BoundedSame(cfg, s, t);
    BoundedSame(cfg, s, u);
  }

  lemma BoundedReject(cfg: Config, s: Store, c: Caller, id: Id)
    requires Off(cfg) && Safe(cfg, s) && Reject(s, c, id).Ok?
    ensures Bounded(cfg, Reject(s, c, id).value)
  {
    var n := Refused(s[id]);
    assert Hangs(s, s[id]);
    if s[id].kind == Budget {
      BoundedUntouched(cfg, s, id, n);
    } else {
      forall b, r | r in cfg.counts
        ensures Load(cfg, Budgets(s), n, b, r) <= Load(cfg, Budgets(s), s[id], b, r)
      {
        LoadOf(cfg, Budgets(s), n, b, r);
        LoadOf(cfg, Budgets(s), s[id], b, r);
      }
      BoundedLess(cfg, s, id, n);
    }
  }

  lemma BoundedRelease(cfg: Config, s: Store, c: Caller, id: Id, delete: bool, deletable: bool)
    requires Off(cfg) && Safe(cfg, s) && Release(s, c, id, delete, deletable).Ok?
    ensures Bounded(cfg, Release(s, c, id, delete, deletable).value)
  {
    var n := ReleasedNode(s[id], delete);
    assert Hangs(s, s[id]) && SaneNode(cfg, s[id]);
    forall b, r | r in cfg.counts
      ensures Load(cfg, Budgets(s), n, b, r) <= Load(cfg, Budgets(s), s[id], b, r)
    {
      LoadOf(cfg, Budgets(s), n, b, r);
      LoadNonNegative(cfg, Budgets(s), s[id], b, r);
    }
    BoundedLess(cfg, s, id, n);
  }

  // ── Allocations ─────────────────────────────────────────────────────────────

  /** Replacing what is drawn from b changes the charge of b and the budgets above it, by the
      difference. */
  lemma {:induction false} ChargeWithout(pm: Parents, allocs: seq<Allocation>, x: Id, b: Id, r: Rid)
    requires Distinct(allocs)
    ensures AllocationCharge(pm, Without(allocs, x), b, r)
            == AllocationCharge(pm, allocs, b, r) - (if b in Chain(pm, x) then Q(HeldFrom(allocs, x), r) else 0)
  {
    if allocs != [] {
      var h, l := allocs[..|allocs| - 1], allocs[|allocs| - 1];
      if l.budget == x {
        WithoutAbsent(h, x);
      } else {
        ChargeWithout(pm, h, x, b, r);
        assert (Without(h, x) + [l])[..|Without(h, x)|] == Without(h, x);
      }
    }
  }

  lemma ChargeAllocated(pm: Parents, n: Node, x: Id, limit: Quota, b: Id, r: Rid)
    requires Distinct(n.allocations)
    ensures AllocationCharge(pm, Allocated(n, x, limit).allocations, b, r)
            == AllocationCharge(pm, n.allocations, b, r)
               + (if b in Chain(pm, x) then Q(limit, r) - Q(HeldFrom(n.allocations, x), r) else 0)
  {
    ChargeWithout(pm, n.allocations, x, b, r);
    var w := Without(n.allocations, x);
    if limit != map[] {
      assert (w + [Allocation(x, limit)])[..|w|] == w;
    }
  }

  lemma LoadAllocated(cfg: Config, s: Store, id: Id, b: Id, limit: Quota, x: Id, r: Rid)
    requires Off(cfg) && id in s && s[id].kind == Project && Hangs(s, s[id]) && Distinct(s[id].allocations)
    ensures Load(cfg, Budgets(s), Allocated(s[id], b, limit), x, r)
            == Load(cfg, Budgets(s), s[id], x, r)
               + (if Active(s[id].status) && x in Chain(Budgets(s), b)
                  then Q(limit, r) - Q(HeldFrom(s[id].allocations, b), r) else 0)
  {
    LoadOf(cfg, Budgets(s), s[id], x, r);
    LoadOf(cfg, Budgets(s), Allocated(s[id], b, limit), x, r);
    ChargeAllocated(Budgets(s), s[id], b, limit, x, r);
  }

  lemma BoundedAllocate(cfg: Config, s: Store, c: Caller, id: Id, b: Id, amount: Quota)
    requires Off(cfg) && Safe(cfg, s) && Allocate(cfg, s, c, id, b, amount).Ok?
    ensures Bounded(cfg, Allocate(cfg, s, c, id, b, amount).value)
  {
    AllocateFacts(cfg, s, c, id, b, amount);
    var limit := NonZero(amount);
    LeafLimitQuantities(cfg, limit);
    assert Hangs(s, s[id]) && SourcedNode(Budgets(s), s[id]) && SaneNode(cfg, s[id]);
    HeldQuantities(cfg, s[id].allocations, b);
    BoundedAllocated(cfg, s, id, b, limit);
  }

  lemma BoundedAllocated(cfg: Config, s: Store, id: Id, b: Id, limit: Quota)
    requires Off(cfg) && Shaped(s) && Sane(cfg, s) && Bounded(cfg, s)
    requires id in s && s[id].kind == Project && Hangs(s, s[id]) && Distinct(s[id].allocations)
    requires Quantities(cfg, limit) && Quantities(cfg, HeldFrom(s[id].allocations, b))
    requires Raises(HeldFrom(s[id].allocations, b), limit) ==>
               HasRoom(cfg, s, Chain(Budgets(s), b), limit, HeldFrom(s[id].allocations, b))
    ensures Bounded(cfg, Put(s, id, Allocated(s[id], b, limit)))
  {
    var n, held := s[id], HeldFrom(s[id].allocations, b);
    var m := Allocated(n, b, limit);
    forall x, r
      ensures Load(cfg, Budgets(s), m, x, r) == Load(cfg, Budgets(s), n, x, r)
        + (if Active(n.status) && x in Chain(Budgets(s), b) then Q(limit, r) - Q(held, r) else 0)
    {
      LoadAllocated(cfg, s, id, b, limit, x, r);
    }
    if Raises(held, limit) && Active(n.status) {
      InPlaceBudgets(s, Put(s, id, m));
      BoundedGrant(cfg, s, id, m, b, limit, held);
    } else {
      forall x, r | r in cfg.counts
        ensures Load(cfg, Budgets(s), m, x, r) <= Load(cfg, Budgets(s), n, x, r)
      {
        assert Active(n.status) ==> Q(limit, r) <= Q(held, r);
      }
      BoundedLess(cfg, s, id, m);
    }
  }

  // ── The tree changes ────────────────────────────────────────────────────────

  /** The chains that matter for what n charges b are the same in both trees. */
  lemma LoadElsewhere(cfg: Config, pm: Parents, pn: Parents, n: Node, b: Id, r: Rid)
    requires Off(cfg) && SourcedNode(pm, n) && n.kind == Project && n.parent.Some?
    requires n.parent.value in pm && n.parent.value in pn
    requires Chain(pn, n.parent.value) == Chain(pm, n.parent.value)
    requires forall d :: d in Chain(pm, n.parent.value) ==> (b in Chain(pn, d) <==> b in Chain(pm, d))
    ensures Load(cfg, pn, n, b, r) == Load(cfg, pm, n, b, r)
  {
    LoadOf(cfg, pm, n, b, r);
    LoadOf(cfg, pn, n, b, r);
    if Active(n.status) {
      forall a | a in n.allocations
        ensures b in Chain(pm, a.budget) <==> b in Chain(pn, a.budget)
      {
        assert From(pm, n.parent.value, a);
      }
      AllocationChargeSame(pm, pn, n.allocations, b, r);
    }
  }

  lemma BoundedCreateBudget(cfg: Config, s: Store, c: Caller, id: Id, req: CreateRequest)
    requires Off(cfg) && Safe(cfg, s) && id !in s && req.kind == Budget && Create(cfg, s, c, id, req).Ok?
    ensures Bounded(cfg, Create(cfg, s, c, id, req).value)
  {
    var n := CreatedNode(cfg, s, c, id, req);
    if !n.inherits { BudgetLimitCaps(cfg, n.limit); }
    BoundedAddBudget(cfg, s, id, n);
  }

  lemma BoundedAddBudget(cfg: Config, s: Store, x: Id, n: Node)
    requires Off(cfg) && Safe(cfg, s) && x !in s && n.kind == Budget && n.parent.Some? && Hangs(s, n) && OwnShape(n)
    requires !n.inherits ==> Caps(cfg, n.limit)
    ensures Bounded(cfg, s[x := n])
  {
    var t, pm := s[x := n], Budgets(s);
    var pn := pm[x := n.parent];
    ShapeAdd(s, x, n);
    AddBudget(pm, x, n.parent.value);
    forall b, r | b in t && t[b].kind == Budget && r in cfg.counts
      ensures Within(cfg, t, b, r)
    {
      forall id | id in s
        ensures Load(cfg, pn, s[id], b, r) == Load(cfg, pm, s[id], b, r)
      {
        LoadBesideNew(cfg, s, x, n.parent.value, s[id], b, r);
      }
      UsageMapped(cfg, s, pn, b, r);
      TotalPut(s, Below(cfg, pn, pn.Keys, None, b, r), x, n);
      if b == x {
        NewUnused(cfg, s, x, r);
      } else {
        assert Within(cfg, s, b, r);
      }
    }
  }

  lemma LoadBesideNew(cfg: Config, s: Store, x: Id, p: Id, n: Node, b: Id, r: Rid)
    requires Off(cfg) && Tree(Budgets(s)) && x !in Budgets(s) && p in Budgets(s)
    requires Hangs(s, n) && SourcedNode(Budgets(s), n)
    ensures Load(cfg, Budgets(s)[x := Some(p)], n, b, r) == Load(cfg, Budgets(s), n, b, r)
  {
    var pm := Budgets(s);
    var pn := pm[x := Some(p)];
    if n.kind == Project {
      var q := n.parent.value;
      AddBudget(pm, x, p);
      forall d | d in Chain(pm, q)
        ensures b in Chain(pn, d) <==> b in Chain(pm, d)
      {
        ChainIn(pm, d, q);
      }
      LoadElsewhere(cfg, pm, pn, n, b, r);
    }
  }

  /** The usage of b in the store s, climbing the tree pn instead. */
  lemma UsageMapped(cfg: Config, s: Store, pn: Parents, b: Id, r: Rid)
    requires forall id :: id in s ==> Load(cfg, pn, s[id], b, r) == Load(cfg, Budgets(s), s[id], b, r)
    ensures Total(s, Below(cfg, pn, pn.Keys, None, b, r)) == Usage(cfg, s, b, r)
  {
    var m, k := Below(cfg, pn, pn.Keys, None, b, r), Below(cfg, Budgets(s), Budgets(s).Keys, None, b, r);
    forall id | id in s
      ensures Weight(m, s[id]) == Weight(k, s[id])
    {
      assert Load(cfg, pn, s[id], b, r) == Load(cfg, Budgets(s), s[id], b, r);
    }
    TotalSame(s, m, s, k);
  }

  lemma NewUnused(cfg: Config, s: Store, x: Id, r: Rid)
    requires Off(cfg) && Shaped(s) && Sourced(s) && x !in s
    ensures Usage(cfg, s, x, r) == 0
  {
    var pm := Budgets(s);
    var m := Below(cfg, pm, pm.Keys, None, x, r);
    OffFromAbove(cfg, s);
    forall id | id in s
      ensures Weight(m, s[id]) == 0
    {
      var n := s[id];
      assert DrawsFromAbove(cfg, pm, n);
      if Counted(m, n) {
        if x in Chain(pm, n.parent.value) { ChainIn(pm, x, n.parent.value); }
        NothingFromOutside(pm, n, x, r);
      }
    }
    TotalZero(s, m);
  }

  lemma BoundedDelete(cfg: Config, s: Store, c: Caller, id: Id)
    requires Off(cfg) && Safe(cfg, s) && Delete(s, c, id).Ok?
    ensures Bounded(cfg, Delete(s, c, id).value)
  {
    var gone := Closure(s, id);
    var t, pm := s - gone, Budgets(s);
    var pn := pm - gone;
    ShapeDelete(s, c, id);
    ClosureClosed(s, id);
    RootStays(s, id);
    RemoveBudgets(pm, gone);
    forall b, r | b in t && t[b].kind == Budget && r in cfg.counts
      ensures Within(cfg, t, b, r)
    {
      assert Within(cfg, s, b, r);
      var m, k := Below(cfg, pn, pn.Keys, None, b, r), Below(cfg, pm, pm.Keys, None, b, r);
      forall x | x in s && x in gone
        ensures Weight(k, s[x]) == 0
      {
        assert x == id || !BlocksDeletion(s[x]);
      }
      TotalWithout(s, k, gone);
      forall x | x in t
        ensures Weight(m, t[x]) == Weight(k, t[x])
      {
        LoadBesideRemoved(cfg, s, gone, t[x], x, b, r);
      }
      TotalSame(t, m, t, k);
    }
  }

  lemma RootStays(s: Store, x: Id)
    requires Shaped(s) && x != ROOT
    ensures ROOT !in Closure(s, x)
  {
    if x in Chain(Budgets(s), ROOT) { RootNotBelow(Budgets(s), x); }
  }

  lemma LoadBesideRemoved(cfg: Config, s: Store, gone: set<Id>, n: Node, id: Id, b: Id, r: Rid)
    requires Off(cfg) && Tree(Budgets(s)) && ROOT !in gone
    requires forall x :: x in s && s[x].parent.Some? && s[x].parent.value in gone ==> x in gone
    requires id in s && id !in gone && s[id] == n && Hangs(s, n) && SourcedNode(Budgets(s), n)
    ensures Load(cfg, Budgets(s) - gone, n, b, r) == Load(cfg, Budgets(s), n, b, r)
  {
    var pm := Budgets(s);
    var pn := pm - gone;
    if n.kind == Project {
      var q := n.parent.value;
      RemoveBudgets(pm, gone);
      StaysOut(pm, gone, q);
      forall d | d in Chain(pm, q)
        ensures b in Chain(pn, d) <==> b in Chain(pm, d)
      {
        ChainIn(pm, d, q);
      }
      LoadElsewhere(cfg, pm, pn, n, b, r);
    }
  }

  // ── Moves ───────────────────────────────────────────────────────────────────

  lemma BoundedMoveLeaf(cfg: Config, s: Store, x: Id, target: Id, n: Node)
    requires Off(cfg) && Safe(cfg, s) && x in s && s[x].kind == Project && Live(s[x].status)
    requires target in s && s[target].kind == Budget && MoveFits(cfg, s, x, target)
    requires n.parent == Some(target) && SameHoldings(s[x], n)
    ensures Bounded(cfg, Put(s, x, n))
  {
    var m := s[x];
    assert Hangs(s, m) && SaneNode(cfg, m);
    assert Budgets(Put(s, x, n)) == Budgets(s);
    forall b, r | r in cfg.counts
      ensures Load(cfg, Budgets(s), n, b, r) <= Load(cfg, Budgets(s), m, b, r)
        + (if Active(m.status) && b in Chain(Budgets(s), target) then Q(m.limit, r) else 0)
    {
      LoadOf(cfg, Budgets(s), m, b, r);
      LoadOf(cfg, Budgets(s), n, b, r);
    }
    if Active(m.status) {
      BoundedGrant(cfg, s, x, n, target, m.limit, map[]);
    } else {
      BoundedLess(cfg, s, x, n);
    }
  }

  /** What allocs charge b after x moved is at most what they charged b and x before. */
  lemma {:induction false} ChargeMoved(pm: Parents, x: Id, target: Id, allocs: seq<Allocation>, b: Id, r: Rid,
                                       both: bool)
    requires Tree(pm) && x in pm && target in pm && x != ROOT && x !in Chain(pm, target)
    requires forall a :: a in allocs ==> Q(a.limit, r) >= 0 && a.budget in pm
    requires both || b !in Chain(pm, target)
    ensures AllocationCharge(pm[x := Some(target)], allocs, b, r)
            <= AllocationCharge(pm, allocs, b, r) + (if both then AllocationCharge(pm, allocs, x, r) else 0)
  {
    if allocs != [] {
      var h, l := allocs[..|allocs| - 1], allocs[|allocs| - 1];
      assert l in allocs;
      ChargeMoved(pm, x, target, h, b, r, both);
      if b in Chain(pm[x := Some(target)], l.budget) { AboveMoved(pm, x, target, b, l.budget); }
    }
  }

  lemma AboveMoved(pm: Parents, x: Id, target: Id, b: Id, d: Id)
    requires Tree(pm) && x in pm && target in pm && x != ROOT && x !in Chain(pm, target) && d in pm
    requires b in Chain(pm[x := Some(target)], d)
    ensures b in Chain(pm, d) || (x in Chain(pm, d) && b in Chain(pm, target))
  {
    MoveBudget(pm, x, target);
  }

  lemma LoadMoved(cfg: Config, s: Store, x: Id, target: Id, n: Node, b: Id, r: Rid, both: bool)
    requires Off(cfg) && Tree(Budgets(s)) && x in Budgets(s) && target in Budgets(s) && x != ROOT
    requires x !in Chain(Budgets(s), target) && r in cfg.counts
    requires n.kind == Project && Hangs(s, n) && SaneNode(cfg, n) && SourcedNode(Budgets(s), n)
    requires both || b !in Chain(Budgets(s), target)
    ensures Load(cfg, Budgets(s)[x := Some(target)], n, b, r)
            <= Load(cfg, Budgets(s), n, b, r) + (if both then Load(cfg, Budgets(s), n, x, r) else 0)
  {
    var pm := Budgets(s);
    var pn := pm[x := Some(target)];
    var p := n.parent.value;
    LoadOf(cfg, pm, n, b, r);
    LoadOf(cfg, pm, n, x, r);
    LoadOf(cfg, pn, n, b, r);
    if Active(n.status) {
      forall a | a in n.allocations
        ensures Q(a.limit, r) >= 0 && a.budget in pm
      {
        assert From(pm, p, a);
        ChainIn(pm, a.budget, p);
      }
      ChargeMoved(pm, x, target, n.allocations, b, r, both);
      if b in Chain(pn, p) { AboveMoved(pm, x, target, b, p); }
    }
  }

  /** A budget that moves takes at most its own usage along. */
  lemma UsageMoved(cfg: Config, s: Store, x: Id, target: Id, n: Node, b: Id, r: Rid)
    requires Off(cfg) && Safe(cfg, s) && x in Budgets(s) && target in Budgets(s) && x != ROOT
    requires x !in Chain(Budgets(s), target) && r in cfg.counts
    requires n.kind == Budget && n.parent == Some(target)
    ensures Usage(cfg, Put(s, x, n), b, r)
            <= Usage(cfg, s, b, r) + (if b in Chain(Budgets(s), target) then Usage(cfg, s, x, r) else 0)
  {
    var t, pm := Put(s, x, n), Budgets(s);
    var pn := pm[x := Some(target)];
    assert Budgets(t) == pn;
    var both := b in Chain(pm, target);
    var k, m := Below(cfg, pn, pn.Keys, None, b, r), Below(cfg, pm, pm.Keys, None, b, r);
    var m' := Below(cfg, pm, if both then pm.Keys else {}, None, x, r);
    forall id | id in s
      ensures Weight(k, t[id]) <= Weight(m, s[id]) + Weight(m', s[id])
    {
      WeightMoved(cfg, s, x, target, n, id, b, r, both);
    }
    TotalAtMost(t, k, s, m, m');
    if !both { TotalZero(s, m'); }
  }

  lemma WeightMoved(cfg: Config, s: Store, x: Id, target: Id, n: Node, id: Id, b: Id, r: Rid, both: bool)
    requires Off(cfg) && Safe(cfg, s) && x in Budgets(s) && target in Budgets(s) && x != ROOT
    requires x !in Chain(Budgets(s), target) && r in cfg.counts
    requires both || b !in Chain(Budgets(s), target)
    requires id in s && n.kind == Budget
    ensures Load(cfg, Budgets(s)[x := Some(target)], Put(s, x, n)[id], b, r)
            <= Load(cfg, Budgets(s), s[id], b, r)
               + Weight(Below(cfg, Budgets(s), if both then Budgets(s).Keys else {}, None, x, r), s[id])
  {
    if s[id].kind == Project {
      assert Put(s, x, n)[id] == s[id];
      assert Hangs(s, s[id]) && SaneNode(cfg, s[id]) && SourcedNode(Budgets(s), s[id]);
      LoadMoved(cfg, s, x, target, s[id], b, r, both);
    }
  }

  lemma BoundedMoveBudget(cfg: Config, s: Store, x: Id, target: Id, n: Node)
    requires Off(cfg) && Safe(cfg, s) && x in s && s[x].kind == Budget && x != ROOT
    requires target in s && s[target].kind == Budget && x !in Chain(Budgets(s), target)
    requires MoveFits(cfg, s, x, target) && n.parent == Some(target) && SameHoldings(s[x], n)
    ensures Bounded(cfg, Put(s, x, n))
  {
    var t, pm := Put(s, x, n), Budgets(s);
    forall b, r | b in t && t[b].kind == Budget && r in cfg.counts
      ensures Within(cfg, t, b, r)
    {
      assert Within(cfg, s, b, r);
      UsageMoved(cfg, s, x, target, n, b, r);
      if b in Chain(pm, target) && !s[b].inherits && Q(s[b].limit, r) != UNLIMITED {
        MovedFits(cfg, s, x, target, b, r);
      }
    }
  }

  lemma MovedFits(cfg: Config, s: Store, x: Id, target: Id, b: Id, r: Rid)
    requires Off(cfg) && Safe(cfg, s) && x in s && s[x].kind == Budget
    requires MoveFits(cfg, s, x, target) && b in Chain(Budgets(s), target) && r in cfg.counts
    requires b in s && s[b].kind == Budget && !s[b].inherits && Q(s[b].limit, r) != UNLIMITED
    ensures Usage(cfg, s, b, r) + Usage(cfg, s, x, r) <= Q(s[b].limit, r)
  {
    UsageNonNegative(cfg, s, x, r);
    if Active(s[x].status) {
      OffFromAbove(cfg, s);
      UsageIsLocal(cfg, s, x, r);
      RoomIsExact(cfg, s, b, MovedUsage(cfg, s, x), map[], r);
      UsageNonNegative(cfg, s, b, r);
      assert SaneNode(cfg, s[b]);
    } else {
      assert Within(cfg, s, b, r);
      InactiveUnused(cfg, s, x, r);
    }
  }

  lemma BoundedMove(cfg: Config, s: Store, c: Caller, id: Id, target: Id)
    requires Off(cfg) && Safe(cfg, s) && Move(cfg, s, c, id, target).Ok?
    ensures Bounded(cfg, Move(cfg, s, c, id, target).value)
  {
    MoveFacts(cfg, s, c, id, target);
    MovedNodeKeeps(s, s[id], target, c.now);
    var n := MovedNode(s, s[id], target, c.now);
    if s[id].kind == Project {
      BoundedMoveLeaf(cfg, s, id, target, n);
    } else {
      BoundedMoveBudget(cfg, s, id, target, n);
    }
    var t := MoveWritten(s, id, target, c.now);
    CarriedHoldings(t, id, MoveBound(s, s[id], target, c.now), c.now);
    InPlaceBudgets(t, Move(cfg, s, c, id, target).value);
    BoundedSame(cfg, t, Move(cfg, s, c, id, target).value);
  }

  // ── What charges nothing ────────────────────────────────────────────────────

  lemma BoundedPromote(cfg: Config, s: Store, c: Caller, id: Id, req: PromoteRequest)
    requires Off(cfg) && Safe(cfg, s) && Promote(cfg, s, c, id, req).Ok?
    ensures Bounded(cfg, Promote(cfg, s, c, id, req).value)
  {
    PromoteFacts(cfg, s, c, id, req);
    assert OwnShape(s[id]);
    BoundedUncharged(cfg, s, id, PromotedNode(s, s[id], req, c.now));
  }

  lemma BoundedUncharged(cfg: Config, s: Store, id: Id, n: Node)
    requires Off(cfg) && Bounded(cfg, s) && id in s && s[id].kind == Project && n.kind == Project
    requires !Active(s[id].status) && n.status == s[id].status
    ensures Bounded(cfg, Put(s, id, n))
  {
    UnchargedLess(cfg, s, id, n);
    BoundedLess(cfg, s, id, n);
  }

  lemma UnchargedLess(cfg: Config, s: Store, id: Id, n: Node)
    requires Off(cfg) && id in s && !Active(s[id].status) && n.status == s[id].status
    ensures forall b, r :: r in cfg.counts ==> Load(cfg, Budgets(s), n, b, r) <= Load(cfg, Budgets(s), s[id], b, r)
  {
  }

  lemma BoundedTransfer(cfg: Config, s: Store, c: Caller, id: Id, owner: Token)
    requires Off(cfg) && Safe(cfg, s) && Transfer(s, c, id, owner).Ok?
    ensures Bounded(cfg, Transfer(s, c, id, owner).value)
  {
    var n := HandedOver(s[id], owner);
    forall b, r ensures Load(cfg, Budgets(s), n, b, r) == Load(cfg, Budgets(s), s[id], b, r) {
      SameLoad(cfg, Budgets(s), s[id], n, b, r);
    }
    BoundedLess(cfg, s, id, n);
  }

  lemma {:induction false} ChargeRewritten(cfg: Config, pm: Parents, w: Rewrite, allocs: seq<Allocation>, b: Id, r: Rid)
    requires w.r !in cfg.counts && r in cfg.counts
    ensures AllocationCharge(pm, RewrittenAllocations(w, allocs), b, r) == AllocationCharge(pm, allocs, b, r)
  {
    if allocs != [] {
      var h, l := allocs[..|allocs| - 1], allocs[|allocs| - 1];
      ChargeRewritten(cfg, pm, w, h, b, r);
      RewrittenCounts(cfg, w, l.limit);
      var t, q := RewrittenAllocations(w, h), Rewritten(w, l.limit);
      assert (t + [l.(limit := q)])[..|t|] == t;
    }
  }

  lemma BoundedRewrite(cfg: Config, s: Store, w: Rewrite)
    requires Off(cfg) && Safe(cfg, s) && w.r in cfg.bools
    ensures Bounded(cfg, RewriteAll(s, w))
  {
    var t := RewriteAll(s, w);
    ShapeRewrite(s, w);
    InPlaceBudgets(s, t);
    forall id, b, r | id in s && r in cfg.counts
      ensures Load(cfg, Budgets(s), t[id], b, r) <= Load(cfg, Budgets(s), s[id], b, r)
    {
      LoadRewritten(cfg, Budgets(s), w, s[id], b, r);
    }
    forall b | b in s ensures forall r :: r in cfg.counts ==> Q(t[b].limit, r) == Q(s[b].limit, r) {
      RewrittenCounts(cfg, w, s[b].limit);
    }
    BoundedKept(cfg, s, t);
  }

  lemma LoadRewritten(cfg: Config, pm: Parents, w: Rewrite, n: Node, b: Id, r: Rid)
    requires Off(cfg) && w.r in cfg.bools && r in cfg.counts
    ensures Load(cfg, pm, RewrittenNode(w, n), b, r) == Load(cfg, pm, n, b, r)
  {
    ChargeRewritten(cfg, pm, w, n.allocations, b, r);
    RewrittenCounts(cfg, w, n.limit);
  }

  lemma BoundedGrantRoot(cfg: Config, s: Store, r: Rid)
    requires Off(cfg) && Safe(cfg, s) && r in cfg.bools
    ensures Bounded(cfg, AdoptAvailability(s, r))
  {
    var n := s[ROOT].(limit := s[ROOT].limit[r := 1]);
    forall k | k in cfg.counts && Q(n.limit, k) != UNLIMITED
      ensures Usage(cfg, s, ROOT, k) <= Q(n.limit, k)
    {
      assert Within(cfg, s, ROOT, k);
    }
    BoundedLimit(cfg, s, ROOT, n);
    InPlaceBudgets(s, s[ROOT := n]);
    InPlaceBudgets(s, Put(s, ROOT, n));
    CapIsNothing(cfg, s, ROOT, n);
  }

  /** No report changes what an active project is charged for, or makes one active. */
  lemma LoadReported(cfg: Config, pm: Parents, n: Node, w: Report, b: Id, r: Rid)
    requires Off(cfg)
    ensures Reported(n, w).None? ==> Load(cfg, pm, n, b, r) == 0 || n.kind == Budget
    ensures Reported(n, w).Some? ==> Load(cfg, pm, Reported(n, w).value, b, r) == Load(cfg, pm, n, b, r)
  {
  }

  lemma ReportedLimit(n: Node, w: Report)
    requires OwnShape(n) && n.kind == Budget
    ensures Reported(n, w).Some? && Reported(n, w).value.limit == n.limit
    ensures Reported(n, w).value.inherits == n.inherits
  {
  }

  lemma ReportKeepsLimits(s: Store, w: Report, b: Id)
    requires Shaped(s) && ReportEnabled(s, w)
    requires b in ApplyReport(s, w) && ApplyReport(s, w)[b].kind == Budget
    ensures b in s && s[b].kind == Budget
    ensures ApplyReport(s, w)[b].limit == s[b].limit && ApplyReport(s, w)[b].inherits == s[b].inherits
  {
    if b == w.id && b in s {
      assert OwnShape(s[b]);
      ReportedNode(s[b], w);
      ReportedLimit(s[b], w);
    }
  }

  lemma BoundedReport(cfg: Config, s: Store, w: Report)
    requires Off(cfg) && Safe(cfg, s) && ReportEnabled(s, w)
    ensures Bounded(cfg, ApplyReport(s, w))
  {
    var t := ApplyReport(s, w);
    forall b, r | b in t && t[b].kind == Budget && r in cfg.counts
      ensures Within(cfg, t, b, r)
    {
      ReportKeepsLimits(s, w, b);
      UsageReported(cfg, s, w, b, r);
      assert Within(cfg, s, b, r);
    }
  }

  lemma UsageReported(cfg: Config, s: Store, w: Report, b: Id, r: Rid)
    requires Off(cfg) && Shaped(s) && ReportEnabled(s, w)
    ensures Usage(cfg, ApplyReport(s, w), b, r) == Usage(cfg, s, b, r)
  {
    ShapeReport(s, w);
    var m := Below(cfg, Budgets(s), Budgets(s).Keys, None, b, r);
    if w.AddImport? {
      TotalPut(s, m, w.id, ImportedNode(w.limit, w.members));
    } else if w.id in s {
      assert OwnShape(s[w.id]);
      LoadReported(cfg, Budgets(s), s[w.id], w, b, r);
      match Reported(s[w.id], w)
      case None =>
        ReportedNode(s[w.id], w);
        TotalWithout(s, m, {w.id});
      case Some(n) => TotalPut(s, m, w.id, n);
    }
  }
}
