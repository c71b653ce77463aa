/** No budget hands out more than it has: what the active projects below a budget with a limit of
    its own hold from it, and draw from it or from budgets below it, stays within that limit through
    every operation (rule_limits.go, op_lifecycle.go, op_move.go, op_allocations.go). */
module Capacity {
  import opened Model
  import opened Chains
  import opened Charges
  import opened Rules
  import opened Steps
  import opened Reports
  import opened Runs
  import opened Shape
  import opened Values
  import opened Sources
  import opened Locality

  /** Budget b carries no more of r than its limit. */
  ghost predicate Within(cfg: Config, s: Store, b: Id, r: Rid)
    requires b in s
  {
    s[b].inherits || Q(s[b].limit, r) == UNLIMITED || Usage(cfg, s, b, r) <= Q(s[b].limit, r)
  }

  ghost predicate Bounded(cfg: Config, s: Store) {
    forall b, r :: b in s && s[b].kind == Budget && r in cfg.counts ==> Within(cfg, s, b, r)
  }

  /** A request that waits draws nothing from budgets above its own yet. */
  ghost predicate PlainRequests(s: Store) {
    forall id :: id in s && s[id].status == Pending ==> s[id].allocations == []
  }

  /** What every step keeps. */
  ghost predicate Safe(cfg: Config, s: Store) {
    Shaped(s) && Sane(cfg, s) && Sourced(s) && PlainRequests(s) && Bounded(cfg, s)
  }

  // ── How a write changes what is charged ─────────────────────────────────────

  /** Where no node charges more and no limit is tightened, every budget stays within its limit. */
  lemma BoundedKept(cfg: Config, s: Store, t: Store)
    requires Bounded(cfg, s) && t.Keys == s.Keys && Budgets(t) == Budgets(s)
    requires forall id, b, r :: id in s && r in cfg.counts ==>
      Load(cfg, Budgets(s), t[id], b, r) <= Load(cfg, Budgets(s), s[id], b, r)
    requires forall b, r :: b in s && s[b].kind == Budget && r in cfg.counts ==>
      t[b].inherits || (!s[b].inherits && Q(t[b].limit, r) == Q(s[b].limit, r))
    ensures Bounded(cfg, t)
  {
    forall b, r | b in t && t[b].kind == Budget && r in cfg.counts
      ensures Within(cfg, t, b, r)
    {
      assert b in Budgets(t);
      assert Within(cfg, s, b, r);
      UsageShrinks(cfg, s, t, b, r);
    }
  }

  lemma UsageShrinks(cfg: Config, s: Store, t: Store, b: Id, r: Rid)
    requires t.Keys == s.Keys && Budgets(t) == Budgets(s)
    requires forall id :: id in s ==> Load(cfg, Budgets(s), t[id], b, r) <= Load(cfg, Budgets(s), s[id], b, r)
    ensures Usage(cfg, t, b, r) <= Usage(cfg, s, b, r)
  {
    var m, none := Below(cfg, Budgets(s), Budgets(s).Keys, None, b, r), Below(cfg, Budgets(s), {}, None, b, r);
    TotalZero(s, none);
    forall id | id in s
      ensures Weight(m, t[id]) <= Weight(m, s[id]) + Weight(none, s[id])
    {
      assert Load(cfg, Budgets(s), t[id], b, r) <= Load(cfg, Budgets(s), s[id], b, r);
    }
    TotalAtMost(t, m, s, m, none);
  }

  /** Same place, same holdings: the same charge. */
  lemma SameLoad(cfg: Config, pm: Parents, m: Node, n: Node, b: Id, r: Rid)
    requires Off(cfg) && SamePlace(m, n) && SameHoldings(m, n)
    ensures Load(cfg, pm, n, b, r) == Load(cfg, pm, m, b, r)
  {
  }

  lemma BoundedSame(cfg: Config, s: Store, t: Store)
    requires Off(cfg) && Bounded(cfg, s) && t.Keys == s.Keys && Budgets(t) == Budgets(s)
    requires forall id :: id in s ==> SamePlace(s[id], t[id]) && SameHoldings(s[id], t[id])
    ensures Bounded(cfg, t)
  {
    forall id, b, r | id in s && r in cfg.counts
      ensures Load(cfg, Budgets(s), t[id], b, r) <= Load(cfg, Budgets(s), s[id], b, r)
    {
      SameLoad(cfg, Budgets(s), s[id], t[id], b, r);
    }
    BoundedKept(cfg, s, t);
  }

  /** What b is charged after n is written over m: the difference of the two. */
  lemma UsagePut(cfg: Config, s: Store, id: Id, n: Node, b: Id, r: Rid)
    requires Off(cfg) && Budgets(Put(s, id, n)) == Budgets(s)
    ensures Usage(cfg, Put(s, id, n), b, r)
            == Usage(cfg, s, b, r) + Load(cfg, Budgets(s), n, b, r)
               - (if id in s then Load(cfg, Budgets(s), s[id], b, r) else 0)
  {
    SameLoad(cfg, Budgets(s), n, CapHistory(n), b, r);
    TotalPut(s, Below(cfg, Budgets(s), Budgets(s).Keys, None, b, r), id, CapHistory(n));
  }

  /** A project is granted add in exchange for sub, charged from budget p upward, and every budget
      there has room: nothing is exceeded. */
  lemma BoundedGrant(cfg: Config, s: Store, id: Id, n: Node, p: Id, add: Quota, sub: Quota)
    requires Off(cfg) && Shaped(s) && Sane(cfg, s) && Bounded(cfg, s)
    requires Budgets(Put(s, id, n)) == Budgets(s) && n.kind == Project && (id in s ==> s[id].kind == Project)
    requires Quantities(cfg, add) && Quantities(cfg, sub)
    requires HasRoom(cfg, s, Chain(Budgets(s), p), add, sub)
    requires forall b, r :: r in cfg.counts ==>
      Load(cfg, Budgets(s), n, b, r)
      <= (if id in s then Load(cfg, Budgets(s), s[id], b, r) else 0)
         + (if b in Chain(Budgets(s), p) then Q(add, r) - Q(sub, r) else 0)
    ensures Bounded(cfg, Put(s, id, n))
  {
    var t := Put(s, id, n);
    forall b, r | b in t && t[b].kind == Budget && r in cfg.counts
      ensures Within(cfg, t, b, r)
    {
      assert b in s && t[b] == s[b];
      assert Within(cfg, s, b, r);
      UsagePut(cfg, s, id, n, b, r);
      if !s[b].inherits && Q(s[b].limit, r) != UNLIMITED && b in Chain(Budgets(s), p) {
        RoomIsExact(cfg, s, b, add, sub, r);
      }
    }
  }

  /** An active project charges its own chain for its limit and each allocation's for that. */
  lemma LoadOf(cfg: Config, pm: Parents, n: Node, b: Id, r: Rid)
    requires Off(cfg) && n.kind == Project && n.parent.Some? && n.parent.value in pm
    ensures Active(n.status) ==>
              Load(cfg, pm, n, b, r) == (if b in Chain(pm, n.parent.value) then Q(n.limit, r) else 0)
                                        + AllocationCharge(pm, n.allocations, b, r)
    ensures !Active(n.status) ==> Load(cfg, pm, n, b, r) == 0
  {
  }

  lemma LoadOfBudget(cfg: Config, pm: Parents, n: Node, b: Id, r: Rid)
    requires n.kind == Budget
    ensures Load(cfg, pm, n, b, r) == 0
  {
  }

  /** A budget of the store is written with a limit that holds what it is charged. */
  lemma BoundedLimit(cfg: Config, s: Store, id: Id, n: Node)
    requires Off(cfg) && Bounded(cfg, s) && id in s && s[id].kind == Budget && SamePlace(s[id], n)
    requires n.inherits || forall r :: r in cfg.counts && Q(n.limit, r) != UNLIMITED ==>
      Usage(cfg, s, id, r) <= Q(n.limit, r)
    ensures Bounded(cfg, Put(s, id, n))
  {
    var t := Put(s, id, n);
    InPlaceBudgets(s, t);
    forall b, r | b in t && t[b].kind == Budget && r in cfg.counts
      ensures Within(cfg, t, b, r)
    {
      UsagePut(cfg, s, id, n, b, r);
      LoadOfBudget(cfg, Budgets(s), n, b, r);
      LoadOfBudget(cfg, Budgets(s), s[id], b, r);
      if b != id { assert Within(cfg, s, b, r); }
    }
  }

  /** A limit that passes the floor check holds what the budget is charged. */
  lemma FloorIsExact(cfg: Config, s: Store, x: Id, limit: Quota, r: Rid)
    requires Off(cfg) && Sane(cfg, s) && Sourced(s) && ValidBudgetLimit(cfg, limit)
    requires FloorOk(cfg, s, x, limit) && r in cfg.counts && Q(limit, r) != UNLIMITED
    ensures Usage(cfg, s, x, r) <= Q(limit, r)
  {
    OffFromAbove(cfg, s);
    UsageIsLocal(cfg, s, x, r);
    UsageNonNegative(cfg, s, x, r);
    BudgetLimitCaps(cfg, limit);
    SaturatedFits(Usage(cfg, s, x, r), 0, 0, Q(limit, r));
  }

  // ── Projects ────────────────────────────────────────────────────────────────

  lemma PlainPut(s: Store, id: Id, n: Node)
    requires PlainRequests(s) && (n.status == Pending ==> n.allocations == [])
    ensures PlainRequests(Put(s, id, n)) && PlainRequests(s[id := n])
  {
  }

  lemma BoundedCreateProject(cfg: Config, s: Store, c: Caller, id: Id, req: CreateRequest)
    requires Off(cfg) && Safe(cfg, s) && id !in s && req.kind == Project && Create(cfg, s, c, id, req).Ok?
    ensures Bounded(cfg, Create(cfg, s, c, id, req).value)
  {
    var n := CreatedNode(cfg, s, c, id, req);
    LeafLimitQuantities(cfg, n.limit);
    BoundedAddProject(cfg, s, id, n, req.parent);
  }

  lemma BoundedAddProject(cfg: Config, s: Store, id: Id, n: Node, p: Id)
    requires Off(cfg) && Safe(cfg, s) && id !in s && p in s && s[p].kind == Budget
    requires n.kind == Project && n.parent == Some(p) && n.allocations == [] && Quantities(cfg, n.limit)
    requires Active(n.status) ==> HasRoom(cfg, s, Chain(Budgets(s), p), n.limit, map[])
    ensures Bounded(cfg, s[id := n])
  {
    assert Budgets(Put(s, id, n)) == Budgets(s) && Budgets(s[id := n]) == Budgets(s);
    forall b, r
      ensures Load(cfg, Budgets(s), n, b, r)
              == if Active(n.status) && b in Chain(Budgets(s), p) then Q(n.limit, r) else 0
    {
      LoadOf(cfg, Budgets(s), n, b, r);
    }
    if Active(n.status) {
      BoundedGrant(cfg, s, id, n, p, n.limit, map[]);
    } else {
      BoundedFree(cfg, s, id, n);
    }
    CapIsNothing(cfg, s, id, n);
  }

  /** Capping the history changes nothing that counts. */
  lemma CapIsNothing(cfg: Config, s: Store, id: Id, n: Node)
    requires Off(cfg) && Bounded(cfg, Put(s, id, n)) && Budgets(Put(s, id, n)) == Budgets(s[id := n])
    ensures Bounded(cfg, s[id := n])
  {
    BoundedSame(cfg, Put(s, id, n), s[id := n]);
  }

  /** A node that charges nothing is added. */
  lemma BoundedFree(cfg: Config, s: Store, id: Id, n: Node)
    requires Off(cfg) && Bounded(cfg, s) && Budgets(Put(s, id, n)) == Budgets(s) && n.kind == Project
    requires id !in s
    requires forall b, r :: r in cfg.counts ==> Load(cfg, Budgets(s), n, b, r) <= 0
    ensures Bounded(cfg, Put(s, id, n))
  {
    var t := Put(s, id, n);
    forall b, r | b in t && t[b].kind == Budget && r in cfg.counts
      ensures Within(cfg, t, b, r)
    {
      assert Within(cfg, s, b, r);
      UsagePut(cfg, s, id, n, b, r);
    }
  }

  /** A project is rewritten in its place without charging more anywhere. */
  lemma BoundedLess(cfg: Config, s: Store, id: Id, n: Node)
    requires Off(cfg) && Bounded(cfg, s) && id in s && s[id].kind == Project && n.kind == Project
    requires forall b, r :: r in cfg.counts ==> Load(cfg, Budgets(s), n, b, r) <= Load(cfg, Budgets(s), s[id], b, r)
    ensures Bounded(cfg, Put(s, id, n)) && Budgets(Put(s, id, n)) == Budgets(s)
  {
    var t := Put(s, id, n);
    assert Budgets(t) == Budgets(s);
    forall x, b, r | x in s && r in cfg.counts
      ensures Load(cfg, Budgets(s), t[x], b, r) <= Load(cfg, Budgets(s), s[x], b, r)
    {
      if x == id { SameLoad(cfg, Budgets(s), n, CapHistory(n), b, r); }
    }
    BoundedKept(cfg, s, t);
  }

  lemma BoundedApproveProject(cfg: Config, s: Store, c: Caller, id: Id, req: ApproveRequest)
    requires Off(cfg) && Safe(cfg, s) && Approve(cfg, s, c, id, req).Ok? && s[id].kind == Project
    ensures Bounded(cfg, Approve(cfg, s, c, id, req).value)
  {
    ApproveFacts(cfg, s, c, id, req);
    LeafLimitQuantities(cfg, FinalLimit(s[id], req));
    BoundedDecided(cfg, s, id, req, c.now);
  }

  lemma BoundedDecided(cfg: Config, s: Store, id: Id, req: ApproveRequest, now: Time)
    requires Off(cfg) && Safe(cfg, s) && id in s && s[id].kind == Project
    requires s[id].status == Pending || s[id].status == ChangePending
    requires Quantities(cfg, FinalLimit(s[id], req))
    requires HasRoom(cfg, s, Above(s, s[id]), FinalLimit(s[id], req),
        if s[id].status == ChangePending then s[id].limit else map[])
    ensures Bounded(cfg, Put(s, id, Decided(s, s[id], req, now)))
  {
    var n := s[id];
    var d := Decided(s, n, req, now);
    var add := FinalLimit(n, req);
    var sub: Quota := if n.status == ChangePending then n.limit else map[];
    assert Hangs(s, n) && SaneNode(cfg, n);
    InPlaceBudgets(s, Put(s, id, d));
    forall b, r | r in cfg.counts
      ensures Load(cfg, Budgets(s), d, b, r) <= Load(cfg, Budgets(s), n, b, r)
        + (if b in Above(s, n) then Q(add, r) - Q(sub, r) else 0)
    {
      LoadDecided(cfg, s, n, req, now, b, r);
    }
    BoundedGrant(cfg, s, id, d, n.parent.value, add, sub);
  }

  /** What approval changes in the charge of a project that draws nothing while it waits. */
  lemma LoadDecided(cfg: Config, s: Store, n: Node, req: ApproveRequest, now: Time, b: Id, r: Rid)
    requires Off(cfg) && n.kind == Project && Hangs(s, n)
    requires n.status == ChangePending || (n.status == Pending && n.allocations == [])
    ensures Load(cfg, Budgets(s), Decided(s, n, req, now), b, r) == Load(cfg, Budgets(s), n, b, r)
      + (if b in Above(s, n)
         then Q(FinalLimit(n, req), r) - Q(if n.status == ChangePending then n.limit else map[], r)
         else 0)
  {
    LoadOf(cfg, Budgets(s), n, b, r);
    LoadOf(cfg, Budgets(s), Decided(s, n, req, now), b, r);
  }

  lemma ShrinksCounts(cfg: Config, current: Quota, next: Quota, r: Rid)
    requires cfg.Valid() && Shrinks(cfg, current, next) && Quantities(cfg, current) && r in cfg.counts
    ensures Q(next, r) <= Q(current, r)
  {
  }

  /** A change applied on the spot: what it takes is given back or fits, mixed ones included. */
  lemma BoundedDirect(cfg: Config, s: Store, id: Id, req: ChangeRequest)
    requires Off(cfg) && Safe(cfg, s) && id in s && s[id].kind == Project && Active(s[id].status)
    requires AskedLimitOk(cfg, s, s[id], req) && LeafVerdict(cfg, s, s[id], req) == Direct
    ensures Bounded(cfg, Put(s, id, AppliedDirectly(s[id], req)))
  {
    var n := s[id];
    var d := AppliedDirectly(n, req);
    assert Hangs(s, n) && SaneNode(cfg, n);
    forall b, r
      ensures Load(cfg, Budgets(s), d, b, r) == Load(cfg, Budgets(s), n, b, r)
        + (if b in Above(s, n) then Q(d.limit, r) - Q(n.limit, r) else 0)
    {
      LoadOf(cfg, Budgets(s), n, b, r);
      LoadOf(cfg, Budgets(s), d, b, r);
    }
    if req.limit.Some? && !Shrinks(cfg, n.limit, req.limit.value) {
      LeafLimitQuantities(cfg, req.limit.value);
      InPlaceBudgets(s, Put(s, id, d));
      BoundedGrant(cfg, s, id, d, n.parent.value, req.limit.value, n.limit);
    } else {
      forall b, r | r in cfg.counts
        ensures Load(cfg, Budgets(s), d, b, r) <= Load(cfg, Budgets(s), n, b, r)
      {
        if req.limit.Some? { ShrinksCounts(cfg, n.limit, req.limit.value, r); }
      }
      BoundedLess(cfg, s, id, d);
    }
  }

  lemma BoundedChange(cfg: Config, s: Store, c: Caller, id: Id, req: ChangeRequest)
    requires Off(cfg) && Safe(cfg, s) && RequestChange(cfg, s, c, id, req).Ok?
    ensures Bounded(cfg, RequestChange(cfg, s, c, id, req).value)
  {
    var n := ChangedNode(cfg, s, c, id, req);
    if s[id].kind == Budget {
      if n.limit == s[id].limit {
        BoundedUntouched(cfg, s, id, n);
      } else {
        BudgetLimitCaps(cfg, req.limit.value);
        forall r | r in cfg.counts ensures Usage(cfg, s, id, r) == 0 { InactiveUnused(cfg, s, id, r); }
        BoundedLimit(cfg, s, id, n);
      }
    } else if Active(s[id].status) && n == AppliedDirectly(s[id], req) {
      BoundedDirect(cfg, s, id, req);
    } else {
      WaitsCharges(cfg, s, id, n, req);
      BoundedLess(cfg, s, id, n);
    }
  }

  lemma WaitsCharges(cfg: Config, s: Store, id: Id, n: Node, req: ChangeRequest)
    requires Off(cfg) && Shaped(s) && id in s && s[id].kind == Project
    requires (n == Amended(s[id], req) && s[id].status == Pending)
             || (n == Proposed(s[id], req) && Active(s[id].status))
    ensures forall b, r :: r in cfg.counts ==> Load(cfg, Budgets(s), n, b, r) <= Load(cfg, Budgets(s), s[id], b, r)
  {
    assert Hangs(s, s[id]);
    forall b, r | r in cfg.counts
      ensures Load(cfg, Budgets(s), n, b, r) <= Load(cfg, Budgets(s), s[id], b, r)
    {
      LoadOf(cfg, Budgets(s), n, b, r);
      LoadOf(cfg, Budgets(s), s[id], b, r);
    }
  }

  /** A budget is rewritten with the limit it has. */
  lemma BoundedUntouched(cfg: Config, s: Store, id: Id, n: Node)
    requires Off(cfg) && Bounded(cfg, s) && id in s && s[id].kind == Budget && SamePlace(s[id], n)
    requires n.limit == s[id].limit && n.inherits == s[id].inherits
    ensures Bounded(cfg, Put(s, id, n))
  {
    forall r | r in cfg.counts && !n.inherits && Q(n.limit, r) != UNLIMITED
      ensures Usage(cfg, s, id, r) <= Q(n.limit, r)
    {
      assert Within(cfg, s, id, r);
    }
    BoundedLimit(cfg, s, id, n);
  }
}
