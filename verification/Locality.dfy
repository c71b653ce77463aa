/** Two ways to compute what a budget is charged agree, and 64-bit sums decide as exact ones do
    (calc_rollup.go, rule_limits.go). */
module Locality {
  import opened Model
  import opened Chains
  import opened Charges
  import opened Rules
  import opened Steps
  import opened Shape
  import opened Values
  import opened Sources

  /** What node n charges budget b of r, looking at the whole tree. */
  ghost function Load(cfg: Config, pm: Parents, n: Node, b: Id, r: Rid): int {
    Weight(Below(cfg, pm, pm.Keys, None, b, r), n)
  }

  /** The switches are off: only active projects are charged, each for its limit. */
  predicate Off(cfg: Config) {
    cfg.Valid() && cfg.acc == ALL_OFF
  }

  lemma LoadNonNegative(cfg: Config, pm: Parents, n: Node, b: Id, r: Rid)
    requires Off(cfg) && SaneNode(cfg, n) && r in cfg.counts
    ensures Load(cfg, pm, n, b, r) >= 0
  {
    AllocationChargeNonNegative(pm, n.allocations, b, r);
  }

  lemma UsageNonNegative(cfg: Config, s: Store, b: Id, r: Rid)
    requires Off(cfg) && Sane(cfg, s) && r in cfg.counts
    ensures Usage(cfg, s, b, r) >= 0
  {
    forall id | id in s
      ensures Load(cfg, Budgets(s), s[id], b, r) >= 0
    {
      LoadNonNegative(cfg, Budgets(s), s[id], b, r);
    }
    TotalNonNegative(s, Below(cfg, Budgets(s), Budgets(s).Keys, None, b, r));
  }

  /** A project outside the subtree of x draws nothing from inside it. */
  lemma NothingFromOutside(pm: Parents, n: Node, x: Id, r: Rid)
    requires n.parent.Some? && x !in Chain(pm, n.parent.value)
    requires forall a :: a in n.allocations ==> a.budget in Chain(pm, n.parent.value)
    ensures AllocationCharge(pm, n.allocations, x, r) == 0
  {
    forall a | a in n.allocations
      ensures x !in Chain(pm, a.budget)
    {
      if x in Chain(pm, a.budget) { ChainTransitive(pm, x, a.budget, n.parent.value); }
    }
    AllocationChargeNone(pm, n.allocations, x, r);
  }

  /** Every project that is charged for its allocations draws from budgets above its own. */
  ghost predicate ChargedFromAbove(cfg: Config, s: Store) {
    forall id {:trigger DrawsFromAbove(cfg, Budgets(s), s[id])} :: id in s ==> DrawsFromAbove(cfg, Budgets(s), s[id])
  }

  ghost predicate DrawsFromAbove(cfg: Config, pm: Parents, n: Node) {
    n.kind == Project && n.parent.Some? && ChargedStatus(cfg.acc, n.status) && n.status != Archived ==>
      forall a :: a in n.allocations ==> a.budget in Chain(pm, n.parent.value)
  }

  /** Looking at the subtree of a budget alone gives what it is charged, whatever the switches: limit edits
      compute the one, capacity checks the other. */
  lemma UsageIsLocal(cfg: Config, s: Store, x: Id, r: Rid)
    requires ChargedFromAbove(cfg, s)
    ensures LocalUsage(cfg, s, x, r) == Usage(cfg, s, x, r)
  {
    var pm := Budgets(s);
    var m, k := Below(cfg, pm, Subtree(s, x), None, x, r), Below(cfg, pm, pm.Keys, None, x, r);
    forall id | id in s
      ensures Weight(m, s[id]) == Weight(k, s[id])
    {
      var n := s[id];
      assert DrawsFromAbove(cfg, pm, n);
      if Counted(k, n) && n.status != Archived && x !in Chain(pm, n.parent.value) {
        NothingFromOutside(pm, n, x, r);
      }
    }
    TotalSame(s, m, s, k);
  }

  /** What n, hanging elsewhere, draws from budget x or below it. */
  ghost function DrawnFromOutside(cfg: Config, pm: Parents, n: Node, x: Id, r: Rid): int {
    if n.kind == Project && n.parent.Some? && n.parent.value in pm && ChargedStatus(cfg.acc, n.status)
        && n.status != Archived
       && x !in Chain(pm, n.parent.value)
    then AllocationCharge(pm, n.allocations, x, r)
    else 0
  }

  /** And the two agree on a budget exactly where no charged project from elsewhere draws from it or below. */
  lemma UsageIsLocalExact(cfg: Config, s: Store, x: Id, r: Rid)
    requires Sane(cfg, s) && r in cfg.counts
    ensures LocalUsage(cfg, s, x, r) == Usage(cfg, s, x, r)
            <==> forall id :: id in s ==> DrawnFromOutside(cfg, Budgets(s), s[id], x, r) == 0
  {
    var pm := Budgets(s);
    var m, k := Below(cfg, pm, Subtree(s, x), None, x, r), Below(cfg, pm, pm.Keys, None, x, r);
    forall id | id in s
      ensures Weight(k, s[id]) == Weight(m, s[id]) + DrawnFromOutside(cfg, pm, s[id], x, r)
      ensures DrawnFromOutside(cfg, pm, s[id], x, r) >= 0
    {
      assert SaneNode(cfg, s[id]);
      AllocationChargeNonNegative(pm, s[id].allocations, x, r);
    }
    if forall id :: id in s ==> DrawnFromOutside(cfg, pm, s[id], x, r) == 0 {
      TotalSame(s, m, s, k);
    } else {
      var id :| id in s && DrawnFromOutside(cfg, pm, s[id], x, r) != 0;
      TotalLess(s, m, k, id);
    }
  }

  /** Where nothing weighs more and one node weighs less, the total is less. */
  lemma TotalLess(s: Store, m: Meter, k: Meter, id: Id)
    requires id in s && Weight(m, s[id]) < Weight(k, s[id])
    requires forall x :: x in s ==> Weight(m, s[x]) <= Weight(k, s[x])
    ensures Total(s, m) < Total(s, k)
  {
    TotalSplit(s, m, id);
    TotalSplit(s, k, id);
    TotalNoMore(s - {id}, m, k);
  }

  lemma {:induction false} TotalNoMore(s: Store, m: Meter, k: Meter)
    requires forall x :: x in s ==> Weight(m, s[x]) <= Weight(k, s[x])
    ensures Total(s, m) <= Total(s, k)
    decreases |s|
  {
    if s != map[] {
      var x := Pick(s);
      TotalSplit(s, k, x);
      assert (s - {x}).Keys == s.Keys - {x};
      TotalNoMore(s - {x}, m, k);
    }
  }

  /** With the switches off only active projects are charged, and they draw from above in every reachable
      store. */
  lemma OffFromAbove(cfg: Config, s: Store)
    requires Off(cfg) && Sourced(s)
    ensures ChargedFromAbove(cfg, s)
  {
    forall id | id in s ensures DrawsFromAbove(cfg, Budgets(s), s[id]) {
      assert SourcedNode(Budgets(s), s[id]);
      assert forall a :: a in s[id].allocations && s[id].parent.Some? && From(Budgets(s), s[id].parent.value, a) ==>
        a.budget in Chain(Budgets(s), s[id].parent.value);
    }
  }

  /** However many projects there are: when the saturated sum, less what is given back and plus what
      is asked, fits a limit, the exact sum does. */
  lemma SaturatedFits(usage: int, sub: int, add: int, limit: int)
    requires usage >= 0 && 0 <= sub <= MAX_QUOTA && 0 <= add
    requires limit != UNLIMITED && limit <= MAX_QUOTA && Fits(Saturated(usage) - sub + add, limit)
    ensures usage - sub + add <= limit
  {
  }

  /** A passed capacity check means room in unbounded arithmetic. */
  lemma RoomIsExact(cfg: Config, s: Store, b: Id, add: Quota, sub: Quota, r: Rid)
    requires Off(cfg) && Sane(cfg, s) && Room(cfg, s, b, add, sub) && r in cfg.counts
    requires s[b].kind == Budget && !s[b].inherits && Q(s[b].limit, r) != UNLIMITED
    requires 0 <= Q(sub, r) <= MAX_QUOTA && 0 <= Q(add, r)
    ensures Usage(cfg, s, b, r) - Q(sub, r) + Q(add, r) <= Q(s[b].limit, r)
  {
    UsageNonNegative(cfg, s, b, r);
    assert SaneNode(cfg, s[b]);
    SaturatedFits(Usage(cfg, s, b, r), Q(sub, r), Q(add, r), Q(s[b].limit, r));
  }

  /** And a refusal is never the fault of the arithmetic: a budget of finite limit with room in
      unbounded arithmetic passes. */
  lemma RoomIsComplete(cfg: Config, s: Store, b: Id, add: Quota, sub: Quota)
    requires Off(cfg) && Sane(cfg, s) && b in s && s[b].kind == Budget && !s[b].inherits
    requires Quantities(cfg, sub) && Quantities(cfg, add)
    requires forall r :: r in cfg.counts ==>
      Q(s[b].limit, r) != UNLIMITED && Usage(cfg, s, b, r) - Q(sub, r) + Q(add, r) <= Q(s[b].limit, r)
    ensures Room(cfg, s, b, add, sub)
  {
    assert SaneNode(cfg, s[b]);
    forall r | r in cfg.counts
      ensures MIN_INT <= Needed(cfg, s, b, add, sub, r) <= MAX_INT
      ensures Fits(Needed(cfg, s, b, add, sub, r), Q(s[b].limit, r))
    {
      UsageNonNegative(cfg, s, b, r);
    }
  }

  /** The budgets above an active one are active. */
  lemma {:induction false} ChainActive(s: Store, p: Id)
    requires Shaped(s) && p in s && s[p].kind == Budget && Active(s[p].status)
    ensures forall d :: d in Chain(Budgets(s), p) ==> d in s && s[d].kind == Budget && Active(s[d].status)
    decreases |Chain(Budgets(s), p)|
  {
    ChainStep(Budgets(s), p);
    assert Hangs(s, s[p]);
    if s[p].parent.Some? { ChainActive(s, s[p].parent.value); }
  }

  /** A budget that is not active has nothing below it and is charged nothing. */
  lemma InactiveUnused(cfg: Config, s: Store, x: Id, r: Rid)
    requires Off(cfg) && Shaped(s) && Sourced(s) && x in s && !Active(s[x].status)
    ensures Usage(cfg, s, x, r) == 0
  {
    var pm := Budgets(s);
    var m := Below(cfg, pm, pm.Keys, None, x, r);
    OffFromAbove(cfg, s);
    forall id | id in s
      ensures Weight(m, s[id]) == 0
    {
      var n := s[id];
      assert DrawsFromAbove(cfg, pm, n) && Hangs(s, n);
      if Counted(m, n) {
        ChainActive(s, n.parent.value);
        NothingFromOutside(pm, n, x, r);
      }
    }
    TotalZero(s, m);
  }
}
