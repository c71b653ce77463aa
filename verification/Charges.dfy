/** What a project costs which budget, and the sums of it over the store: the meaning of the
    rolled-up usage (internal/core/tree/calc_rollup.go). */
module Charges {
  import opened Model
  import opened Chains

  predicate ChargedStatus(acc: Accounting, st: Status) {
    Active(st) || (acc.chargeReleased && st == Released) || (acc.chargeArchived && st == Archived)
  }

  /** All a project draws of r by its allocations. */
  function AllocationsOf(allocs: seq<Allocation>, r: Rid): int {
    if allocs == [] then 0
    else AllocationsOf(allocs[..|allocs| - 1], r) + Q(allocs[|allocs| - 1].limit, r)
  }

  /** What a project holds of r in total. */
  function EffectiveLimit(n: Node, r: Rid): int {
    Q(n.limit, r) + AllocationsOf(n.allocations, r)
  }

  /** What a project costs its own budget of r. */
  function OwnCost(cfg: Config, n: Node, r: Rid): int {
    if n.status == Archived then
      if r !in cfg.storage then 0
      else if r in n.side.inUse then n.side.inUse[r]
      else if Q(n.limit, r) > 0 then Q(n.limit, r) else 0
    else if cfg.acc.chargeInUse && EffectiveLimit(n, r) != UNLIMITED
         && r in n.side.inUse && n.side.inUse[r] > EffectiveLimit(n, r)
    then Q(n.limit, r) + n.side.inUse[r] - EffectiveLimit(n, r)
    else Q(n.limit, r)
  }

  /** What allocs charge budget b of r: each is charged from its own budget upward. */
  ghost function AllocationCharge(pm: Parents, allocs: seq<Allocation>, b: Id, r: Rid): int {
    if allocs == [] then 0
    else
      var a := allocs[|allocs| - 1];
      AllocationCharge(pm, allocs[..|allocs| - 1], b, r)
      + (if b in Chain(pm, a.budget) then Q(a.limit, r) else 0)
  }

  /** A way to measure one node; Total sums it over a store.
      Below: what a charged project whose budget is tracked costs budget b of r, restricted to one
      status where only is given. Owned: what a charged project of owner directly under b costs it. */
  datatype Meter =
    | Below(cfg: Config, pm: Parents, tracked: set<Id>, only: Option<Status>, b: Id, r: Rid)
    | Owned(cfg: Config, owner: Token, b: Id, r: Rid)

  ghost predicate Counted(m: Meter, n: Node) {
    && n.kind == Project && n.parent.Some? && ChargedStatus(m.cfg.acc, n.status)
    && (m.Below? ==> n.parent.value in m.tracked && (m.only.None? || m.only.value == n.status))
    && (m.Owned? ==> n.parent.value == m.b && n.owner == m.owner)
  }

  ghost function Weight(m: Meter, n: Node): int {
    if !Counted(m, n) then 0
    else match m
      case Below(cfg, pm, _, _, b, r) =>
        (if b in Chain(pm, n.parent.value) then OwnCost(cfg, n, r) else 0)
        + (if n.status == Archived then 0 else AllocationCharge(pm, n.allocations, b, r))
      case Owned(cfg, _, _, r) => OwnCost(cfg, n, r)
  }

  ghost function Pick(s: Store): Id
    requires s != map[]
    ensures Pick(s) in s
  {
    var x :| x in s; x
  }

  ghost function Total(s: Store, m: Meter): int
    decreases |s|
  {
    if s == map[] then 0 else
      var x := Pick(s);
      assert (s - {x}).Keys == s.Keys - {x};
      Weight(m, s[x]) + Total(s - {x}, m)
  }

  /** What budget b is charged of r: the whole tree is looked at. */
  ghost function Usage(cfg: Config, s: Store, b: Id, r: Rid): int {
    Total(s, Below(cfg, Budgets(s), Budgets(s).Keys, None, b, r))
  }

  /** The budgets of the subtree of x. */
  ghost function Subtree(s: Store, x: Id): set<Id> {
    set b | b in Budgets(s) && x in Chain(Budgets(s), b)
  }

  /** What budget x is charged of r when only the projects of its own subtree are looked at. */
  ghost function LocalUsage(cfg: Config, s: Store, x: Id, r: Rid): int {
    Total(s, Below(cfg, Budgets(s), Subtree(s, x), None, x, r))
  }

  // ── Sums over a store ───────────────────────────────────────────────────────

  lemma {:induction false} TotalSplit(s: Store, m: Meter, x: Id)
    requires x in s
    ensures Total(s, m) == Weight(m, s[x]) + Total(s - {x}, m)
    decreases |s|
  {
    var y := Pick(s);
    if y != x {
      assert (s - {y}).Keys == s.Keys - {y} && (s - {x}).Keys == s.Keys - {x};
      TotalSplit(s - {y}, m, x);
      TotalSplit(s - {x}, m, y);
      assert s - {y} - {x} == s - {x} - {y};
    }
  }

  /** Writing one node changes a total by the difference of its weights. */
  lemma TotalPut(s: Store, m: Meter, x: Id, n: Node)
    ensures Total(s[x := n], m) == Total(s, m) + Weight(m, n) - (if x in s then Weight(m, s[x]) else 0)
  {
    TotalSplit(s[x := n], m, x);
    if x in s {
      TotalSplit(s, m, x);
      assert s[x := n] - {x} == s - {x};
    } else {
      assert s[x := n] - {x} == s;
    }
  }

  /** Stores whose nodes weigh the same have the same total. */
  lemma {:induction false} TotalSame(s: Store, m: Meter, t: Store, k: Meter)
    requires s.Keys == t.Keys
    requires forall x :: x in s ==> Weight(m, s[x]) == Weight(k, t[x])
    ensures Total(s, m) == Total(t, k)
    decreases |s|
  {
    if s != map[] {
      var x := Pick(s);
      assert x in t;
      TotalSplit(t, k, x);
      assert (s - {x}).Keys == s.Keys - {x} && (t - {x}).Keys == t.Keys - {x};
      TotalSame(s - {x}, m, t - {x}, k);
    } else {
      assert t.Keys == {};
      assert t == map[];
    }
  }

  /** Where every node weighs at most what two other meters say together, so does the total. */
  lemma {:induction false} TotalAtMost(t: Store, k: Meter, s: Store, m: Meter, m': Meter)
    requires s.Keys == t.Keys
    requires forall x :: x in s ==> Weight(k, t[x]) <= Weight(m, s[x]) + Weight(m', s[x])
    ensures Total(t, k) <= Total(s, m) + Total(s, m')
    decreases |s|
  {
    if s != map[] {
      var x := Pick(s);
      assert x in t;
      TotalSplit(t, k, x);
      TotalSplit(s, m', x);
      assert (s - {x}).Keys == s.Keys - {x} && (t - {x}).Keys == t.Keys - {x};
      TotalAtMost(t - {x}, k, s - {x}, m, m');
    } else {
      assert t.Keys == {};
      assert t == map[];
    }
  }

  /** Removing nodes that weigh nothing changes no total. */
  lemma {:induction false} TotalWithout(s: Store, m: Meter, gone: set<Id>)
    requires forall x :: x in s && x in gone ==> Weight(m, s[x]) == 0
    ensures Total(s - gone, m) == Total(s, m)
    decreases |gone|
  {
    if gone == {} {
      assert s - gone == s;
    } else {
      var x :| x in gone;
      TotalWithout(s, m, gone - {x});
      var t := s - (gone - {x});
      if x in t {
        TotalSplit(t, m, x);
        assert t - {x} == s - gone;
      } else {
        assert t == s - gone;
      }
    }
  }

  lemma {:induction false} TotalNonNegative(s: Store, m: Meter)
    requires forall x :: x in s ==> Weight(m, s[x]) >= 0
    ensures Total(s, m) >= 0
    decreases |s|
  {
    if s != map[] {
      var x := Pick(s);
      assert (s - {x}).Keys == s.Keys - {x};
      TotalNonNegative(s - {x}, m);
    }
  }

  lemma TotalZero(s: Store, m: Meter)
    requires forall x :: x in s ==> Weight(m, s[x]) == 0
    ensures Total(s, m) == 0
  {
    TotalWithout(s, m, s.Keys);
    assert s - s.Keys == map[];
  }

  // ── Allocations ─────────────────────────────────────────────────────────────

  /** Where the tree above every allocating budget is the same for b, so is what they charge it. */
  lemma {:induction false} AllocationChargeSame(pm: Parents, pn: Parents, allocs: seq<Allocation>, b: Id, r: Rid)
    requires forall a :: a in allocs ==> (b in Chain(pm, a.budget) <==> b in Chain(pn, a.budget))
    ensures AllocationCharge(pm, allocs, b, r) == AllocationCharge(pn, allocs, b, r)
  {
    if allocs != [] {
      assert allocs[|allocs| - 1] in allocs;
      AllocationChargeSame(pm, pn, allocs[..|allocs| - 1], b, r);
    }
  }

  lemma {:induction false} AllocationChargeNonNegative(pm: Parents, allocs: seq<Allocation>, b: Id, r: Rid)
    requires forall a :: a in allocs ==> Q(a.limit, r) >= 0
    ensures AllocationCharge(pm, allocs, b, r) >= 0
  {
    if allocs != [] {
      assert allocs[|allocs| - 1] in allocs;
      AllocationChargeNonNegative(pm, allocs[..|allocs| - 1], b, r);
    }
  }

  /** Nothing is charged to a budget that is above none of the allocating ones. */
  lemma {:induction false} AllocationChargeNone(pm: Parents, allocs: seq<Allocation>, b: Id, r: Rid)
    requires forall a :: a in allocs ==> b !in Chain(pm, a.budget)
    ensures AllocationCharge(pm, allocs, b, r) == 0
  {
    if allocs != [] {
      assert allocs[|allocs| - 1] in allocs;
      AllocationChargeNone(pm, allocs[..|allocs| - 1], b, r);
    }
  }
}
