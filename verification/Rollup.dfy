/** The usage rollup as it is computed: saturating 64-bit sums, and for every project a climb from
    its budget, and from each budget it draws from, to the top of what is tracked
    (internal/core/tree/calc_rollup.go, UsageByStatus.Total in internal/core/model/model.go). */
module Rollup {
  import opened Model
  import opened Chains
  import opened Charges
  import opened Rules
  import opened Nodes

  // ── 64-bit arithmetic ───────────────────────────────────────────────────────

  const WIDTH: int := 0x1_0000_0000_0000_0000

  predicate InRange(x: int) {
    MIN_INT <= x <= MAX_INT
  }

  /** What a 64-bit register holds of x. */
  function Wrapped(x: int): int {
    (x - MIN_INT) % WIDTH + MIN_INT
  }

  /** The sum, or None where it runs past the range: the sign of the wrapped sum gives it away. */
  function AddInts(a: int, b: int): Option<int> {
    var sum := Wrapped(a + b);
    if (b > 0 && sum < a) || (b < 0 && sum > a) then None else Some(sum)
  }

  function Saturate(a: int): int {
    if a < 0 then MIN_INT else MAX_INT
  }

  lemma AddIntsExact(a: int, b: int)
    requires InRange(a) && InRange(b)
    ensures AddInts(a, b).Some? <==> InRange(a + b)
    ensures AddInts(a, b).Some? ==> AddInts(a, b).value == a + b
    ensures AddInts(a, b).None? ==> Saturate(a) == Saturated(a + b)
  {
    if a + b > MAX_INT {
      assert Wrapped(a + b) == a + b - WIDTH;
    } else if a + b < MIN_INT {
      assert Wrapped(a + b) == a + b + WIDTH;
    } else {
      assert Wrapped(a + b) == a + b;
    }
  }

  /** Adding resource by resource, an overflow staying at the end of the range. */
  method QuotaAdd(a: Quota, b: Quota, ids: seq<Rid>) returns (out: Quota)
    requires forall r :: r in ids ==> InRange(Q(a, r)) && InRange(Q(b, r))
    ensures forall r :: r in ids ==> Q(out, r) == Saturated(Q(a, r) + Q(b, r))
    ensures forall r :: r !in ids ==> Q(out, r) == Q(a, r)
  {
    out := a;
    for i := 0 to |ids|
      invariant forall r :: Q(out, r) == if r in ids[..i] then Saturated(Q(a, r) + Q(b, r)) else Q(a, r)
    {
      var sum := AddInts(Q(a, ids[i]), Q(b, ids[i]));
      AddIntsExact(Q(a, ids[i]), Q(b, ids[i]));
      out := out[ids[i] := if sum.Some? then sum.value else Saturate(Q(a, ids[i]))];
    }
  }

  /** The same for a decision: an overflow is an error, never a sum that wrapped around. */
  method QuotaAddChecked(a: Quota, b: Quota, ids: seq<Rid>) returns (out: Option<Quota>)
    requires forall r :: r in ids ==> InRange(Q(a, r)) && InRange(Q(b, r))
    ensures out.Some? <==> forall r :: r in ids ==> InRange(Q(a, r) + Q(b, r))
    ensures out.Some? ==> forall r :: r in ids ==> Q(out.value, r) == Q(a, r) + Q(b, r)
  {
    var sums := a;
    for i := 0 to |ids|
      invariant forall r :: r in ids[..i] ==> InRange(Q(a, r) + Q(b, r)) && Q(sums, r) == Q(a, r) + Q(b, r)
    {
      var sum := AddInts(Q(a, ids[i]), Q(b, ids[i]));
      AddIntsExact(Q(a, ids[i]), Q(b, ids[i]));
      if sum.None? { return None; }
      sums := sums[ids[i] := sum.value];
    }
    return Some(sums);
  }

  /** The first resource of which more is needed than the limit has; None where everything fits. */
  method Shortfall(need: Quota, limit: Quota, ids: seq<Rid>) returns (short: Option<Rid>)
    ensures short.None? <==> forall r :: r in ids ==> Fits(Q(need, r), Q(limit, r))
    ensures short.Some? ==> short.value in ids && !Fits(Q(need, short.value), Q(limit, short.value))
  {
    for i := 0 to |ids|
      invariant forall j :: 0 <= j < i ==> Fits(Q(need, ids[j]), Q(limit, ids[j]))
    {
      if Q(limit, ids[i]) != UNLIMITED && Q(need, ids[i]) > Q(limit, ids[i]) {
        return Some(ids[i]);
      }
    }
    return None;
  }

  // ── The climb ───────────────────────────────────────────────────────────────

  type Usages = map<Id, map<Status, Quota>>

  function Charged(u: Usages, b: Id, st: Status, r: Rid): int {
    if b in u && st in u[b] then Q(u[b][st], r) else 0
  }

  /** The tracked budgets: with any budget all those below it. */
  ghost predicate Tracks(pm: Parents, tracked: Parents) {
    && (forall b :: b in tracked ==> b in pm && tracked[b] == pm[b])
    && (forall b, d {:trigger d in Chain(pm, b), b in tracked} :: d in tracked && d in Chain(pm, b) ==> b in tracked)
  }

  ghost predicate InRangeUsages(u: Usages, ids: seq<Rid>) {
    forall b, st, r :: r in ids ==> 0 <= Charged(u, b, st, r) <= MAX_INT
  }

  /** out is u with amount added, for one status, at the budgets of `at`. */
  ghost predicate ChargedAt(at: iset<Id>, ids: seq<Rid>, u: Usages, st: Status, amount: Quota, out: Usages) {
    forall b, t, r :: r in ids ==>
      Charged(out, b, t, r)
      == if t == st && b in at then Saturated(Charged(u, b, t, r) + Q(amount, r)) else Charged(u, b, t, r)
  }

  function EntryAt(u: Usages, b: Id, st: Status): Quota {
    if b in u && st in u[b] then u[b][st] else map[]
  }

  function WithEntry(u: Usages, b: Id, st: Status, entry: Quota): Usages {
    u[b := (if b in u then u[b] else map[])[st := entry]]
  }

  /** One step of the climb. */
  method ChargeOne(ids: seq<Rid>, u: Usages, b: Id, st: Status, amount: Quota) returns (out: Usages)
    requires InRangeUsages(u, ids) && forall r :: r in ids ==> 0 <= Q(amount, r) <= MAX_INT
    ensures InRangeUsages(out, ids) && ChargedAt(iset{b}, ids, u, st, amount, out)
  {
    var entry := EntryAt(u, b, st);
    assert forall r :: Q(entry, r) == Charged(u, b, st, r);
    entry := QuotaAdd(entry, amount, ids);
    out := WithEntry(u, b, st, entry);
    EntryCharged(ids, u, b, st, amount, entry);
  }

  lemma EntryCharged(ids: seq<Rid>, u: Usages, b: Id, st: Status, amount: Quota, entry: Quota)
    requires InRangeUsages(u, ids) && forall r :: r in ids ==> 0 <= Q(amount, r) <= MAX_INT
    requires forall r :: r in ids ==> Q(entry, r) == Saturated(Charged(u, b, st, r) + Q(amount, r))
    ensures InRangeUsages(WithEntry(u, b, st, entry), ids)
    ensures ChargedAt(iset{b}, ids, u, st, amount, WithEntry(u, b, st, entry))
  {
    forall d, t, r
      ensures Charged(WithEntry(u, b, st, entry), d, t, r)
              == if d == b && t == st then Q(entry, r) else Charged(u, d, t, r)
    {
      EntryPut(u, b, st, entry, d, t, r);
    }
  }

  lemma EntryPut(u: Usages, b: Id, st: Status, entry: Quota, d: Id, t: Status, r: Rid)
    ensures Charged(WithEntry(u, b, st, entry), d, t, r)
            == if d == b && t == st then Q(entry, r) else Charged(u, d, t, r)
  {
  }

  lemma ChargedNext(at: iset<Id>, b: Id, ids: seq<Rid>, u: Usages, st: Status, amount: Quota, mid: Usages, out: Usages)
    requires b !in at && ChargedAt(at, ids, u, st, amount, mid) && ChargedAt(iset{b}, ids, mid, st, amount, out)
    ensures ChargedAt(at + iset{b}, ids, u, st, amount, out)
  {
  }

  /** The tracked budgets of the chain from a budget upward: what a charge from there reaches. */
  ghost function Reached(pm: Parents, tracked: Parents, from: Id): iset<Id> {
    iset b | b in tracked && b in Chain(pm, from)
  }

  ghost function FirstOf(c: seq<Id>, k: nat): iset<Id> {
    iset i | 0 <= i < k && i < |c| :: c[i]
  }

  /** The climb has no guard of its own: that the budgets form a tree is what ends it. */
  method Charge(ghost pm: Parents, tracked: Parents, ids: seq<Rid>, u: Usages, from: Id, st: Status, amount: Quota)
    returns (out: Usages)
    requires Tree(pm) && Tracks(pm, tracked) && InRangeUsages(u, ids)
    requires forall r :: r in ids ==> 0 <= Q(amount, r) <= MAX_INT
    ensures InRangeUsages(out, ids) && ChargedAt(Reached(pm, tracked, from), ids, u, st, amount, out)
  {
    out := u;
    var current := from;
    ghost var chain, k := Chain(pm, from), 0;
    if from in tracked { ChainOk(pm, from); }
    while current in tracked
      invariant from in tracked ==> IsChain(pm, chain) && k < |chain| && current == chain[k]
      invariant from !in tracked ==> k == 0 && current == from
      invariant k <= |chain| && forall i :: 0 <= i < k ==> chain[i] in tracked
      invariant InRangeUsages(out, ids) && ChargedAt(FirstOf(chain, k), ids, u, st, amount, out)
      decreases |chain| - k
    {
      ghost var before := out;
      out := ChargeOne(ids, out, current, st, amount);
      NotBefore(pm, from, k);
      ChargedNext(FirstOf(chain, k), current, ids, u, st, amount, before, out);
      assert FirstOf(chain, k) + iset{current} == FirstOf(chain, k + 1);
      ChainLink(pm, from, k);
      var parent := tracked[current];
      if parent.None? {
        AllReached(pm, tracked, from, |chain|);
        return;
      }
      current := parent.value;
      k := k + 1;
    }
    AllReached(pm, tracked, from, k);
  }

  lemma NotBefore(pm: Parents, from: Id, k: nat)
    requires k < |Chain(pm, from)|
    ensures Chain(pm, from)[k] !in FirstOf(Chain(pm, from), k)
  {
    forall i | 0 <= i < k ensures Chain(pm, from)[i] != Chain(pm, from)[k] {
      ChainDistinct(pm, from, i, k);
    }
  }

  lemma ChainLink(pm: Parents, b: Id, k: nat)
    requires k < |Chain(pm, b)|
    ensures IsChain(pm, Chain(pm, b))
    ensures pm[Chain(pm, b)[k]] == if k + 1 < |Chain(pm, b)| then Some(Chain(pm, b)[k + 1]) else None
  {
  }

  /** Where the climb leaves what is tracked, nothing further up is tracked. */
  lemma AllReached(pm: Parents, tracked: Parents, from: Id, k: nat)
    requires Tracks(pm, tracked) && k <= |Chain(pm, from)|
    requires forall i :: 0 <= i < k ==> Chain(pm, from)[i] in tracked
    requires k < |Chain(pm, from)| ==> Chain(pm, from)[k] !in tracked
    ensures FirstOf(Chain(pm, from), k) == Reached(pm, tracked, from)
  {
    var c := Chain(pm, from);
    forall i | k <= i < |c| ensures c[i] !in tracked {
      ChainSuffix(pm, from, k);
      assert c[i] == c[k..][i - k];
      assert c[i] in Chain(pm, c[k]);
    }
  }

  // ── All projects ────────────────────────────────────────────────────────────

  /** The costs of a project fit 64 bits and lower nothing. */
  predicate Billable(cfg: Config, n: Node) {
    forall r :: r in cfg.counts ==>
      0 <= OwnCost(cfg, n, r) <= MAX_INT && forall a :: a in n.allocations ==> 0 <= Q(a.limit, r) <= MAX_INT
  }

  /** What a project costs its own budget, and whether its allocations are charged to theirs. */
  method LeafCost(cfg: Config, n: Node) returns (own: Quota, withAllocations: bool)
    ensures withAllocations <==> n.status != Archived
    ensures forall r :: r in cfg.counts ==> Q(own, r) == OwnCost(cfg, n, r)
  {
    if n.status == Archived {
      own := map[];
      for i := 0 to |cfg.counts|
        invariant forall r :: Q(own, r) == if r in cfg.counts[..i] then OwnCost(cfg, n, r) else 0
      {
        var r := cfg.counts[i];
        assert cfg.counts[..i + 1] == cfg.counts[..i] + [r];
        if r in cfg.storage {
          if r in n.side.inUse {
            own := own[r := n.side.inUse[r]];
          } else if Q(n.limit, r) > 0 {
            own := own[r := Q(n.limit, r)];
          }
        }
      }
      return own, false;
    }
    if !cfg.acc.chargeInUse {
      return n.limit, true;
    }
    own := map[];
    for i := 0 to |cfg.counts|
      invariant forall r :: r in cfg.counts[..i] ==> Q(own, r) == OwnCost(cfg, n, r)
    {
      var r := cfg.counts[i];
      var limit, total := Q(n.limit, r), EffectiveLimit(n, r);
      own := own[r := limit];
      if total != UNLIMITED && r in n.side.inUse && n.side.inUse[r] > total {
        own := own[r := limit + n.side.inUse[r] - total];
      }
    }
    return own, true;
  }

  /** What project n costs budget b of r, all of it: Weight without the filter. */
  ghost function Cost(cfg: Config, pm: Parents, n: Node, b: Id, r: Rid): int {
    if n.parent.None? then 0
    else CostUpTo(cfg, pm, n, if n.status == Archived then 0 else |n.allocations|, b, r)
  }

  /** The own cost and that of the first k allocations. */
  ghost function CostUpTo(cfg: Config, pm: Parents, n: Node, k: nat, b: Id, r: Rid): int
    requires k <= |n.allocations| && n.parent.Some?
  {
    (if b in Chain(pm, n.parent.value) then OwnCost(cfg, n, r) else 0) + AllocationCharge(pm, n.allocations[..k], b, r)
  }

  /** What the projects of es in status st cost budget b of r. */
  ghost function LeafSum(cfg: Config, pm: Parents, es: seq<Entry>, st: Status, b: Id, r: Rid): int {
    if es == [] then 0
    else
      var n := es[|es| - 1].node;
      LeafSum(cfg, pm, es[..|es| - 1], st, b, r) + (if n.status == st then Cost(cfg, pm, n, b, r) else 0)
  }

  lemma {:induction false} LeafSumNonNegative(cfg: Config, pm: Parents, es: seq<Entry>, st: Status, b: Id, r: Rid)
    requires r in cfg.counts && forall e :: e in es ==> Billable(cfg, e.node)
    ensures LeafSum(cfg, pm, es, st, b, r) >= 0
  {
    if es != [] {
      var n := es[|es| - 1].node;
      assert es[|es| - 1] in es;
      LeafSumNonNegative(cfg, pm, es[..|es| - 1], st, b, r);
      if n.parent.Some? {
        CostNonNegative(cfg, pm, n, if n.status == Archived then 0 else |n.allocations|, b, r);
      }
    }
  }

  lemma CostNonNegative(cfg: Config, pm: Parents, n: Node, k: nat, b: Id, r: Rid)
    requires Billable(cfg, n) && r in cfg.counts && k <= |n.allocations| && n.parent.Some?
    ensures CostUpTo(cfg, pm, n, k, b, r) >= 0
  {
    AllocationChargeNonNegative(pm, n.allocations[..k], b, r);
  }

  ghost function CostSoFar(cfg: Config, pm: Parents, es: seq<Entry>, n: Node, k: nat, st: Status, b: Id, r: Rid): int
    requires k <= |n.allocations| && n.parent.Some?
  {
    LeafSum(cfg, pm, es, st, b, r) + (if st == n.status then CostUpTo(cfg, pm, n, k, b, r) else 0)
  }

  /** u holds, saturated, what es cost and the own cost and first k allocations of n. */
  ghost predicate RolledUp(cfg: Config, pm: Parents, tracked: Parents, es: seq<Entry>, n: Node, k: nat, u: Usages)
    requires k <= |n.allocations| && n.parent.Some?
  {
    forall b, t, r :: b in tracked && r in cfg.counts ==>
      Charged(u, b, t, r) == Saturated(CostSoFar(cfg, pm, es, n, k, t, b, r))
  }

  ghost predicate AllRolledUp(cfg: Config, pm: Parents, tracked: Parents, es: seq<Entry>, u: Usages) {
    forall b, t, r :: b in tracked && r in cfg.counts ==>
      Charged(u, b, t, r) == Saturated(LeafSum(cfg, pm, es, t, b, r))
  }

  lemma OwnRolledUp(cfg: Config, pm: Parents, tracked: Parents, es: seq<Entry>, n: Node, u: Usages, own: Quota,
                    out: Usages)
    requires n.parent.Some? && Billable(cfg, n) && forall e :: e in es ==> Billable(cfg, e.node)
    requires forall r :: r in cfg.counts ==> Q(own, r) == OwnCost(cfg, n, r)
    requires AllRolledUp(cfg, pm, tracked, es, u)
    requires ChargedAt(Reached(pm, tracked, n.parent.value), cfg.counts, u, n.status, own, out)
    ensures RolledUp(cfg, pm, tracked, es, n, 0, out)
  {
    forall b, t, r | b in tracked && r in cfg.counts
      ensures Charged(out, b, t, r) == Saturated(CostSoFar(cfg, pm, es, n, 0, t, b, r))
    {
      LeafSumNonNegative(cfg, pm, es, t, b, r);
      assert Charged(u, b, t, r) == Saturated(LeafSum(cfg, pm, es, t, b, r));
    }
  }

  lemma AllocationRolledUp(cfg: Config, pm: Parents, tracked: Parents, es: seq<Entry>, n: Node, k: nat, u: Usages,
                           out: Usages)
    requires n.parent.Some? && k < |n.allocations|
    requires Billable(cfg, n) && forall e :: e in es ==> Billable(cfg, e.node)
    requires RolledUp(cfg, pm, tracked, es, n, k, u)
    requires ChargedAt(Reached(pm, tracked, n.allocations[k].budget), cfg.counts, u, n.status,
        n.allocations[k].limit, out)
    ensures RolledUp(cfg, pm, tracked, es, n, k + 1, out)
  {
    var a := n.allocations[k];
    assert a in n.allocations;
    forall b, t, r | b in tracked && r in cfg.counts
      ensures Charged(out, b, t, r) == Saturated(CostSoFar(cfg, pm, es, n, k + 1, t, b, r))
    {
      CostGrows(cfg, pm, es, n, k, t, b, r);
      assert Charged(u, b, t, r) == Saturated(CostSoFar(cfg, pm, es, n, k, t, b, r));
    }
  }

  lemma CostGrows(cfg: Config, pm: Parents, es: seq<Entry>, n: Node, k: nat, t: Status, b: Id, r: Rid)
    requires n.parent.Some? && k < |n.allocations| && r in cfg.counts
    requires Billable(cfg, n) && forall e :: e in es ==> Billable(cfg, e.node)
    ensures CostSoFar(cfg, pm, es, n, k, t, b, r) >= 0 && Q(n.allocations[k].limit, r) >= 0
    ensures CostSoFar(cfg, pm, es, n, k + 1, t, b, r)
            == CostSoFar(cfg, pm, es, n, k, t, b, r)
               + (if t == n.status && b in Chain(pm, n.allocations[k].budget) then Q(n.allocations[k].limit, r) else 0)
  {
    assert n.allocations[k] in n.allocations;
    LeafSumNonNegative(cfg, pm, es, t, b, r);
    CostNonNegative(cfg, pm, n, k, b, r);
    CostStep(cfg, pm, n, k, b, r);
  }

  lemma CostStep(cfg: Config, pm: Parents, n: Node, k: nat, b: Id, r: Rid)
    requires n.parent.Some? && k < |n.allocations|
    ensures CostUpTo(cfg, pm, n, k + 1, b, r)
            == CostUpTo(cfg, pm, n, k, b, r)
               + (if b in Chain(pm, n.allocations[k].budget) then Q(n.allocations[k].limit, r) else 0)
  {
    assert n.allocations[..k + 1][..k] == n.allocations[..k];
  }

  lemma LeafRolledUp(cfg: Config, pm: Parents, tracked: Parents, es: seq<Entry>, e: Entry, u: Usages)
    requires e.node.parent.Some?
    requires RolledUp(cfg, pm, tracked, es, e.node, if e.node.status == Archived then 0 else |e.node.allocations|, u)
    ensures AllRolledUp(cfg, pm, tracked, es + [e], u)
  {
    assert (es + [e])[..|es|] == es;
  }

  /** Every tracked budget gets, for each status, the saturated sum of what the projects cost it. */
  method BuildRolledUpUsage(cfg: Config, ghost pm: Parents, leaves: seq<Entry>, tracked: Parents) returns (u: Usages)
    requires Tree(pm) && Tracks(pm, tracked) && forall e :: e in leaves ==> Billable(cfg, e.node)
    ensures InRangeUsages(u, cfg.counts) && AllRolledUp(cfg, pm, tracked, leaves, u)
  {
    u := map[];
    for i := 0 to |leaves|
      invariant InRangeUsages(u, cfg.counts) && AllRolledUp(cfg, pm, tracked, leaves[..i], u)
    {
      var leaf := leaves[i].node;
      assert leaves[i] in leaves && leaves[..i + 1] == leaves[..i] + [leaves[i]];
      if leaf.parent.Some? {
        ghost var before := u;
        var own, withAllocations := LeafCost(cfg, leaf);
        u := Charge(pm, tracked, cfg.counts, u, leaf.parent.value, leaf.status, own);
        OwnRolledUp(cfg, pm, tracked, leaves[..i], leaf, before, own, u);
        if withAllocations {
          u := ChargeAllocations(cfg, pm, tracked, leaves[..i], leaf, u);
        }
        LeafRolledUp(cfg, pm, tracked, leaves[..i], leaves[i], u);
      } else {
        assert leaves[..i + 1][..i] == leaves[..i];
      }
    }
    assert leaves[..|leaves|] == leaves;
  }

  method ChargeAllocations(cfg: Config, ghost pm: Parents, tracked: Parents, ghost es: seq<Entry>, leaf: Node,
                           start: Usages)
    returns (u: Usages)
    requires Tree(pm) && Tracks(pm, tracked) && leaf.parent.Some?
    requires Billable(cfg, leaf) && forall e :: e in es ==> Billable(cfg, e.node)
    requires InRangeUsages(start, cfg.counts) && RolledUp(cfg, pm, tracked, es, leaf, 0, start)
    ensures InRangeUsages(u, cfg.counts) && RolledUp(cfg, pm, tracked, es, leaf, |leaf.allocations|, u)
  {
    u := start;
    for k := 0 to |leaf.allocations|
      invariant InRangeUsages(u, cfg.counts) && RolledUp(cfg, pm, tracked, es, leaf, k, u)
    {
      ghost var before := u;
      var a := leaf.allocations[k];
      u := Charge(pm, tracked, cfg.counts, u, a.budget, leaf.status, a.limit);
      AllocationRolledUp(cfg, pm, tracked, es, leaf, k, before, u);
    }
  }

  // ── One number a budget ─────────────────────────────────────────────────────

  const STATUSES: seq<Status> := [Pending, Approved, ChangePending, Rejected, Released, Archived, Imported]

  function StatusSum(byStatus: map<Status, Quota>, k: nat, r: Rid): int
    requires k <= |STATUSES|
  {
    if k == 0 then 0
    else StatusSum(byStatus, k - 1, r) + (if STATUSES[k - 1] in byStatus then Q(byStatus[STATUSES[k - 1]], r) else 0)
  }

  lemma {:induction false} StatusSumNonNegative(byStatus: map<Status, Quota>, k: nat, r: Rid)
    requires k <= |STATUSES| && forall st :: st in byStatus ==> Q(byStatus[st], r) >= 0
    ensures StatusSum(byStatus, k, r) >= 0
  {
    if k > 0 { StatusSumNonNegative(byStatus, k - 1, r); }
  }

  /** All statuses together. */
  method TotalOf(byStatus: map<Status, Quota>, ids: seq<Rid>) returns (out: Quota)
    requires forall st, r :: st in byStatus && r in ids ==> 0 <= Q(byStatus[st], r) <= MAX_INT
    ensures forall r :: r in ids ==> Q(out, r) == Saturated(StatusSum(byStatus, |STATUSES|, r))
  {
    out := map[];
    for k := 0 to |STATUSES|
      invariant forall r :: r in ids ==> Q(out, r) == Saturated(StatusSum(byStatus, k, r))
    {
      var st := STATUSES[k];
      forall r | r in ids ensures StatusSum(byStatus, k, r) >= 0 { StatusSumNonNegative(byStatus, k, r); }
      if st in byStatus {
        out := QuotaAdd(out, byStatus[st], ids);
      }
    }
  }

  /** What all of es cost budget b of r, whatever their status. */
  ghost function AllLeafSum(cfg: Config, pm: Parents, es: seq<Entry>, b: Id, r: Rid): int {
    if es == [] then 0
    else AllLeafSum(cfg, pm, es[..|es| - 1], b, r) + Cost(cfg, pm, es[|es| - 1].node, b, r)
  }

  ghost function ExactSum(cfg: Config, pm: Parents, es: seq<Entry>, k: nat, b: Id, r: Rid): int
    requires k <= |STATUSES|
  {
    if k == 0 then 0 else ExactSum(cfg, pm, es, k - 1, b, r) + LeafSum(cfg, pm, es, STATUSES[k - 1], b, r)
  }

  lemma {:induction false} ExactSumNone(cfg: Config, pm: Parents, k: nat, b: Id, r: Rid)
    requires k <= |STATUSES|
    ensures ExactSum(cfg, pm, [], k, b, r) == 0
  {
    if k > 0 { ExactSumNone(cfg, pm, k - 1, b, r); }
  }

  lemma {:induction false} ExactSumStep(cfg: Config, pm: Parents, es: seq<Entry>, k: nat, b: Id, r: Rid)
    requires k <= |STATUSES| && es != []
    ensures ExactSum(cfg, pm, es, k, b, r)
            == ExactSum(cfg, pm, es[..|es| - 1], k, b, r)
               + (if es[|es| - 1].node.status in STATUSES[..k] then Cost(cfg, pm, es[|es| - 1].node, b, r) else 0)
  {
    if k > 0 {
      ExactSumStep(cfg, pm, es, k - 1, b, r);
      assert STATUSES[..k] == STATUSES[..k - 1] + [STATUSES[k - 1]];
      assert STATUSES[k - 1] !in STATUSES[..k - 1];
    }
  }

  /** No project is lost or counted twice by going status by status. */
  lemma {:induction false} EveryStatusOnce(cfg: Config, pm: Parents, es: seq<Entry>, b: Id, r: Rid)
    ensures ExactSum(cfg, pm, es, |STATUSES|, b, r) == AllLeafSum(cfg, pm, es, b, r)
  {
    if es == [] {
      ExactSumNone(cfg, pm, |STATUSES|, b, r);
    } else {
      EveryStatusOnce(cfg, pm, es[..|es| - 1], b, r);
      ExactSumStep(cfg, pm, es, |STATUSES|, b, r);
      assert STATUSES[..|STATUSES|] == STATUSES;
      var st := es[|es| - 1].node.status;
      assert st == STATUSES[0] || st == STATUSES[1] || st == STATUSES[2] || st == STATUSES[3]
          || st == STATUSES[4] || st == STATUSES[5] || st == STATUSES[6];
    }
  }

  function ByStatus(u: Usages, b: Id): map<Status, Quota> {
    if b in u then u[b] else map[]
  }

  /** Saturating status by status and then once more loses nothing against saturating once. */
  lemma {:induction false} StatusesSaturate(cfg: Config, pm: Parents, tracked: Parents, es: seq<Entry>, u: Usages,
                                            k: nat, b: Id, r: Rid)
    requires k <= |STATUSES| && b in tracked && r in cfg.counts
    requires AllRolledUp(cfg, pm, tracked, es, u) && forall e :: e in es ==> Billable(cfg, e.node)
    ensures ExactSum(cfg, pm, es, k, b, r) >= 0 && StatusSum(ByStatus(u, b), k, r) >= 0
    ensures Saturated(StatusSum(ByStatus(u, b), k, r)) == Saturated(ExactSum(cfg, pm, es, k, b, r))
  {
    if k > 0 {
      StatusesSaturate(cfg, pm, tracked, es, u, k - 1, b, r);
      LeafSumNonNegative(cfg, pm, es, STATUSES[k - 1], b, r);
      assert Charged(u, b, STATUSES[k - 1], r) == Saturated(LeafSum(cfg, pm, es, STATUSES[k - 1], b, r));
    }
  }

  function ChargedStatuses(acc: Accounting): set<Status> {
    {Approved, ChangePending} + (if acc.chargeReleased then {Released} else {})
    + if acc.chargeArchived then {Archived} else {}
  }

  function ChargedUnder(cfg: Config, budgets: set<Id>): Query {
    Query(None, Some(budgets), Some(Project), Some(ChargedStatuses(cfg.acc)), None, None)
  }

  /** The listed projects cost what the store says, the others cost nothing. */
  lemma {:induction false} ListedCost(cfg: Config, s: Store, pm: Parents, tracked: set<Id>, es: seq<Entry>, b: Id,
                                      r: Rid)
    requires Lists(s, ChargedUnder(cfg, tracked), es)
    ensures AllLeafSum(cfg, pm, es, b, r) == Total(s, Below(cfg, pm, tracked, None, b, r))
    decreases |es|
  {
    var m := Below(cfg, pm, tracked, None, b, r);
    if es == [] {
      forall id | id in s ensures Weight(m, s[id]) == 0 {
        ListedWeight(cfg, pm, tracked, id, s[id], b, r);
      }
      TotalZero(s, m);
    } else {
      var e := es[|es| - 1];
      assert e in es;
      ListedWithout(s, ChargedUnder(cfg, tracked), es);
      ListedCost(cfg, s - {e.id}, pm, tracked, es[..|es| - 1], b, r);
      TotalSplit(s, m, e.id);
      ListedWeight(cfg, pm, tracked, e.id, e.node, b, r);
    }
  }

  lemma ListedWeight(cfg: Config, pm: Parents, tracked: set<Id>, id: Id, n: Node, b: Id, r: Rid)
    ensures Weight(Below(cfg, pm, tracked, None, b, r), n)
            == if Matches(id, n, ChargedUnder(cfg, tracked)) then Cost(cfg, pm, n, b, r) else 0
  {
    assert n.allocations[..|n.allocations|] == n.allocations;
  }

  /** What the projects of es cost their own budget of r. */
  function OwnSum(cfg: Config, es: seq<Entry>, r: Rid): int {
    if es == [] then 0 else OwnSum(cfg, es[..|es| - 1], r) + OwnCost(cfg, es[|es| - 1].node, r)
  }

  function ChargedOf(cfg: Config, b: Id, owner: Token): Query {
    Query(None, Some({b}), Some(Project), Some(ChargedStatuses(cfg.acc)), Some(owner), None)
  }

  /** The listed projects of an owner cost what the store says they do. */
  lemma {:induction false} ListedOwned(cfg: Config, s: Store, es: seq<Entry>, b: Id, owner: Token, r: Rid)
    requires Lists(s, ChargedOf(cfg, b, owner), es)
    ensures OwnSum(cfg, es, r) == OwnerUsage(cfg, s, b, owner, r)
    decreases |es|
  {
    var m := Owned(cfg, owner, b, r);
    if es == [] {
      forall id | id in s ensures Weight(m, s[id]) == 0 {
        OwnedWeight(cfg, id, s[id], b, owner, r);
      }
      TotalZero(s, m);
    } else {
      var e := es[|es| - 1];
      assert e in es;
      ListedWithout(s, ChargedOf(cfg, b, owner), es);
      ListedOwned(cfg, s - {e.id}, es[..|es| - 1], b, owner, r);
      TotalSplit(s, m, e.id);
      OwnedWeight(cfg, e.id, e.node, b, owner, r);
    }
  }

  lemma OwnedWeight(cfg: Config, id: Id, n: Node, b: Id, owner: Token, r: Rid)
    ensures Weight(Owned(cfg, owner, b, r), n)
            == if Matches(id, n, ChargedOf(cfg, b, owner)) then OwnCost(cfg, n, r) else 0
  {
  }

  lemma ListedWithout(s: Store, q: Query, es: seq<Entry>)
    requires Lists(s, q, es) && es != []
    ensures Lists(s - {es[|es| - 1].id}, q, es[..|es| - 1])
  {
    var e, rest := es[|es| - 1], es[..|es| - 1];
    assert es == rest + [e];
    forall i | 0 <= i < |rest| ensures rest[i].id != e.id { assert es[i].id != es[|es| - 1].id; }
  }

  /** The rollup refines its meaning: summed over the statuses it is, saturated once, what the
      projects under the tracked budgets cost the budget. */
  lemma RollupRefines(cfg: Config, s: Store, tracked: Parents, es: seq<Entry>, u: Usages, b: Id, r: Rid)
    requires Lists(s, ChargedUnder(cfg, tracked.Keys), es) && forall e :: e in es ==> Billable(cfg, e.node)
    requires AllRolledUp(cfg, Budgets(s), tracked, es, u) && b in tracked && r in cfg.counts
    ensures Saturated(StatusSum(ByStatus(u, b), |STATUSES|, r))
            == Saturated(Total(s, Below(cfg, Budgets(s), tracked.Keys, None, b, r)))
  {
    StatusesSaturate(cfg, Budgets(s), tracked, es, u, |STATUSES|, b, r);
    EveryStatusOnce(cfg, Budgets(s), es, b, r);
    ListedCost(cfg, s, Budgets(s), tracked.Keys, es, b, r);
  }
}
