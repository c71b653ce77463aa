/** What a budget grants on its own: default availabilities, and the share of each requester
    (internal/core/tree/rule_limits.go, rule_autoapprove.go). */
module Shares {
  import opened Model
  import opened Chains
  import opened Charges
  import opened Rules
  import opened Steps
  import opened Reports
  import opened Runs
  import opened Shape
  import opened Values
  import opened Sources
  import opened Lifetimes
  import opened Capacity
  import opened Safety
  import opened Reachable

  // ── Defaults ────────────────────────────────────────────────────────────────

  lemma DefaultsAsk(cfg: Config, s: Store, b: Id, q: Quota, area: string)
    requires cfg.Valid()
    ensures AsksIn(cfg, WithDefaults(cfg, s, b, q), area) <==> AsksIn(cfg, q, area)
  {
    forall r | r in cfg.counts ensures Q(WithDefaults(cfg, s, b, q), r) == Q(q, r) {
    }
  }

  /** Filling in the defaults a second time adds nothing. */
  lemma DefaultsIdempotent(cfg: Config, s: Store, b: Id, q: Quota)
    requires cfg.Valid()
    ensures WithDefaults(cfg, s, b, WithDefaults(cfg, s, b, q)) == WithDefaults(cfg, s, b, q)
  {
    var d := WithDefaults(cfg, s, b, q);
    forall r ensures !DefaultsTo1(cfg, s, b, d, r) {
      if DefaultsTo1(cfg, s, b, d, r) { DefaultsAsk(cfg, s, b, q, Area(cfg, r)); }
    }
  }

  /** What a request names stays as it was asked for, 0 included. */
  lemma DefaultsKeepNamed(cfg: Config, s: Store, b: Id, q: Quota, r: Rid)
    ensures r in q ==> r in WithDefaults(cfg, s, b, q) && WithDefaults(cfg, s, b, q)[r] == q[r]
  {
  }

  /** The availability check accepts a limit with the defaults filled in exactly if it accepts the limit. */
  lemma DefaultsHeld(cfg: Config, s: Store, b: Id, q: Quota)
    ensures HeldBy(cfg, s, b, WithDefaults(cfg, s, b, q)) <==> HeldBy(cfg, s, b, q)
  {
    var d := WithDefaults(cfg, s, b, q);
    if HeldBy(cfg, s, b, d) {
      forall r | r in cfg.bools && Q(q, r) == 1 ensures b == ROOT || (b in s && Holds1(s[b].limit, r)) {
        assert Q(d, r) == 1;
      }
    }
  }

  /** And so does the whole check of a new project's limit. */
  lemma DefaultsAccepted(cfg: Config, s: Store, chain: seq<Id>, b: Id, q: Quota)
    requires cfg.Valid() && Binding(s, chain) == Some(b)
    ensures LeafLimitOk(cfg, s, [], chain, WithDefaults(cfg, s, b, q)) <==> LeafLimitOk(cfg, s, [], chain, q)
  {
    var d := WithDefaults(cfg, s, b, q);
    DefaultsHeld(cfg, s, b, q);
    forall r ensures r in q ==> r in d && d[r] == q[r] {
      DefaultsKeepNamed(cfg, s, b, q, r);
    }
    assert ValidLeafLimit(cfg, d) ==> ValidLeafLimit(cfg, q);
    assert ValidLeafLimit(cfg, q) ==> ValidLeafLimit(cfg, d);
  }

  // ── Shares ──────────────────────────────────────────────────────────────────

  /** No requester's charged projects directly under b hold more than the share its policy sets. */
  ghost predicate Shared(cfg: Config, s: Store, b: Id) {
    b in s && (s[b].policy.auto.Some? && !IsPool(s[b].policy.auto) ==>
      forall owner, r :: r in cfg.counts ==> Fits(OwnerUsage(cfg, s, b, owner, r), Q(s[b].policy.auto.value, r)))
  }

  ghost predicate ProjectUnder(s: Store, id: Id, b: Id) {
    id in s && s[id].kind == Project && s[id].parent == Some(b)
  }

  /** An operation in which no manager grants anything to the requesters of b: no project is created, approved,
      moved or handed over there by one, and its share is not edited. Requesters may do whatever they are
      let. */
  ghost predicate Unaided(cfg: Config, s: Store, c: Caller, op: Op, b: Id)
    requires b in s
  {
    match op
    case OpCreate(_, req) => req.kind == Project && req.parent == b ==> !Manages(s, c.tokens, s[b])
    case OpUpdate(id, req) => id == b ==> req.auto.None? && !req.clearAuto
    case OpChange(_, _) => true
    case OpApprove(id, _) => !ProjectUnder(s, id, b)
    case OpReject(_) => true
    case OpRelease(_, _, _) => true
    case OpDelete(id) => b !in Closure(s, id)
    case OpMove(id, target) => target == b && id in s ==> s[id].kind == Budget
    case OpTransfer(id, _) => !ProjectUnder(s, id, b)
    case OpPromote(_, _) => true
    case OpAllocate(_, _, _) => true
    case OpRewrite(w) => s[b].policy.auto.Some? ==> !Touches(w, s[b].policy.auto.value)
    case OpGrantRoot(_) => true
    case OpReport(_) => !cfg.acc.chargeArchived
  }

  // ── Nodes that cost no more ─────────────────────────────────────────────────

  ghost function Cost(cfg: Config, n: Node, b: Id, owner: Token, r: Rid): int {
    Weight(Owned(cfg, owner, b, r), n)
  }

  /** n costs its owner at b no more than m did. */
  ghost predicate NoDearer(cfg: Config, b: Id, m: Node, n: Node) {
    forall owner, r :: r in cfg.counts ==> Cost(cfg, n, b, owner, r) <= Cost(cfg, m, b, owner, r)
  }

  ghost predicate Costless(cfg: Config, b: Id, n: Node) {
    forall owner, r :: r in cfg.counts ==> Cost(cfg, n, b, owner, r) <= 0
  }

  /** The policy of b is as it was, and nobody's projects under b cost more. */
  ghost predicate Spent(cfg: Config, b: Id, s: Store, t: Store) {
    && b in s && b in t && t[b].policy.auto == s[b].policy.auto
    && forall id {:trigger t[id]} ::
        id in t ==> if id in s then NoDearer(cfg, b, s[id], t[id]) else Costless(cfg, b, t[id])
  }

  lemma {:induction false} TotalDrops(s: Store, t: Store, m: Meter)
    requires forall x :: x in t ==> Weight(m, t[x]) <= if x in s then Weight(m, s[x]) else 0
    requires forall x :: x in s ==> Weight(m, s[x]) >= 0
    ensures Total(t, m) <= Total(s, m)
    decreases |t|
  {
    if t == map[] {
      TotalNonNegative(s, m);
    } else {
      var x := Pick(t);
      assert (t - {x}).Keys == t.Keys - {x};
      TotalDrops(s - {x}, t - {x}, m);
      if x in s { TotalSplit(s, m, x); } else { assert s - {x} == s; }
    }
  }

  lemma CostNonNegative(cfg: Config, n: Node, b: Id, owner: Token, r: Rid)
    requires !cfg.acc.chargeInUse && SaneNode(cfg, n) && r in cfg.counts
    ensures Cost(cfg, n, b, owner, r) >= 0
  {
  }

  lemma SpentShared(cfg: Config, b: Id, s: Store, t: Store)
    requires !cfg.acc.chargeInUse && Sane(cfg, s) && Shared(cfg, s, b) && Spent(cfg, b, s, t)
    ensures Shared(cfg, t, b)
  {
    forall owner, r | r in cfg.counts ensures OwnerUsage(cfg, t, b, owner, r) <= OwnerUsage(cfg, s, b, owner, r) {
      forall x | x in s ensures Cost(cfg, s[x], b, owner, r) >= 0 {
        assert SaneNode(cfg, s[x]);
        CostNonNegative(cfg, s[x], b, owner, r);
      }
      forall x | x in t
        ensures Weight(Owned(cfg, owner, b, r), t[x]) <= if x in s then Weight(Owned(cfg, owner, b, r), s[x]) else 0
      {
        assert x !in s ==> Cost(cfg, t[x], b, owner, r) <= 0;
        assert x in s ==> Cost(cfg, t[x], b, owner, r) <= Cost(cfg, s[x], b, owner, r);
      }
      TotalDrops(s, t, Owned(cfg, owner, b, r));
    }
  }

  /** The same project, as far as it costs its budget anything. */
  predicate SameCost(cfg: Config, m: Node, n: Node) {
    && n.kind == m.kind && n.parent == m.parent && n.owner == m.owner
    && (n.status == m.status || (Active(n.status) && Active(m.status)) || !ChargedStatus(cfg.acc, n.status))
    && (forall r :: r in cfg.counts ==> Q(n.limit, r) == Q(m.limit, r))
    && n.side.inUse == m.side.inUse
  }

  lemma SameCostNoDearer(cfg: Config, b: Id, m: Node, n: Node)
    requires !cfg.acc.chargeInUse && SaneNode(cfg, m) && SameCost(cfg, m, n)
    ensures NoDearer(cfg, b, m, n)
  {
    forall owner, r | r in cfg.counts ensures Cost(cfg, n, b, owner, r) <= Cost(cfg, m, b, owner, r) {
      CostNonNegative(cfg, m, b, owner, r);
    }
  }

  /** Not a project under b. */
  predicate Elsewhere(n: Node, b: Id) {
    n.kind == Budget || n.parent != Some(b)
  }

  lemma ElsewhereNoDearer(cfg: Config, b: Id, m: Node, n: Node)
    requires !cfg.acc.chargeInUse && SaneNode(cfg, m) && Elsewhere(n, b)
    ensures NoDearer(cfg, b, m, n) && Costless(cfg, b, n)
  {
    forall owner, r | r in cfg.counts ensures Cost(cfg, n, b, owner, r) <= Cost(cfg, m, b, owner, r) {
      CostNonNegative(cfg, m, b, owner, r);
    }
  }

  /** Every node costs what it did, and b has its policy. */
  lemma SpentSame(cfg: Config, b: Id, s: Store, t: Store)
    requires !cfg.acc.chargeInUse && Sane(cfg, s) && b in s && b in t && t[b].policy.auto == s[b].policy.auto
    requires forall id {:trigger t[id]} :: id in t ==> id in s && (SameCost(cfg, s[id], t[id]) || Elsewhere(t[id], b))
    ensures Spent(cfg, b, s, t)
  {
    forall id | id in t ensures NoDearer(cfg, b, s[id], t[id]) {
      assert SaneNode(cfg, s[id]);
      if SameCost(cfg, s[id], t[id]) { SameCostNoDearer(cfg, b, s[id], t[id]); }
      else { ElsewhereNoDearer(cfg, b, s[id], t[id]); }
    }
  }

  /** One node is written, costing no more at b, and perhaps cascades follow. */
  lemma SpentPut(cfg: Config, b: Id, s: Store, id: Id, n: Node, t: Store)
    requires !cfg.acc.chargeInUse && Sane(cfg, s) && b in s && id in s && OnlyBounds(Put(s, id, n), t)
    requires SameCost(cfg, s[id], n) || Elsewhere(n, b)
    requires id == b ==> n.policy.auto == s[b].policy.auto
    ensures Spent(cfg, b, s, t)
  {
    forall x | x in t ensures x in s && (SameCost(cfg, s[x], t[x]) || Elsewhere(t[x], b)) {
      assert SameButBounds(Put(s, id, n)[x], t[x]);
    }
    assert SameButBounds(Put(s, id, n)[b], t[b]);
    SpentSame(cfg, b, s, t);
  }

  // ── Operations that grant nothing at b ──────────────────────────────────────

  lemma SpentByUpdate(cfg: Config, b: Id, s: Store, c: Caller, id: Id, req: UpdateRequest)
    requires !cfg.acc.chargeInUse && Sane(cfg, s) && b in s && Update(cfg, s, c, id, req).Ok?
    requires Unaided(cfg, s, c, OpUpdate(id, req), b)
    ensures Spent(cfg, b, s, Update(cfg, s, c, id, req).value)
  {
    UpdateFacts(cfg, s, c, id, req);
    var e := Edited(s, s[id], Above(s, s[id]), req);
    EditedCost(cfg, s, id, req);
    OnlyBoundsCarriedDown(Put(s, id, e), id, req, c.now);
    SpentPut(cfg, b, s, id, e, CarriedDown(Put(s, id, e), id, req, c.now));
  }

  lemma EditedCost(cfg: Config, s: Store, id: Id, req: UpdateRequest)
    requires id in s && (s[id].kind == Project ==> LeafDirectEdit(req))
    ensures var e := Edited(s, s[id], Above(s, s[id]), req);
            && e.kind == s[id].kind && (s[id].kind == Project ==> SameCost(cfg, s[id], e))
            && (req.auto.None? && !req.clearAuto ==> e.policy.auto == s[id].policy.auto)
  {
  }

  lemma SpentByApprove(cfg: Config, b: Id, s: Store, c: Caller, id: Id, req: ApproveRequest)
    requires !cfg.acc.chargeInUse && Sane(cfg, s) && b in s && Approve(cfg, s, c, id, req).Ok?
    requires Unaided(cfg, s, c, OpApprove(id, req), b)
    ensures Spent(cfg, b, s, Approve(cfg, s, c, id, req).value)
  {
    ApproveFacts(cfg, s, c, id, req);
    var d := Decided(s, s[id], req, c.now);
    var t := Put(s, id, d);
    OnlyBoundsOnly(t);
    if d.end.Some? { OnlyBoundsByCascades(t, id, d.end.value, 0, c.now); }
    SpentPut(cfg, b, s, id, d, Approve(cfg, s, c, id, req).value);
  }

  lemma OnlyBoundsOnly(s: Store)
    ensures OnlyBounds(s, s)
  {
  }

  lemma SpentByMove(cfg: Config, b: Id, s: Store, c: Caller, id: Id, target: Id)
    requires !cfg.acc.chargeInUse && Sane(cfg, s) && b in s && Move(cfg, s, c, id, target).Ok?
    requires Unaided(cfg, s, c, OpMove(id, target), b)
    ensures Spent(cfg, b, s, Move(cfg, s, c, id, target).value)
  {
    MoveFacts(cfg, s, c, id, target);
    MovedNodeKeeps(s, s[id], target, c.now);
    OnlyBoundsCarried(MoveWritten(s, id, target, c.now), id, MoveBound(s, s[id], target, c.now), c.now);
    SpentPut(cfg, b, s, id, MovedNode(s, s[id], target, c.now), Move(cfg, s, c, id, target).value);
  }

  lemma SpentByDecision(cfg: Config, b: Id, s: Store, c: Caller, op: Op)
    requires !cfg.acc.chargeInUse && Sane(cfg, s) && b in s && OutcomeOf(cfg, s, c, op).Ok? && Unaided(cfg, s, c, op, b)
    requires op.OpReject? || op.OpRelease? || op.OpTransfer?
    ensures Spent(cfg, b, s, Next(cfg, s, c, op))
  {
    OnlyBoundsOnly(Next(cfg, s, c, op));
    match op
    case OpReject(id) => SpentPut(cfg, b, s, id, Refused(s[id]), Next(cfg, s, c, op));
    case OpTransfer(id, owner) => SpentPut(cfg, b, s, id, HandedOver(s[id], owner), Next(cfg, s, c, op));
    case OpRelease(id, d, e) => SpentByRelease(cfg, b, s, id, d, Next(cfg, s, c, op));
  }

  lemma SpentByRelease(cfg: Config, b: Id, s: Store, id: Id, delete: bool, t: Store)
    requires !cfg.acc.chargeInUse && Sane(cfg, s) && b in s && id in s && s[id].status == Approved
        && s[id].kind == Project
    requires t == Put(s, id, ReleasedNode(s[id], delete))
    ensures Spent(cfg, b, s, t)
  {
    forall x | x in t ensures NoDearer(cfg, b, s[x], t[x]) {
      assert SaneNode(cfg, s[x]);
      if x == id { ReleasedNoDearer(cfg, b, s[id], delete); } else { SameCostNoDearer(cfg, b, s[x], t[x]); }
    }
  }

  lemma ReleasedNoDearer(cfg: Config, b: Id, n: Node, delete: bool)
    requires !cfg.acc.chargeInUse && SaneNode(cfg, n) && n.status == Approved && n.kind == Project
    ensures NoDearer(cfg, b, n, CapHistory(ReleasedNode(n, delete)))
  {
    forall owner, r | r in cfg.counts
      ensures Cost(cfg, CapHistory(ReleasedNode(n, delete)), b, owner, r) <= Cost(cfg, n, b, owner, r)
    {
      CostNonNegative(cfg, n, b, owner, r);
    }
  }

  lemma SpentByDelete(cfg: Config, b: Id, s: Store, gone: set<Id>)
    requires !cfg.acc.chargeInUse && Sane(cfg, s) && b in s && b !in gone
    ensures Spent(cfg, b, s, s - gone)
  {
    SpentSame(cfg, b, s, s - gone);
  }

  lemma SpentByDraws(cfg: Config, b: Id, s: Store, c: Caller, op: Op)
    requires !cfg.acc.chargeInUse && Sane(cfg, s) && b in s && OutcomeOf(cfg, s, c, op).Ok? && Draws(op)
    ensures Spent(cfg, b, s, Next(cfg, s, c, op))
  {
    OnlyBoundsOnly(Next(cfg, s, c, op));
    match op
    case OpPromote(id, req) => SpentByPromote(cfg, b, s, c, id, req);
    case OpAllocate(id, x, q) =>
      AllocateFacts(cfg, s, c, id, x, q);
      SpentPut(cfg, b, s, id, Allocated(s[id], x, NonZero(q)), Next(cfg, s, c, op));
  }

  lemma SpentByPromote(cfg: Config, b: Id, s: Store, c: Caller, id: Id, req: PromoteRequest)
    requires !cfg.acc.chargeInUse && Sane(cfg, s) && b in s && Promote(cfg, s, c, id, req).Ok?
    ensures Spent(cfg, b, s, Promote(cfg, s, c, id, req).value)
  {
    PromoteFacts(cfg, s, c, id, req);
    var t := Promote(cfg, s, c, id, req).value;
    forall x | x in t ensures NoDearer(cfg, b, s[x], t[x]) {
      assert SaneNode(cfg, s[x]);
      if x != id { SameCostNoDearer(cfg, b, s[x], t[x]); }
    }
  }

  lemma SpentByRewrite(cfg: Config, b: Id, s: Store, w: Rewrite)
    requires cfg.Valid() && !cfg.acc.chargeInUse && Sane(cfg, s) && b in s && w.r in cfg.bools
    requires s[b].policy.auto.Some? ==> !Touches(w, s[b].policy.auto.value)
    ensures Spent(cfg, b, s, RewriteAll(s, w))
  {
    var t := RewriteAll(s, w);
    forall id | id in t ensures id in s && SameCost(cfg, s[id], t[id]) {
      forall r | r in cfg.counts ensures Q(t[id].limit, r) == Q(s[id].limit, r) {
      }
    }
    SpentSame(cfg, b, s, t);
  }

  lemma SpentByGrantRoot(cfg: Config, b: Id, s: Store, r: Rid)
    requires cfg.Valid() && !cfg.acc.chargeInUse && Sane(cfg, s) && b in s && r in cfg.bools
    ensures Spent(cfg, b, s, AdoptAvailability(s, r))
  {
    SpentSame(cfg, b, s, AdoptAvailability(s, r));
  }

  lemma SpentByReport(cfg: Config, b: Id, s: Store, w: Report)
    requires !cfg.acc.chargeInUse && !cfg.acc.chargeArchived && Shaped(s) && Sane(cfg, s) && b in s
        && s[b].kind == Budget
    requires ReportEnabled(s, w)
    ensures Spent(cfg, b, s, ApplyReport(s, w))
  {
    var t := ApplyReport(s, w);
    assert OwnShape(s[b]);
    forall x | x in t ensures if x in s then NoDearer(cfg, b, s[x], t[x]) else Costless(cfg, b, t[x]) {
      if x in s {
        assert SaneNode(cfg, s[x]);
        if x == w.id { ReportedNoDearer(cfg, b, s[x], w); } else { SameCostNoDearer(cfg, b, s[x], t[x]); }
      }
    }
  }

  lemma ReportedNoDearer(cfg: Config, b: Id, n: Node, w: Report)
    requires !cfg.acc.chargeInUse && !cfg.acc.chargeArchived && SaneNode(cfg, n) && Reported(n, w).Some?
    ensures NoDearer(cfg, b, n, Reported(n, w).value)
  {
    forall owner, r | r in cfg.counts
      ensures Cost(cfg, Reported(n, w).value, b, owner, r) <= Cost(cfg, n, b, owner, r)
    {
      CostNonNegative(cfg, n, b, owner, r);
    }
  }

  // ── What the policy grants ──────────────────────────────────────────────────

  /** The project id of owner comes to hold add instead of sub, as far as b is charged; others hold what they
      did. */
  lemma GrantedWithin(cfg: Config, b: Id, s: Store, id: Id, n: Node, add: Quota, sub: Quota)
    requires b in s && id != b && Shared(cfg, s, b)
    requires s[b].policy.auto.Some?
        && (IsPool(s[b].policy.auto) || WithinShare(cfg, s, b, n.owner, s[b].policy.auto.value, add, sub))
    requires forall owner, r :: r in cfg.counts ==>
      Cost(cfg, n, b, owner, r) - (if id in s then Cost(cfg, s[id], b, owner, r) else 0)
      == if owner == n.owner then Q(add, r) - Q(sub, r) else 0
    ensures Shared(cfg, Put(s, id, n), b)
  {
    if !IsPool(s[b].policy.auto) {
      forall owner, r | r in cfg.counts
        ensures Fits(OwnerUsage(cfg, Put(s, id, n), b, owner, r), Q(s[b].policy.auto.value, r))
      {
        CappedCost(cfg, b, n, owner, r);
        TotalPut(s, Owned(cfg, owner, b, r), id, CapHistory(n));
        assert OwnerUsage(cfg, Put(s, id, n), b, owner, r)
               == OwnerUsage(cfg, s, b, owner, r) + if owner == n.owner then Q(add, r) - Q(sub, r) else 0;
      }
    }
  }

  lemma CappedCost(cfg: Config, b: Id, n: Node, owner: Token, r: Rid)
    ensures Cost(cfg, CapHistory(n), b, owner, r) == Cost(cfg, n, b, owner, r)
  {
  }

  /** A project nobody manages into the budget is granted within the share, or waits. */
  lemma SharedByCreate(cfg: Config, b: Id, s: Store, c: Caller, id: Id, req: CreateRequest)
    requires !cfg.acc.chargeInUse && Sane(cfg, s) && Shared(cfg, s, b) && id !in s && Create(cfg, s, c, id, req).Ok?
    requires Unaided(cfg, s, c, OpCreate(id, req), b)
    ensures Shared(cfg, Create(cfg, s, c, id, req).value, b)
  {
    var n := CreatedNode(cfg, s, c, id, req);
    if n.kind == Project && n.parent == Some(b) && n.status == Approved {
      GrantedByPolicy(cfg, s, c, id, req);
      ActiveCosts(cfg, b, n);
      GrantedWithin(cfg, b, s, id, n, n.limit, map[]);
      assert Put(s, id, n) == s[id := n];
    } else {
      forall x | x in s ensures NoDearer(cfg, b, s[x], s[id := n][x]) {
      }
      SpentShared(cfg, b, s, s[id := n]);
    }
  }

  lemma GrantedByPolicy(cfg: Config, s: Store, c: Caller, id: Id, req: CreateRequest)
    requires Create(cfg, s, c, id, req).Ok? && req.kind == Project && !Manages(s, c.tokens, s[req.parent])
    ensures id in Create(cfg, s, c, id, req).value
    ensures var n := Create(cfg, s, c, id, req).value[id];
            n.status == Approved ==> AutoApprovable(cfg, s, req.parent, n.owner, n.limit, map[])
  {
  }

  /** What an active project costs its owner at its budget: its limit. */
  lemma ActiveCosts(cfg: Config, b: Id, n: Node)
    requires !cfg.acc.chargeInUse && n.kind == Project && n.parent == Some(b) && Active(n.status)
    ensures forall owner, r ::
        r in cfg.counts ==> Cost(cfg, n, b, owner, r) == if owner == n.owner then Q(n.limit, r) else 0
  {
  }

  /** A change that takes effect unasked gives back, or is granted within the share, mixed ones included. */
  lemma SharedByDirect(cfg: Config, b: Id, s: Store, id: Id, req: ChangeRequest)
    requires cfg.Valid() && !cfg.acc.chargeInUse && Sane(cfg, s) && Shared(cfg, s, b) && ProjectUnder(s, id, b)
    requires id != b && Active(s[id].status) && LeafVerdict(cfg, s, s[id], req) == Direct
    ensures Shared(cfg, Put(s, id, AppliedDirectly(s[id], req)), b)
  {
    var n, d := s[id], AppliedDirectly(s[id], req);
    assert SaneNode(cfg, n);
    ActiveCosts(cfg, b, n);
    ActiveCosts(cfg, b, d);
    if req.limit.Some? && !Shrinks(cfg, n.limit, req.limit.value) {
      GrantedWithin(cfg, b, s, id, d, req.limit.value, n.limit);
    } else {
      forall r | r in cfg.counts ensures Q(d.limit, r) <= Q(n.limit, r) {
        if req.limit.Some? { ShrinksCounts(cfg, n.limit, req.limit.value, r); }
      }
      SpentByLess(cfg, b, s, id, d);
      SpentShared(cfg, b, s, Put(s, id, d));
    }
  }

  lemma SpentByLess(cfg: Config, b: Id, s: Store, id: Id, d: Node)
    requires !cfg.acc.chargeInUse && Sane(cfg, s) && b in s && id in s && id != b
    requires forall owner, r :: r in cfg.counts ==> Cost(cfg, d, b, owner, r) <= Cost(cfg, s[id], b, owner, r)
    ensures Spent(cfg, b, s, Put(s, id, d))
  {
    forall x | x in s ensures NoDearer(cfg, b, s[x], Put(s, id, d)[x]) {
      if x == id {
        forall owner, r | r in cfg.counts
          ensures Cost(cfg, CapHistory(d), b, owner, r) <= Cost(cfg, s[id], b, owner, r)
        {
          CappedCost(cfg, b, d, owner, r);
        }
      }
    }
  }

  lemma SharedByChange(cfg: Config, b: Id, s: Store, c: Caller, id: Id, req: ChangeRequest)
    requires cfg.Valid() && !cfg.acc.chargeInUse && Sane(cfg, s) && Shared(cfg, s, b) && s[b].kind == Budget
    requires RequestChange(cfg, s, c, id, req).Ok?
    ensures Shared(cfg, RequestChange(cfg, s, c, id, req).value, b)
  {
    var n := ChangedNode(cfg, s, c, id, req);
    var t := Put(s, id, n);
    if n == AppliedDirectly(s[id], req) && Active(s[id].status) && ProjectUnder(s, id, b)
       && LeafVerdict(cfg, s, s[id], req) == Direct {
      SharedByDirect(cfg, b, s, id, req);
    } else {
      AskedNoDearer(cfg, b, s[id], n, req);
      forall x | x in s && x != id ensures NoDearer(cfg, b, s[x], t[x]) {
      }
      SpentShared(cfg, b, s, t);
    }
  }

  lemma AskedNoDearer(cfg: Config, b: Id, m: Node, n: Node, req: ChangeRequest)
    requires !cfg.acc.chargeInUse && SaneNode(cfg, m)
    requires (n == Amended(m, req) && m.status == Pending) || (n == Proposed(m, req) && Active(m.status))
             || (n == AppliedDirectly(m, req) && Elsewhere(m, b))
    ensures NoDearer(cfg, b, m, CapHistory(n)) && n.policy == m.policy
  {
    forall owner, r | r in cfg.counts ensures Cost(cfg, CapHistory(n), b, owner, r) <= Cost(cfg, m, b, owner, r) {
      CostNonNegative(cfg, m, b, owner, r);
    }
  }

  // ── Every step, every run ───────────────────────────────────────────────────

  lemma SpentNext(cfg: Config, b: Id, s: Store, c: Caller, op: Op)
    requires cfg.Valid() && !cfg.acc.chargeInUse && Shaped(s) && Sane(cfg, s) && b in s && s[b].kind == Budget
    requires Enabled(cfg, s, op) && Unaided(cfg, s, c, op, b) && OutcomeOf(cfg, s, c, op).Ok?
    requires !op.OpCreate? && !op.OpChange?
    ensures Spent(cfg, b, s, Next(cfg, s, c, op))
  {
    if op.OpUpdate? { SpentByUpdate(cfg, b, s, c, op.id, op.update); }
    else if op.OpApprove? { SpentByApprove(cfg, b, s, c, op.id, op.approve); }
    else if op.OpDelete? { SpentByDelete(cfg, b, s, Closure(s, op.id)); }
    else if op.OpMove? { SpentByMove(cfg, b, s, c, op.id, op.target); }
    else if Draws(op) { SpentByDraws(cfg, b, s, c, op); }
    else if op.OpRewrite? { SpentByRewrite(cfg, b, s, op.rewrite); }
    else if op.OpGrantRoot? { SpentByGrantRoot(cfg, b, s, op.r); }
    else if op.OpReport? { SpentByReport(cfg, b, s, op.report); }
    else { SpentByDecision(cfg, b, s, c, op); }
  }

  /** Whoever does whatever, as long as no manager grants anything there: no requester gets beyond the
      share. */
  lemma SharedNext(cfg: Config, b: Id, s: Store, c: Caller, op: Op)
    requires cfg.Valid() && !cfg.acc.chargeInUse && Shaped(s) && Sane(cfg, s)
    requires Shared(cfg, s, b) && s[b].kind == Budget && Enabled(cfg, s, op) && Unaided(cfg, s, c, op, b)
    ensures Shared(cfg, Next(cfg, s, c, op), b)
  {
    if OutcomeOf(cfg, s, c, op).Ok? {
      if op.OpCreate? { SharedByCreate(cfg, b, s, c, op.id, op.create); }
      else if op.OpChange? { SharedByChange(cfg, b, s, c, op.id, op.change); }
      else {
        SpentNext(cfg, b, s, c, op);
        SpentShared(cfg, b, s, Next(cfg, s, c, op));
      }
    }
  }

  /** A run without a manager's help at b; what is billed for archived projects stays as it is configured. */
  ghost predicate UnaidedRun(cfg: Config, s: Store, run: seq<Event>, b: Id) {
    run == [] ||
    var e, t := run[|run| - 1], Final(s, run[..|run| - 1]);
    && UnaidedRun(cfg, s, run[..|run| - 1], b)
    && b in t && t[b].kind == Budget && Unaided(e.cfg, t, e.caller, e.op, b) && e.cfg.storage == cfg.storage
  }

  lemma SharedElsewhere(cfg: Config, other: Config, s: Store, b: Id)
    requires Shared(cfg, s, b) && SameKinds(cfg, other) && other.storage == cfg.storage
    ensures Shared(other, s, b)
  {
    forall owner, r | r in cfg.counts ensures OwnerUsage(other, s, b, owner, r) == OwnerUsage(cfg, s, b, owner, r) {
      TotalSame(s, Owned(other, owner, b, r), s, Owned(cfg, owner, b, r));
    }
  }

  /** In every run in which no manager grants anything at b: what a requester's projects directly under b
      hold never exceeds the share, however much is asked for, given back or asked for and given back at
      once. */
  lemma {:induction false} NeverBeyondShare(cfg: Config, s: Store, run: seq<Event>, step: Step, b: Id)
    requires Settled(cfg, s) && !cfg.acc.chargeInUse && Shared(cfg, s, b)
    requires Legal(cfg, s, run, step) && UnaidedRun(cfg, s, run, b)
    ensures Shared(cfg, Final(s, run), b)
  {
    if run != [] {
      var e, before := run[|run| - 1], run[..|run| - 1];
      NeverBeyondShare(cfg, s, before, step, b);
      SettledRun(cfg, s, before, step);
      var t := Final(s, before);
      SettledElsewhere(cfg, e.cfg, t);
      SharedElsewhere(cfg, e.cfg, t, b);
      SharedNext(e.cfg, b, t, e.caller, e.op);
      SharedElsewhere(e.cfg, cfg, Final(s, run), b);
    }
  }

  /** To begin with: a budget nothing hangs under yet, with a share that is none. */
  lemma SharedAtFirst(cfg: Config, s: Store, b: Id)
    requires b in s && (forall id :: id in s ==> s[id].parent != Some(b))
    requires s[b].policy.auto.Some? ==> ValidRequesterLimit(cfg, s[b].policy.auto.value)
    ensures Shared(cfg, s, b)
  {
    forall owner, r | r in cfg.counts ensures OwnerUsage(cfg, s, b, owner, r) == 0 {
      TotalZero(s, Owned(cfg, owner, b, r));
    }
  }

  /** Why the share must not hold what leaves the catalogue: a share of nothing but that becomes one of the
      whole budget. */
  lemma ForgottenShare(w: Rewrite, n: Node)
    requires n.policy.auto.Some? && !IsPool(n.policy.auto)
    ensures IsPool(RewrittenNode(w, n).policy.auto) <==> w.Forget? && n.policy.auto.value.Keys == {w.r}
  {
    var q := n.policy.auto.value;
    assert Rewritten(w, q).Keys == if w.Forget? then q.Keys - {w.r} else q.Keys;
    assert q.Keys != {};
    assert IsPool(RewrittenNode(w, n).policy.auto) <==> Rewritten(w, q).Keys == {};
  }
}
