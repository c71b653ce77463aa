/** The lock holder and the writers that take no lock: an operation reads its node, checks and writes in
    three steps, and provider reports and marks come in between (approvalMu in
    internal/core/tree/service.go, sync_provider.go, op_attributes.go, op_retire.go). */
module Interleaving {
  import opened Model
  import opened Chains
  import opened Charges
  import opened Rules
  import opened Steps
  import opened Reports
  import opened Runs
  import opened Shape
  import opened Values
  import opened Sources
  import opened Locality
  import opened Capacity
  import opened Safety

  // ── What lock-free writes can do ────────────────────────────────────────────

  /** n is m after writes that take no lock. Of a node in the managed tree they change only what was
      measured and the history; a retired one may be archived, an import that was promoted become a
      request. */
  predicate Drift(m: Node, n: Node) {
    if m.status == Imported
    then (n.kind == m.kind && n.parent == m.parent && n.allocations == m.allocations && n.inherits == m.inherits
          && (if n.status == Imported then n.side.promote == m.side.promote else n.status == Pending && m.side.promote)
          && (m.side.promote ==> n.limit == m.limit))
    else (n == m.(side := n.side, log := n.log, status := n.status)
          && (n.status == m.status || (m.status == Released && n.status == Archived)))
  }

  /** Only retired projects and imports vanish. */
  predicate Vanishes(m: Node) {
    m.kind == Project && (m.status == Imported || Retired(m.status))
  }

  /** Only imports appear. */
  predicate Appears(n: Node) {
    n.kind == Project && n.parent == Some(UNASSIGNED) && n.allocations == [] && n.status == Imported && !n.side.promote
  }

  ghost predicate DriftAt(s: Store, t: Store, id: Id) {
    && (id in s && id in t ==> Drift(s[id], t[id]))
    && (id in s && id !in t ==> Vanishes(s[id]))
    && (id !in s && id in t ==> Appears(t[id]))
  }

  ghost predicate Drifted(s: Store, t: Store) {
    forall id {:trigger DriftAt(s, t, id)} :: DriftAt(s, t, id)
  }

  lemma DriftReport(s: Store, w: Report)
    requires Shaped(s) && ReportEnabled(s, w)
    ensures Drifted(s, ApplyReport(s, w))
  {
    var t := ApplyReport(s, w);
    forall id ensures DriftAt(s, t, id) {
      if id == w.id && id in s { assert OwnShape(s[id]); }
      DriftReportAt(s, w, id);
    }
  }

  lemma DriftReportAt(s: Store, w: Report, id: Id)
    requires ReportEnabled(s, w) && (id in s ==> OwnShape(s[id]))
    ensures DriftAt(s, ApplyReport(s, w), id)
  {
  }

  lemma DriftTransitive(s: Store, t: Store, u: Store)
    requires Drifted(s, t) && Drifted(t, u) && forall id :: id in u && id !in t ==> id !in s
    ensures Drifted(s, u)
  {
    forall id ensures DriftAt(s, u, id) {
      assert DriftAt(s, t, id) && DriftAt(t, u, id);
    }
  }

  // ── What that leaves alone ──────────────────────────────────────────────────

  /** The budgets are as they were. */
  lemma DriftBudgets(s: Store, t: Store)
    requires Drifted(s, t) && forall id :: id in s ==> OwnShape(s[id])
    ensures Budgets(t) == Budgets(s)
    ensures forall b ::
        b in Budgets(s) ==> t[b].limit == s[b].limit && t[b].inherits == s[b].inherits && t[b].status == s[b].status
  {
    forall id | id in s || id in t
      ensures (id in s && s[id].kind == Budget) <==> (id in t && t[id].kind == Budget)
      ensures id in s && s[id].kind == Budget ==>
        t[id].parent == s[id].parent && t[id].limit == s[id].limit && t[id].inherits == s[id].inherits
        && t[id].status == s[id].status
    {
      assert DriftAt(s, t, id);
    }
  }

  lemma DriftShaped(s: Store, t: Store)
    requires Shaped(s) && Drifted(s, t)
    ensures Shaped(t)
  {
    assert forall id :: id in s ==> OwnShape(s[id]);
    DriftBudgets(s, t);
    forall id | id in t ensures Hangs(t, t[id]) && OwnShape(t[id]) {
      assert DriftAt(s, t, id);
      if id in s { DriftHangs(s, t, id); }
      assert UNASSIGNED in Budgets(s);
    }
    assert ROOT in Budgets(s) && UNASSIGNED in Budgets(s) && Budgets(t)[UNASSIGNED] == Budgets(s)[UNASSIGNED];
  }

  lemma DriftHangs(s: Store, t: Store, id: Id)
    requires Shaped(s) && id in s && id in t && DriftAt(s, t, id) && Budgets(t) == Budgets(s)
    requires forall b :: b in Budgets(s) ==> t[b].status == s[b].status
    ensures Hangs(t, t[id]) && OwnShape(t[id])
  {
    assert Hangs(s, s[id]) && OwnShape(s[id]);
    if s[id].parent.Some? { assert s[id].parent.value in Budgets(s); }
  }

  lemma DriftSane(cfg: Config, s: Store, t: Store)
    requires Shaped(s) && Sane(cfg, s) && Drifted(s, t)
    ensures Sane(cfg, t)
  {
    forall id | id in t ensures SaneNode(cfg, t[id]) {
      assert DriftAt(s, t, id);
      if id in s { assert SaneNode(cfg, s[id]) && OwnShape(s[id]); }
    }
  }

  lemma DriftSourced(cfg: Config, s: Store, t: Store)
    requires Sane(cfg, s) && Sourced(s) && Drifted(s, t) && Budgets(t) == Budgets(s)
    ensures Sourced(t)
  {
    forall id | id in t ensures SourcedNode(Budgets(t), t[id]) {
      assert DriftAt(s, t, id);
      if id in s { assert SourcedNode(Budgets(s), s[id]) && SaneNode(cfg, s[id]); }
    }
  }

  lemma DriftPlain(cfg: Config, s: Store, t: Store)
    requires Sane(cfg, s) && PlainRequests(s) && Drifted(s, t)
    ensures PlainRequests(t)
  {
    forall id | id in t && t[id].status == Pending ensures t[id].allocations == [] {
      assert DriftAt(s, t, id);
      if id in s { assert SaneNode(cfg, s[id]); }
    }
  }

  /** No charge of anybody can change without the lock: every way into or out of the statuses that are
      charged holds it. */
  lemma DriftUsage(cfg: Config, s: Store, t: Store, b: Id, r: Rid)
    requires Off(cfg) && Drifted(s, t) && Budgets(t) == Budgets(s)
    ensures Usage(cfg, t, b, r) == Usage(cfg, s, b, r)
  {
    var m := Below(cfg, Budgets(s), Budgets(s).Keys, None, b, r);
    forall id
      ensures (id in s && id !in t ==> Weight(m, s[id]) == 0) && (id in t && id !in s ==> Weight(m, t[id]) == 0)
    {
      assert DriftAt(s, t, id);
    }
    var gone, come := s.Keys - t.Keys, t.Keys - s.Keys;
    TotalWithout(s, m, gone);
    TotalWithout(t, m, come);
    forall id | id in s - gone ensures id in t && Weight(m, (t - come)[id]) == Weight(m, (s - gone)[id]) {
      assert DriftAt(s, t, id);
      DriftWeight(m, s[id], t[id]);
    }
    assert (t - come).Keys == (s - gone).Keys;
    TotalSame(s - gone, m, t - come, m);
  }

  lemma DriftWeight(m: Meter, a: Node, n: Node)
    requires m.Below? && Off(m.cfg) && Drift(a, n)
    ensures Weight(m, n) == Weight(m, a)
  {
  }

  /** What is safe stays safe whatever the lock-free writers do. */
  lemma DriftSafe(cfg: Config, s: Store, t: Store)
    requires Off(cfg) && Safe(cfg, s) && Drifted(s, t)
    ensures Safe(cfg, t)
  {
    assert forall id :: id in s ==> OwnShape(s[id]);
    DriftBudgets(s, t);
    DriftShaped(s, t);
    DriftSane(cfg, s, t);
    DriftSourced(cfg, s, t);
    DriftPlain(cfg, s, t);
    forall b, r | b in t && t[b].kind == Budget && r in cfg.counts ensures Within(cfg, t, b, r) {
      assert b in Budgets(s) && Within(cfg, s, b, r);
      DriftUsage(cfg, s, t, b, r);
    }
  }

  // ── An operation in three steps ─────────────────────────────────────────────

  /** The node an operation reads and writes. */
  function NodeOf(op: Op): Option<Id> {
    match op
    case OpCreate(id, _) => Some(id)
    case OpUpdate(id, _) => Some(id)
    case OpChange(id, _) => Some(id)
    case OpApprove(id, _) => Some(id)
    case OpReject(id) => Some(id)
    case OpRelease(id, _, _) => Some(id)
    case OpDelete(id) => Some(id)
    case OpMove(id, _) => Some(id)
    case OpTransfer(id, _) => Some(id)
    case OpPromote(id, _) => Some(id)
    case OpAllocate(id, _, _) => Some(id)
    case _ => None
  }

  /** What the checks see: the store as it is then, with the node as it was read. */
  ghost function Seen(read: Store, now: Store, op: Op): Store {
    if NodeOf(op).None? then now
    else if NodeOf(op).value in read then now[NodeOf(op).value := read[NodeOf(op).value]]
    else now - {NodeOf(op).value}
  }

  /** Writing a change on the node as it is stored; where it is refused or the node is gone, nothing. */
  function Changed(t: Store, id: Id, change: Option<Node>): Store {
    if id in t && change.Some? then Put(t, id, change.value) else t
  }

  /** The write, on the store t as it is by now, of an operation that was checked against s. Some operations
      write the copy they read back, others change the stored node and look at its status again; cascades
      change the stored nodes. */
  ghost function WriteBack(cfg: Config, s: Store, t: Store, c: Caller, op: Op): Store {
    var o := OutcomeOf(cfg, s, c, op);
    if o.Err? then t
    else match op
      case OpCreate(id, req) => if id in o.value then Put(t, id, o.value[id]) else t
      case OpUpdate(id, req) =>
        if id !in s then t
        else CarriedDown(Put(t, id, Edited(s, s[id], Above(s, s[id]), req)), id, req, c.now)
      case OpChange(id, req) => if id in o.value then Put(t, id, o.value[id]) else t
      case OpApprove(id, req) => if id !in s then t else ApproveBack(s, t, c, id, req)
      case OpReject(id) =>
        if id in s && id in t then Changed(t, id, RefuseChange(t[id], s[id].status, s[id].parent)) else t
      case OpRelease(id, delete, _) => if id in t then Changed(t, id, ReleaseChange(t[id], delete)) else t
      case OpDelete(id) => t - Closure(s, id)
      case OpMove(id, target) =>
        if id !in s then t
        else MoveCarried(Put(t, id, MovedNode(s, s[id], target, c.now)), id, MoveBound(s, s[id], target, c.now), c.now)
      case OpTransfer(id, owner) =>
        if id in s && id in t then Changed(t, id, HandOverChange(t[id], s[id].parent, owner)) else t
      case OpPromote(id, req) => if id in s then Put(t, id, PromotedNode(s, s[id], req, c.now)) else t
      case OpAllocate(id, b, q) => if id in s then Put(t, id, Allocated(s[id], b, NonZero(q))) else t
      case OpRewrite(w) => map x | x in t :: if x in s then RewrittenNode(w, t[x]) else t[x]
      case OpGrantRoot(r) => AdoptAvailability(t, r)
      case OpReport(w) => ApplyReport(t, w)
  }

  /** The decision on the stored node, refused where its revision is another by now. */
  ghost function ApproveBack(s: Store, t: Store, c: Caller, id: Id, req: ApproveRequest): Store
    requires id in s
  {
    var d := Decided(s, s[id], req, c.now);
    if id !in t || DecideChange(t[id], s[id].status, Revision(s[id]), d).None? then t
    else
      var u := Put(t, id, DecideChange(t[id], s[id].status, Revision(s[id]), d).value);
      if s[id].kind == Budget && d.end.Some? then CascadeEnds(u, id, d.end.value) else u
  }

  // ── The write against the operation in one step ─────────────────────────────

  lemma DriftPut(s: Store, t: Store, id: Id, n: Node)
    requires Drifted(s, t)
    ensures Drifted(Put(s, id, n), Put(t, id, n))
  {
    forall x ensures DriftAt(Put(s, id, n), Put(t, id, n), x) {
      assert DriftAt(s, t, x);
    }
  }

  lemma DriftPuts(s: Store, t: Store, id: Id, m: Node, n: Node)
    requires Drifted(s, t) && Drift(m, n)
    ensures Drifted(Put(s, id, m), Put(t, id, n))
  {
    forall x ensures DriftAt(Put(s, id, m), Put(t, id, n), x) {
      assert DriftAt(s, t, x);
    }
  }

  lemma DriftShortened(m: Node, n: Node, end: Time, days: int)
    requires Drift(m, n)
    ensures Live(m.status) ==>
        Drift(ShortenEnd(m, end), ShortenEnd(n, end)) && Drift(ShortenTerm(m, days), ShortenTerm(n, days))
    ensures !Live(m.status) && Live(n.status) ==> Drift(m, ShortenEnd(n, end)) && Drift(m, ShortenTerm(n, days))
  {
  }

  /** The cascades find the same nodes, but for an import that became a request meanwhile. */
  lemma DriftCascades(s: Store, t: Store, top: Id, end: Time, days: int, now: Time)
    requires Drifted(s, t) && Budgets(t) == Budgets(s)
    ensures Drifted(CascadeEnds(s, top, end), CascadeEnds(t, top, end))
    ensures Drifted(CascadeTerms(s, top, days, now), CascadeTerms(t, top, days, now))
    ensures Budgets(CascadeEnds(s, top, end)) == Budgets(CascadeEnds(t, top, end)) == Budgets(s)
  {
    forall x
      ensures DriftAt(CascadeEnds(s, top, end), CascadeEnds(t, top, end), x)
      ensures DriftAt(CascadeTerms(s, top, days, now), CascadeTerms(t, top, days, now), x)
    {
      assert DriftAt(s, t, x);
      if x in s && x in t {
        DriftShortened(s[x], t[x], end, days);
        DriftShortened(s[x], t[x], TermEnd(now, days), days);
      }
    }
    CascadePlaces(s, top, end);
    CascadePlaces(t, top, end);
  }

  lemma CascadePlaces(s: Store, top: Id, end: Time)
    ensures Budgets(CascadeEnds(s, top, end)) == Budgets(s)
  {
    CascadeEndsHoldings(s, top, end);
    InPlaceBudgets(s, CascadeEnds(s, top, end));
  }

  lemma DriftCarriedDown(s: Store, t: Store, id: Id, req: UpdateRequest, now: Time)
    requires Drifted(s, t) && Budgets(t) == Budgets(s)
    ensures Drifted(CarriedDown(s, id, req, now), CarriedDown(t, id, req, now))
  {
    var u, v := s, t;
    if !PanicsEarly(req) && req.end.Some? {
      DriftCascades(s, t, id, req.end.value, 0, now);
      u, v := CascadeEnds(s, id, req.end.value), CascadeEnds(t, id, req.end.value);
    }
    if !PanicsEarly(req) && req.maxTerm.Some? && !req.clearMaxTerm {
      DriftCascades(u, v, id, 0, req.maxTerm.value, now);
    }
  }

  lemma DriftMoveCarried(s: Store, t: Store, id: Id, bound: Option<Time>, now: Time)
    requires Drifted(s, t) && Budgets(t) == Budgets(s) && id in s && id in t && t[id] == s[id]
    ensures Drifted(MoveCarried(s, id, bound, now), MoveCarried(t, id, bound, now))
  {
    var u, v := s, t;
    if s[id].kind == Budget && bound.Some? {
      DriftCascades(s, t, id, bound.value, 0, now);
      u, v := CascadeEnds(s, id, bound.value), CascadeEnds(t, id, bound.value);
    }
    if s[id].kind == Budget && s[id].maxTerm.Some? { DriftCascades(u, v, id, 0, s[id].maxTerm.value, now); }
  }

  lemma PutBudgets(s: Store, t: Store, id: Id, n: Node)
    requires Budgets(t) == Budgets(s)
    ensures Budgets(Put(t, id, n)) == Budgets(Put(s, id, n))
  {
    assert forall x :: x in Budgets(Put(s, id, n)) <==> (if x == id then n.kind == Budget else x in Budgets(s));
    assert forall x :: x in Budgets(Put(t, id, n)) <==> (if x == id then n.kind == Budget else x in Budgets(t));
  }

  lemma BackUpdate(cfg: Config, s: Store, t: Store, c: Caller, id: Id, req: UpdateRequest)
    requires Drifted(s, t) && Budgets(t) == Budgets(s) && Update(cfg, s, c, id, req).Ok?
    ensures Drifted(Update(cfg, s, c, id, req).value, WriteBack(cfg, s, t, c, OpUpdate(id, req)))
  {
    UpdateFacts(cfg, s, c, id, req);
    var e := Edited(s, s[id], Above(s, s[id]), req);
    DriftPut(s, t, id, e);
    PutBudgets(s, t, id, e);
    DriftCarriedDown(Put(s, id, e), Put(t, id, e), id, req, c.now);
  }

  lemma BackMove(cfg: Config, s: Store, t: Store, c: Caller, id: Id, target: Id)
    requires Drifted(s, t) && Budgets(t) == Budgets(s) && Move(cfg, s, c, id, target).Ok?
    ensures Drifted(Move(cfg, s, c, id, target).value, WriteBack(cfg, s, t, c, OpMove(id, target)))
  {
    MoveFacts(cfg, s, c, id, target);
    var m := MovedNode(s, s[id], target, c.now);
    DriftPut(s, t, id, m);
    PutBudgets(s, t, id, m);
    DriftMoveCarried(Put(s, id, m), Put(t, id, m), id, MoveBound(s, s[id], target, c.now), c.now);
  }

  lemma BackApprove(cfg: Config, s: Store, t: Store, c: Caller, id: Id, req: ApproveRequest)
    requires Drifted(s, t) && Budgets(t) == Budgets(s) && Approve(cfg, s, c, id, req).Ok?
    ensures var u := WriteBack(cfg, s, t, c, OpApprove(id, req));
            u == t || Drifted(Approve(cfg, s, c, id, req).value, u)
  {
    ApproveFacts(cfg, s, c, id, req);
    if id in t {
      var d := Decided(s, s[id], req, c.now);
      var change := DecideChange(t[id], s[id].status, Revision(s[id]), d);
      if change.Some? { DecidedDrifts(s, t, id, req, c.now, d, change.value); }
    }
  }

  lemma DecidedDrifts(s: Store, t: Store, id: Id, req: ApproveRequest, now: Time, d: Node, e: Node)
    requires Drifted(s, t) && Budgets(t) == Budgets(s) && id in s && id in t && d == Decided(s, s[id], req, now)
    requires s[id].status == Pending || s[id].status == ChangePending
    requires DecideChange(t[id], s[id].status, Revision(s[id]), d) == Some(e)
    ensures Drifted(Put(s, id, d), Put(t, id, e))
    ensures d.end.Some? ==>
        Drifted(CascadeEnds(Put(s, id, d), id, d.end.value), CascadeEnds(Put(t, id, e), id, d.end.value))
  {
    assert DriftAt(s, t, id);
    DecideDrifts(s[id], t[id], d, e);
    DriftPuts(s, t, id, d, e);
    DriftBudgetsPut(s, t, id, d, e);
    if d.end.Some? { DriftCascades(Put(s, id, d), Put(t, id, e), id, d.end.value, 0, now); }
  }

  lemma DecideDrifts(m: Node, n: Node, d: Node, e: Node)
    requires Drift(m, n) && (m.status == Pending || m.status == ChangePending)
    requires d == m.(status := Approved, limit := d.limit, end := d.end, members := d.members, pending := None,
        log := d.log)
    requires DecideChange(n, m.status, Revision(m), d) == Some(e)
    ensures Drift(d, e) && e.kind == d.kind && e.parent == d.parent
  {
  }

  lemma DriftBudgetsPut(s: Store, t: Store, id: Id, m: Node, n: Node)
    requires Budgets(t) == Budgets(s) && m.kind == n.kind && m.parent == n.parent
    ensures Budgets(Put(t, id, n)) == Budgets(Put(s, id, m))
  {
    PutBudgets(s, t, id, m);
    InPlaceBudgets(Put(t, id, m), Put(t, id, n));
  }

  lemma BackChanges(cfg: Config, s: Store, t: Store, c: Caller, op: Op)
    requires Drifted(s, t) && OutcomeOf(cfg, s, c, op).Ok? && (op.OpReject? || op.OpRelease? || op.OpTransfer?)
    ensures var u := WriteBack(cfg, s, t, c, op); u == t || Drifted(OutcomeOf(cfg, s, c, op).value, u)
  {
    match op
    case OpReject(id) =>
      assert DriftAt(s, t, id);
      if id in t && RefuseChange(t[id], s[id].status, s[id].parent).Some? {
        DriftPuts(s, t, id, Refused(s[id]), Refused(t[id]));
      }
    case OpRelease(id, d, e) =>
      assert DriftAt(s, t, id);
      if id in t && ReleaseChange(t[id], d).Some? {
        DriftPuts(s, t, id, ReleasedNode(s[id], d), ReleasedNode(t[id], d));
      }
    case OpTransfer(id, owner) =>
      assert DriftAt(s, t, id);
      if id in t && HandOverChange(t[id], s[id].parent, owner).Some? {
        DriftPuts(s, t, id, HandedOver(s[id], owner), HandedOver(t[id], owner));
      }
  }

  lemma BackCopies(cfg: Config, s: Store, t: Store, c: Caller, op: Op)
    requires Drifted(s, t) && Enabled(cfg, s, op) && OutcomeOf(cfg, s, c, op).Ok?
    requires op.OpCreate? || op.OpChange? || op.OpPromote? || op.OpAllocate?
    ensures Drifted(OutcomeOf(cfg, s, c, op).value, WriteBack(cfg, s, t, c, op))
  {
    match op
    case OpCreate(id, req) =>
      var n := CreatedNode(cfg, s, c, id, req);
      DriftCopy(s, t, id, n, s[id := n]);
    case OpChange(id, req) =>
      var n := ChangedNode(cfg, s, c, id, req);
      DriftCopy(s, t, id, CapHistory(n), Put(s, id, n));
    case OpPromote(id, req) =>
      PromoteFacts(cfg, s, c, id, req);
      DriftPut(s, t, id, PromotedNode(s, s[id], req, c.now));
    case OpAllocate(id, b, q) =>
      AllocateFacts(cfg, s, c, id, b, q);
      DriftPut(s, t, id, Allocated(s[id], b, NonZero(q)));
  }

  lemma DriftCopy(s: Store, t: Store, id: Id, n: Node, u: Store)
    requires Drifted(s, t) && u == s[id := n]
    ensures Drifted(u, Put(t, id, u[id]))
  {
    forall x ensures DriftAt(u, Put(t, id, u[id]), x) {
      assert DriftAt(s, t, x);
    }
  }

  lemma BackWhole(cfg: Config, s: Store, t: Store, c: Caller, op: Op)
    requires Shaped(s) && Drifted(s, t) && OutcomeOf(cfg, s, c, op).Ok?
    requires op.OpDelete? || op.OpRewrite? || op.OpGrantRoot?
    ensures Drifted(OutcomeOf(cfg, s, c, op).value, WriteBack(cfg, s, t, c, op))
  {
    var a, u := OutcomeOf(cfg, s, c, op).value, WriteBack(cfg, s, t, c, op);
    forall x ensures DriftAt(a, u, x) {
      assert DriftAt(s, t, x);
      if x in s { assert OwnShape(s[x]); }
      if op.OpRewrite? && x in s && x in t { RewriteDrifts(op.rewrite, s[x], t[x]); }
    }
  }

  lemma RewriteDrifts(w: Rewrite, m: Node, n: Node)
    requires Drift(m, n)
    ensures Drift(RewrittenNode(w, m), RewrittenNode(w, n))
  {
  }

  /** The write leaves what the operation in one step would have left, but for lock-free changes - or it is
      refused and leaves nothing. */
  lemma WriteBackDrifts(cfg: Config, s: Store, t: Store, c: Caller, op: Op)
    requires Shaped(s) && Drifted(s, t) && Enabled(cfg, s, op) && !op.OpReport?
    ensures WriteBack(cfg, s, t, c, op) == t || Drifted(Next(cfg, s, c, op), WriteBack(cfg, s, t, c, op))
  {
    if OutcomeOf(cfg, s, c, op).Ok? {
      assert forall id :: id in s ==> OwnShape(s[id]);
      DriftBudgets(s, t);
      if op.OpUpdate? { BackUpdate(cfg, s, t, c, op.id, op.update); }
      else if op.OpMove? { BackMove(cfg, s, t, c, op.id, op.target); }
      else if op.OpApprove? { BackApprove(cfg, s, t, c, op.id, op.approve); }
      else if op.OpReject? || op.OpRelease? || op.OpTransfer? { BackChanges(cfg, s, t, c, op); }
      else if op.OpDelete? || op.OpRewrite? || op.OpGrantRoot? { BackWhole(cfg, s, t, c, op); }
      else { BackCopies(cfg, s, t, c, op); }
    }
  }

  // ── Runs ────────────────────────────────────────────────────────────────────

  ghost function AfterReports(s: Store, ws: seq<Report>): Store {
    if ws == [] then s else ApplyReport(AfterReports(s, ws[..|ws| - 1]), ws[|ws| - 1])
  }

  /** New imports come under identifiers nobody had or gets again. */
  predicate Unseen(s: Store, ws: seq<Report>) {
    && (forall i :: 0 <= i < |ws| && ws[i].AddImport? ==> ws[i].id !in s)
    && (forall i, j :: 0 <= i < j < |ws| && ws[i].AddImport? && ws[j].AddImport? ==> ws[i].id != ws[j].id)
  }

  /** Whatever is there after the reports was there before or was imported by one of them. */
  lemma {:induction false} CameFrom(s: Store, ws: seq<Report>, id: Id)
    requires id in AfterReports(s, ws)
    ensures id in s || exists i :: 0 <= i < |ws| && ws[i].AddImport? && ws[i].id == id
  {
    if ws != [] {
      var before, w := AfterReports(s, ws[..|ws| - 1]), ws[|ws| - 1];
      if id in before {
        CameFrom(s, ws[..|ws| - 1], id);
        if id !in s {
          var i :| 0 <= i < |ws| - 1 && ws[..|ws| - 1][i].AddImport? && ws[..|ws| - 1][i].id == id;
          assert ws[i].AddImport? && ws[i].id == id;
        }
      }
    }
  }

  /** The last of the reports finds its identifier free, in every state before. */
  lemma LastUnseen(s: Store, ws: seq<Report>, k: nat)
    requires ws != [] && Unseen(s, ws) && k < |ws| && ws[|ws| - 1].AddImport?
    ensures ws[|ws| - 1].id !in AfterReports(s, ws[..k])
  {
    assert forall i :: 0 <= i < k && ws[..k][i].AddImport? ==> ws[..k][i].id != ws[|ws| - 1].id by {
      assert forall i :: 0 <= i < k ==> ws[..k][i] == ws[i];
    }
    if ws[|ws| - 1].id in AfterReports(s, ws[..k]) {
      CameFrom(s, ws[..k], ws[|ws| - 1].id);
    }
  }

  lemma DriftNothing(s: Store)
    requires Shaped(s)
    ensures Drifted(s, s)
  {
    forall id ensures DriftAt(s, s, id) {
      if id in s { assert OwnShape(s[id]); }
    }
  }

  lemma {:induction false} ReportsShaped(s: Store, ws: seq<Report>)
    requires Shaped(s) && Unseen(s, ws)
    ensures Shaped(AfterReports(s, ws))
  {
    if ws != [] {
      ReportsShaped(s, ws[..|ws| - 1]);
      if ws[|ws| - 1].AddImport? { LastUnseen(s, ws, |ws| - 1); }
      ShapeReport(AfterReports(s, ws[..|ws| - 1]), ws[|ws| - 1]);
    }
  }

  /** From any state on, the rest of the reports are lock-free writes. */
  lemma {:induction false} ReportsDrift(s: Store, ws: seq<Report>, k: nat)
    requires Shaped(s) && Unseen(s, ws) && k <= |ws|
    ensures Drifted(AfterReports(s, ws[..k]), AfterReports(s, ws))
    decreases |ws| - k, |ws|
  {
    ReportsShaped(s, ws[..k]);
    if k == |ws| {
      assert ws[..k] == ws;
      DriftNothing(AfterReports(s, ws));
    } else {
      var most := ws[..|ws| - 1];
      assert most[..k] == ws[..k];
      ReportsDrift(s, most, k);
      LastDrifts(s, ws, k);
    }
  }

  lemma LastDrifts(s: Store, ws: seq<Report>, k: nat)
    requires Shaped(s) && Unseen(s, ws) && k < |ws|
    requires Drifted(AfterReports(s, ws[..k]), AfterReports(s, ws[..|ws| - 1]))
    ensures Drifted(AfterReports(s, ws[..k]), AfterReports(s, ws))
  {
    var u, before, w := AfterReports(s, ws[..k]), AfterReports(s, ws[..|ws| - 1]), ws[|ws| - 1];
    ReportsShaped(s, ws[..|ws| - 1]);
    if w.AddImport? {
      LastUnseen(s, ws, k);
      LastUnseen(s, ws, |ws| - 1);
    }
    DriftReport(before, w);
    DriftTransitive(u, before, ApplyReport(before, w));
  }

  /** One turn of the lock: what is reported after the node is read, what is reported after the checks. */
  datatype Turn = Turn(cfg: Config, caller: Caller, op: Op, beforeCheck: seq<Report>, beforeWrite: seq<Report>)

  ghost function Checked(s: Store, turn: Turn): Store {
    Seen(s, AfterReports(s, turn.beforeCheck), turn.op)
  }

  ghost function AtWrite(s: Store, turn: Turn): Store {
    AfterReports(AfterReports(s, turn.beforeCheck), turn.beforeWrite)
  }

  ghost function TurnEnd(s: Store, turn: Turn): Store {
    WriteBack(turn.cfg, Checked(s, turn), AtWrite(s, turn), turn.caller, turn.op)
  }

  ghost predicate LegalTurn(cfg: Config, s: Store, turn: Turn, step: (Store, Op) -> bool) {
    && SameKinds(cfg, turn.cfg) && !turn.op.OpReport?
    && Unseen(s, turn.beforeCheck + turn.beforeWrite)
    && Enabled(turn.cfg, Checked(s, turn), turn.op) && step(Checked(s, turn), turn.op)
  }

  lemma {:induction false} ReportsJoin(s: Store, ws: seq<Report>, vs: seq<Report>)
    ensures AfterReports(s, ws + vs) == AfterReports(AfterReports(s, ws), vs)
  {
    if vs == [] {
      assert ws + vs == ws;
    } else {
      assert (ws + vs)[..|ws + vs| - 1] == ws + vs[..|vs| - 1];
      ReportsJoin(s, ws, vs[..|vs| - 1]);
    }
  }

  /** What the checks see and what is there at the write are the read store after lock-free writes. */
  lemma CheckedDrifts(s: Store, turn: Turn)
    requires Shaped(s) && Unseen(s, turn.beforeCheck + turn.beforeWrite)
    ensures Drifted(s, Checked(s, turn)) && Drifted(s, AtWrite(s, turn))
    ensures Drifted(Checked(s, turn), AtWrite(s, turn))
  {
    var all := turn.beforeCheck + turn.beforeWrite;
    var k := |turn.beforeCheck|;
    assert all[..k] == turn.beforeCheck && all[..0] == [] && turn.beforeCheck[..0] == [];
    ReportsJoin(s, turn.beforeCheck, turn.beforeWrite);
    assert Unseen(s, turn.beforeCheck) by { assert forall i :: 0 <= i < k ==> all[i] == turn.beforeCheck[i]; }
    ReportsDrift(s, turn.beforeCheck, 0);
    ReportsDrift(s, all, 0);
    ReportsDrift(s, all, k);
    SeenDrifts(s, AfterReports(s, turn.beforeCheck), AtWrite(s, turn), turn.op);
  }

  lemma SeenDrifts(s: Store, u: Store, w: Store, op: Op)
    requires Shaped(s) && Drifted(s, u) && Drifted(s, w) && Drifted(u, w)
    ensures Drifted(s, Seen(s, u, op)) && Drifted(Seen(s, u, op), w)
  {
    var v := Seen(s, u, op);
    DriftNothing(s);
    forall id ensures DriftAt(s, v, id) && DriftAt(v, w, id) {
      assert DriftAt(s, s, id) && DriftAt(s, u, id) && DriftAt(s, w, id) && DriftAt(u, w, id);
    }
  }

  /** A turn of the lock keeps every budget within its limit, whatever is reported in between. */
  lemma TurnSafe(cfg: Config, s: Store, turn: Turn)
    requires Off(cfg) && Safe(cfg, s) && LegalTurn(cfg, s, turn, Careful)
    ensures Safe(cfg, TurnEnd(s, turn))
  {
    CheckedDrifts(s, turn);
    var v, w := Checked(s, turn), AtWrite(s, turn);
    DriftSafe(cfg, s, v);
    DriftSafe(cfg, s, w);
    SafeElsewhere(cfg, turn.cfg, v);
    SafeNext(turn.cfg, v, turn.caller, turn.op);
    WriteBackDrifts(turn.cfg, v, w, turn.caller, turn.op);
    var a := Next(turn.cfg, v, turn.caller, turn.op);
    SafeElsewhere(turn.cfg, cfg, a);
    if Drifted(a, TurnEnd(s, turn)) { DriftSafe(cfg, a, TurnEnd(s, turn)); }
  }

  ghost function AfterTurns(s: Store, turns: seq<Turn>): Store {
    if turns == [] then s else TurnEnd(AfterTurns(s, turns[..|turns| - 1]), turns[|turns| - 1])
  }

  /** A run of turns; step further restricts the operations. */
  ghost predicate LegalTurns(cfg: Config, s: Store, turns: seq<Turn>, step: (Store, Op) -> bool) {
    turns == []
    || (LegalTurns(cfg, s, turns[..|turns| - 1], step)
        && LegalTurn(cfg, AfterTurns(s, turns[..|turns| - 1]), turns[|turns| - 1], step))
  }

  lemma TurnShaped(cfg: Config, s: Store, turn: Turn, step: (Store, Op) -> bool)
    requires Shaped(s) && LegalTurn(cfg, s, turn, step)
    ensures Shaped(TurnEnd(s, turn))
  {
    CheckedDrifts(s, turn);
    var v, w := Checked(s, turn), AtWrite(s, turn);
    DriftShaped(s, v);
    DriftShaped(s, w);
    ShapeNext(turn.cfg, v, turn.caller, turn.op);
    WriteBackDrifts(turn.cfg, v, w, turn.caller, turn.op);
    var a := Next(turn.cfg, v, turn.caller, turn.op);
    if Drifted(a, TurnEnd(s, turn)) { DriftShaped(a, TurnEnd(s, turn)); }
  }

  /** Whatever is done and reported, the tree stays a tree. */
  lemma {:induction false} TurnsShaped(cfg: Config, s: Store, turns: seq<Turn>, step: (Store, Op) -> bool)
    requires Shaped(s) && LegalTurns(cfg, s, turns, step)
    ensures Shaped(AfterTurns(s, turns))
  {
    if turns != [] {
      TurnsShaped(cfg, s, turns[..|turns| - 1], step);
      TurnShaped(cfg, AfterTurns(s, turns[..|turns| - 1]), turns[|turns| - 1], step);
    }
  }

  /** Capacity safety with the providers running beside it: reads, checks and writes of the lock holder are
      separate steps, and reports, archivings, removals, imports, adoptions, attribute edits and deletion
      marks come between them in any number and order. */
  lemma {:induction false} InterleavedSafety(cfg: Config, s: Store, turns: seq<Turn>)
    requires Off(cfg) && Safe(cfg, s) && LegalTurns(cfg, s, turns, Careful)
    ensures Safe(cfg, AfterTurns(s, turns))
  {
    if turns != [] {
      InterleavedSafety(cfg, s, turns[..|turns| - 1]);
      TurnSafe(cfg, AfterTurns(s, turns[..|turns| - 1]), turns[|turns| - 1]);
    }
  }
}
