/** A rejected proposal leaves no trace: what was approved stays beside whatever is proposed
    (RequestChange and RejectNode in internal/core/tree/op_lifecycle.go). */
module Proposals {
  import opened Model
  import opened Chains
  import opened Charges
  import opened Rules
  import opened Steps
  import opened Reports
  import opened Runs
  import opened Shape
  import opened Lifetimes
  import opened Terms
  import opened Safety
  import opened Statuses

  /** An operation that neither decides on node id in its favour, nor edits, moves, releases or deletes it, nor
      carries an end or a term down to it. */
  ghost predicate Spares(cfg: Config, t: Store, op: Op, id: Id)
    requires id in t
  {
    match op
    case OpCreate(_, _) => true
    case OpUpdate(x, req) => x != id && (LiveBelow(t, x, id) ==> req.end.None? && req.maxTerm.None?)
    case OpChange(x, req) => x == id && t[id].kind == Project ==> LeafVerdict(cfg, t, t[id], req) != Direct
    case OpApprove(x, _) => x != id && !LiveBelow(t, x, id)
    case OpReject(_) => true
    case OpRelease(x, _, _) => x != id
    case OpDelete(x) => id !in Closure(t, x)
    case OpMove(x, _) => x != id && !LiveBelow(t, x, id)
    case OpTransfer(_, _) => true
    case OpPromote(_, _) => true
    case OpAllocate(_, _, _) => true
    case OpRewrite(w) => !Touches(w, t[id].limit)
    case OpGrantRoot(_) => id != ROOT
    case OpReport(_) => true
  }

  /** What was last approved is still there, with or without a proposal beside it. */
  predicate AsApproved(m: Node, n: Node) {
    Active(n.status) && n.limit == m.limit && n.end == m.end && n.members == m.members
  }

  // ── One step ────────────────────────────────────────────────────────────────

  /** A cascade leaves what is not below its top alone. */
  lemma FarFromEnds(u: Store, top: Id, end: Time, id: Id)
    requires id in u && !LiveBelow(u, top, id)
    ensures CascadeEnds(u, top, end)[id] == u[id] && !LiveBelow(CascadeEnds(u, top, end), top, id)
  {
    CascadeSees(u, CascadeEnds(u, top, end), top);
  }

  lemma FarFromTerms(u: Store, top: Id, days: int, now: Time, id: Id)
    requires id in u && !LiveBelow(u, top, id)
    ensures CascadeTerms(u, top, days, now)[id] == u[id]
  {
  }

  lemma FarFromCarriedDown(u: Store, top: Id, req: UpdateRequest, now: Time, id: Id)
    requires id in u && (LiveBelow(u, top, id) ==> req.end.None? && req.maxTerm.None?)
    ensures id in CarriedDown(u, top, req, now) && CarriedDown(u, top, req, now)[id] == u[id]
  {
    if !PanicsEarly(req) && !LiveBelow(u, top, id) {
      var t := u;
      if req.end.Some? {
        FarFromEnds(u, top, req.end.value, id);
        t := CascadeEnds(u, top, req.end.value);
      }
      if req.maxTerm.Some? && !req.clearMaxTerm { FarFromTerms(t, top, req.maxTerm.value, now, id); }
    }
  }

  lemma FarFromCarried(u: Store, top: Id, bound: Option<Time>, now: Time, id: Id)
    requires id in u && top in u && !LiveBelow(u, top, id)
    ensures id in MoveCarried(u, top, bound, now) && MoveCarried(u, top, bound, now)[id] == u[id]
  {
    if u[top].kind == Budget {
      var t := u;
      if bound.Some? {
        FarFromEnds(u, top, bound.value, id);
        t := CascadeEnds(u, top, bound.value);
      }
      if u[top].maxTerm.Some? { FarFromTerms(t, top, u[top].maxTerm.value, now, id); }
    }
  }

  lemma SparedByUpdate(cfg: Config, t: Store, c: Caller, x: Id, req: UpdateRequest, id: Id)
    requires Shaped(t) && id in t && Update(cfg, t, c, x, req).Ok? && Spares(cfg, t, OpUpdate(x, req), id)
    ensures var u := Update(cfg, t, c, x, req).value; id in u && u[id] == t[id]
  {
    UpdateFacts(cfg, t, c, x, req);
    EditedInPlace(cfg, t, x, req);
    var u := Put(t, x, Edited(t, t[x], Above(t, t[x]), req));
    InPlaceBudgets(t, u);
    FarFromCarriedDown(u, x, req, c.now, id);
  }

  lemma SparedByApprove(cfg: Config, t: Store, c: Caller, x: Id, req: ApproveRequest, id: Id)
    requires Shaped(t) && id in t && Approve(cfg, t, c, x, req).Ok? && Spares(cfg, t, OpApprove(x, req), id)
    ensures var u := Approve(cfg, t, c, x, req).value; id in u && u[id] == t[id]
  {
    ApproveFacts(cfg, t, c, x, req);
    var d := Decided(t, t[x], req, c.now);
    InPlaceBudgets(t, Put(t, x, d));
    if d.end.Some? { FarFromEnds(Put(t, x, d), x, d.end.value, id); }
  }

  /** What hung elsewhere does not hang below a budget because that one moved. */
  lemma StaysElsewhere(t: Store, x: Id, target: Id, now: Time, id: Id)
    requires Shaped(t) && x in t && target in t && x != ROOT && x != UNASSIGNED
    requires t[target].kind == Budget && t[target].status == Approved && x !in Chain(Budgets(t), target)
    requires id in t && id != x && !LiveBelow(t, x, id) && t[x].kind == Budget
    ensures !LiveBelow(MoveWritten(t, x, target, now), x, id)
  {
    ShapeMoved(t, x, target, now);
    MoveBudget(Budgets(t), x, target);
    MovedNodeKeeps(t, t[x], target, now);
    assert Budgets(MoveWritten(t, x, target, now)) == Budgets(t)[x := Some(target)];
    assert Hangs(t, t[id]);
    if t[id].parent.Some? && Live(t[id].status) {
      assert x !in Chain(Budgets(t), t[id].parent.value);
    }
  }

  lemma SparedByMove(cfg: Config, t: Store, c: Caller, x: Id, target: Id, id: Id)
    requires Shaped(t) && id in t && Move(cfg, t, c, x, target).Ok? && Spares(cfg, t, OpMove(x, target), id)
    ensures var u := Move(cfg, t, c, x, target).value; id in u && u[id] == t[id]
  {
    MoveFacts(cfg, t, c, x, target);
    MovedNodeKeeps(t, t[x], target, c.now);
    if t[x].kind == Budget {
      StaysElsewhere(t, x, target, c.now, id);
      FarFromCarried(MoveWritten(t, x, target, c.now), x, MoveBound(t, t[x], target, c.now), c.now, id);
    }
  }

  lemma SparedByAsks(cfg: Config, t: Store, c: Caller, op: Op, id: Id)
    requires Shaped(t) && id in t && Active(t[id].status) && Enabled(cfg, t, op) && Spares(cfg, t, op, id)
    requires OutcomeOf(cfg, t, c, op).Ok? && Asks(op)
    ensures id in Next(cfg, t, c, op) && AsApproved(t[id], Next(cfg, t, c, op)[id])
  {
    match op
    case OpCreate(x, req) => var n := CreatedNode(cfg, t, c, x, req);
    case OpUpdate(x, req) => SparedByUpdate(cfg, t, c, x, req, id);
    case OpChange(x, req) => var n := ChangedNode(cfg, t, c, x, req);
  }

  lemma SparedByDecides(cfg: Config, t: Store, c: Caller, op: Op, id: Id)
    requires Shaped(t) && id in t && Active(t[id].status) && Spares(cfg, t, op, id)
    requires OutcomeOf(cfg, t, c, op).Ok? && Decides(op)
    ensures id in Next(cfg, t, c, op) && AsApproved(t[id], Next(cfg, t, c, op)[id])
  {
    match op
    case OpApprove(x, req) => SparedByApprove(cfg, t, c, x, req, id);
    case OpReject(x) =>
    case OpRelease(x, d, e) =>
    case OpDelete(x) =>
  }

  lemma SparedByTransfers(cfg: Config, t: Store, c: Caller, op: Op, id: Id)
    requires Shaped(t) && id in t && Active(t[id].status) && Spares(cfg, t, op, id)
    requires OutcomeOf(cfg, t, c, op).Ok? && (op.OpTransfer? || Draws(op))
    ensures id in Next(cfg, t, c, op) && AsApproved(t[id], Next(cfg, t, c, op)[id])
  {
    match op
    case OpTransfer(x, owner) =>
    case OpPromote(x, req) => PromoteFacts(cfg, t, c, x, req);
    case OpAllocate(x, b, q) => AllocateFacts(cfg, t, c, x, b, q);
  }

  lemma SparedByReport(t: Store, w: Report, id: Id)
    requires id in t && Active(t[id].status) && ReportEnabled(t, w)
    ensures id in ApplyReport(t, w) && AsApproved(t[id], ApplyReport(t, w)[id])
  {
  }

  lemma SparedKept(cfg: Config, t: Store, c: Caller, op: Op, id: Id)
    requires Shaped(t) && id in t && Active(t[id].status) && Enabled(cfg, t, op) && Spares(cfg, t, op, id)
    ensures id in Next(cfg, t, c, op) && AsApproved(t[id], Next(cfg, t, c, op)[id])
  {
    if OutcomeOf(cfg, t, c, op).Ok? {
      if Asks(op) { SparedByAsks(cfg, t, c, op, id); }
      else if Decides(op) { SparedByDecides(cfg, t, c, op, id); }
      else if op.OpMove? { SparedByMove(cfg, t, c, op.id, op.target, id); }
      else if op.OpTransfer? || Draws(op) { SparedByTransfers(cfg, t, c, op, id); }
      else if op.OpReport? { SparedByReport(t, op.report, id); }
    }
  }

  // ── Runs ────────────────────────────────────────────────────────────────────

  /** A run in which whatever else happens, nothing takes effect on the node. */
  ghost predicate Spared(s: Store, run: seq<Event>, id: Id) {
    run == [] ||
    var e, t := run[|run| - 1], Final(s, run[..|run| - 1]);
    Spared(s, run[..|run| - 1], id) && id in t && Spares(e.cfg, t, e.op, id)
  }

  lemma {:induction false} ApprovedStays(cfg: Config, s: Store, run: seq<Event>, id: Id)
    requires Shaped(s) && Legal(cfg, s, run, AnyStep) && Spared(s, run, id) && id in s && Active(s[id].status)
    ensures id in Final(s, run) && AsApproved(s[id], Final(s, run)[id])
  {
    if run != [] {
      var e, before := run[|run| - 1], run[..|run| - 1];
      ApprovedStays(cfg, s, before, id);
      ShapedRun(cfg, s, before, AnyStep);
      SparedKept(e.cfg, Final(s, before), e.caller, e.op, id);
    }
  }

  /** However often something else was proposed for the node, amended or rejected, and whatever was done and
      reported elsewhere: once the last proposal is rejected the node stands as it was approved, with
      nothing waiting. */
  lemma RejectionRestores(cfg: Config, s: Store, run: seq<Event>, c: Caller, id: Id)
    requires Shaped(s) && Legal(cfg, s, run, AnyStep) && Spared(s, run, id) && id in s && Active(s[id].status)
    requires Reject(Final(s, run), c, id).Ok?
    ensures var n := Reject(Final(s, run), c, id).value[id];
            && n.status == Approved && n.pending.None?
            && n.limit == s[id].limit && n.end == s[id].end && n.members == s[id].members
  {
    ApprovedStays(cfg, s, run, id);
  }
}
