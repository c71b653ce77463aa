/** Approving what was seen: the revision of a node is how many history entries it ever had, every
    operation on a node raises it, and capping the history keeps it (CurrentRevision and CapHistory in
    internal/core/model/model.go, checkRevision in internal/core/tree/op_lifecycle.go). */
module Revisions {
  import opened Model
  import opened Chains
  import opened Charges
  import opened Rules
  import opened Steps
  import opened Reports
  import opened Runs
  import opened Shape
  import opened Lifetimes
  import opened Safety

  /** n is m but for what the providers measured and how much of the history is kept. */
  predicate SameShown(m: Node, n: Node) {
    n == m.(side := n.side, log := n.log)
  }

  /** n is a later state of m: with more history, or the same. */
  predicate Grown(m: Node, n: Node) {
    Revision(n) >= Revision(m) && (Revision(n) == Revision(m) ==> SameShown(m, n))
  }

  lemma GrownOn(m: Node, n: Node, o: Node)
    requires Grown(m, n) && Grown(n, o)
    ensures Grown(m, o)
  {
  }

  /** Every node that stays is a later state of what it was. */
  ghost predicate AllGrown(s: Store, t: Store) {
    forall id :: id in s && id in t && s[id].status != Imported ==> GrownAt(s, t, id)
  }

  ghost predicate GrownAt(s: Store, t: Store, id: Id)
    requires id in s && id in t
  {
    Grown(s[id], t[id]) && t[id].status != Imported
  }

  lemma GrownTransitive(s: Store, t: Store, u: Store)
    requires AllGrown(s, t) && AllGrown(t, u) && s.Keys <= t.Keys
    ensures AllGrown(s, u)
  {
    forall id | id in s && id in u && s[id].status != Imported ensures GrownAt(s, u, id) {
      assert GrownAt(s, t, id) && GrownAt(t, u, id);
      GrownOn(s[id], t[id], u[id]);
    }
  }

  lemma GrownPut(s: Store, id: Id, n: Node)
    requires id in s && s[id].status != Imported ==> Grown(s[id], n) && n.status != Imported
    ensures AllGrown(s, Put(s, id, n)) && AllGrown(s, s[id := n])
  {
  }

  lemma GrownCascades(s: Store, top: Id, end: Time, days: int, now: Time)
    ensures AllGrown(s, CascadeEnds(s, top, end)) && AllGrown(s, CascadeTerms(s, top, days, now))
  {
    forall id | id in s
      ensures GrownAt(s, CascadeEnds(s, top, end), id) || s[id].status == Imported
      ensures GrownAt(s, CascadeTerms(s, top, days, now), id) || s[id].status == Imported
    {
      ShortenedGrown(s[id], end);
      ShortenedGrown(s[id], TermEnd(now, days));
      TermGrown(s[id], days);
    }
  }

  lemma ShortenedGrown(n: Node, end: Time)
    ensures Grown(n, ShortenEnd(n, end)) && ShortenEnd(n, end).status == n.status
  {
  }

  lemma TermGrown(n: Node, days: int)
    ensures Grown(n, ShortenTerm(n, days)) && ShortenTerm(n, days).status == n.status
  {
  }

  lemma GrownCarriedDown(s: Store, id: Id, req: UpdateRequest, now: Time)
    ensures AllGrown(s, CarriedDown(s, id, req, now)) && CarriedDown(s, id, req, now).Keys == s.Keys
  {
    var t := s;
    if !PanicsEarly(req) && req.end.Some? {
      GrownCascades(s, id, req.end.value, 0, now);
      t := CascadeEnds(s, id, req.end.value);
    }
    if !PanicsEarly(req) && req.maxTerm.Some? && !req.clearMaxTerm {
      GrownCascades(t, id, 0, req.maxTerm.value, now);
      GrownTransitive(s, t, CascadeTerms(t, id, req.maxTerm.value, now));
    }
  }

  lemma GrownCarried(s: Store, id: Id, bound: Option<Time>, now: Time)
    requires id in s
    ensures AllGrown(s, MoveCarried(s, id, bound, now))
  {
    var t := s;
    if s[id].kind == Budget && bound.Some? {
      GrownCascades(s, id, bound.value, 0, now);
      t := CascadeEnds(s, id, bound.value);
    }
    if s[id].kind == Budget && s[id].maxTerm.Some? {
      GrownCascades(t, id, 0, s[id].maxTerm.value, now);
      GrownTransitive(s, t, CascadeTerms(t, id, s[id].maxTerm.value, now));
    }
  }

  // ── Operations ──────────────────────────────────────────────────────────────

  lemma GrownUpdate(cfg: Config, s: Store, c: Caller, id: Id, req: UpdateRequest)
    requires Update(cfg, s, c, id, req).Ok?
    ensures AllGrown(s, Update(cfg, s, c, id, req).value)
  {
    UpdateFacts(cfg, s, c, id, req);
    var e := Edited(s, s[id], Above(s, s[id]), req);
    GrownPut(s, id, e);
    GrownCarriedDown(Put(s, id, e), id, req, c.now);
    GrownTransitive(s, Put(s, id, e), CarriedDown(Put(s, id, e), id, req, c.now));
  }

  lemma GrownCreate(cfg: Config, s: Store, c: Caller, id: Id, req: CreateRequest)
    requires id !in s && Create(cfg, s, c, id, req).Ok?
    ensures AllGrown(s, Create(cfg, s, c, id, req).value)
  {
    var n := CreatedNode(cfg, s, c, id, req);
    GrownPut(s, id, n);
  }

  lemma GrownChange(cfg: Config, s: Store, c: Caller, id: Id, req: ChangeRequest)
    requires RequestChange(cfg, s, c, id, req).Ok?
    ensures AllGrown(s, RequestChange(cfg, s, c, id, req).value)
  {
    var n := ChangedNode(cfg, s, c, id, req);
    GrownPut(s, id, n);
  }

  lemma GrownApprove(cfg: Config, s: Store, c: Caller, id: Id, req: ApproveRequest)
    requires Approve(cfg, s, c, id, req).Ok?
    ensures AllGrown(s, Approve(cfg, s, c, id, req).value)
  {
    ApproveFacts(cfg, s, c, id, req);
    var d := Decided(s, s[id], req, c.now);
    GrownPut(s, id, d);
    if s[id].kind == Budget && d.end.Some? {
      GrownCascades(Put(s, id, d), id, d.end.value, 0, c.now);
      GrownTransitive(s, Put(s, id, d), CascadeEnds(Put(s, id, d), id, d.end.value));
    }
  }

  lemma GrownMove(cfg: Config, s: Store, c: Caller, id: Id, target: Id)
    requires Move(cfg, s, c, id, target).Ok?
    ensures AllGrown(s, Move(cfg, s, c, id, target).value)
  {
    MoveFacts(cfg, s, c, id, target);
    MovedGrown(s, s[id], target, c.now);
    GrownPut(s, id, MovedNode(s, s[id], target, c.now));
    GrownCarried(MoveWritten(s, id, target, c.now), id, MoveBound(s, s[id], target, c.now), c.now);
    GrownTransitive(s, MoveWritten(s, id, target, c.now), Move(cfg, s, c, id, target).value);
  }

  lemma MovedGrown(s: Store, n: Node, target: Id, now: Time)
    ensures Grown(n, MovedNode(s, n, target, now)) && MovedNode(s, n, target, now).status == n.status
  {
  }

  lemma GrownReport(s: Store, w: Report)
    requires ReportEnabled(s, w)
    ensures AllGrown(s, ApplyReport(s, w))
  {
    if w.AddImport? {
      GrownPut(s, w.id, ImportedNode(w.limit, w.members));
    } else if w.id in s && Reported(s[w.id], w).Some? {
      if s[w.id].status != Imported { ReportedGrown(s[w.id], w); }
      GrownPut(s, w.id, Reported(s[w.id], w).value);
    }
  }

  lemma ReportedGrown(n: Node, w: Report)
    requires Reported(n, w).Some? && n.status != Imported
    ensures Grown(n, Reported(n, w).value) && Reported(n, w).value.status != Imported
  {
  }

  lemma GrownPlainOps(cfg: Config, s: Store, c: Caller, op: Op)
    requires OutcomeOf(cfg, s, c, op).Ok? && (op.OpReject? || op.OpRelease? || op.OpDelete? || op.OpTransfer?)
    ensures AllGrown(s, Next(cfg, s, c, op))
  {
    match op
    case OpReject(id) => GrownPut(s, id, Refused(s[id]));
    case OpRelease(id, d, e) => GrownPut(s, id, ReleasedNode(s[id], d));
    case OpTransfer(id, owner) => GrownPut(s, id, HandedOver(s[id], owner));
    case OpDelete(id) =>
  }

  lemma GrownDraws(cfg: Config, s: Store, c: Caller, op: Op)
    requires OutcomeOf(cfg, s, c, op).Ok? && Draws(op)
    ensures AllGrown(s, Next(cfg, s, c, op))
  {
    match op
    case OpPromote(id, req) =>
      PromoteFacts(cfg, s, c, id, req);
      GrownPut(s, id, PromotedNode(s, s[id], req, c.now));
    case OpAllocate(id, b, q) =>
      AllocateFacts(cfg, s, c, id, b, q);
      GrownPut(s, id, Allocated(s[id], b, NonZero(q)));
  }

  /** Steps that leave a trace: all but the rewrites of the catalogue. */
  predicate Traced(op: Op) {
    !op.OpRewrite? && !op.OpGrantRoot?
  }

  /** A step shows: the revision rises, or all that a decision is made on stays. */
  lemma RevisionNext(cfg: Config, s: Store, c: Caller, op: Op)
    requires Enabled(cfg, s, op) && Traced(op)
    ensures AllGrown(s, Next(cfg, s, c, op))
  {
    if OutcomeOf(cfg, s, c, op).Ok? {
      match op
      case OpCreate(id, req) => GrownCreate(cfg, s, c, id, req);
      case OpUpdate(id, req) => GrownUpdate(cfg, s, c, id, req);
      case OpChange(id, req) => GrownChange(cfg, s, c, id, req);
      case OpApprove(id, req) => GrownApprove(cfg, s, c, id, req);
      case OpMove(id, target) => GrownMove(cfg, s, c, id, target);
      case OpReport(w) => GrownReport(s, w);
      case OpPromote(_, _) => GrownDraws(cfg, s, c, op);
      case OpAllocate(_, _, _) => GrownDraws(cfg, s, c, op);
      case OpReject(_) => GrownPlainOps(cfg, s, c, op);
      case OpRelease(_, _, _) => GrownPlainOps(cfg, s, c, op);
      case OpTransfer(_, _) => GrownPlainOps(cfg, s, c, op);
      case OpDelete(_) => GrownPlainOps(cfg, s, c, op);
    }
  }

  // ── Every operation shows ───────────────────────────────────────────────────

  /** What is written has more history, and what is carried down afterwards takes none away. */
  lemma RaisedPut(s: Store, id: Id, n: Node, t: Store)
    requires id in s && Revision(n) > Revision(s[id]) && n.status != Imported
    requires id in t && AllGrown(Put(s, id, n), t)
    ensures Revision(t[id]) > Revision(s[id])
  {
    assert GrownAt(Put(s, id, n), t, id);
  }

  lemma RaisedUpdate(cfg: Config, s: Store, c: Caller, id: Id, req: UpdateRequest)
    requires Update(cfg, s, c, id, req).Ok?
    ensures id in s && id in Update(cfg, s, c, id, req).value
    ensures Revision(Update(cfg, s, c, id, req).value[id]) > Revision(s[id])
  {
    UpdateFacts(cfg, s, c, id, req);
    var e := Edited(s, s[id], Above(s, s[id]), req);
    GrownCarriedDown(Put(s, id, e), id, req, c.now);
    RaisedPut(s, id, e, CarriedDown(Put(s, id, e), id, req, c.now));
  }

  lemma RaisedApprove(cfg: Config, s: Store, c: Caller, id: Id, req: ApproveRequest)
    requires Approve(cfg, s, c, id, req).Ok?
    ensures id in s && id in Approve(cfg, s, c, id, req).value
    ensures Revision(Approve(cfg, s, c, id, req).value[id]) > Revision(s[id])
  {
    ApproveFacts(cfg, s, c, id, req);
    var d := Decided(s, s[id], req, c.now);
    if s[id].kind == Budget && d.end.Some? {
      GrownCascades(Put(s, id, d), id, d.end.value, 0, c.now);
      RaisedPut(s, id, d, CascadeEnds(Put(s, id, d), id, d.end.value));
    }
  }

  lemma RaisedMove(cfg: Config, s: Store, c: Caller, id: Id, target: Id)
    requires Move(cfg, s, c, id, target).Ok?
    ensures id in s && id in Move(cfg, s, c, id, target).value
    ensures Revision(Move(cfg, s, c, id, target).value[id]) > Revision(s[id])
  {
    MoveFacts(cfg, s, c, id, target);
    MovedRaised(s, s[id], target, c.now);
    GrownCarried(MoveWritten(s, id, target, c.now), id, MoveBound(s, s[id], target, c.now), c.now);
    MoveCarriedKeeps(MoveWritten(s, id, target, c.now), id, MoveBound(s, s[id], target, c.now), c.now);
    RaisedPut(s, id, MovedNode(s, s[id], target, c.now), Move(cfg, s, c, id, target).value);
  }

  lemma MoveCarriedKeeps(s: Store, id: Id, bound: Option<Time>, now: Time)
    requires id in s
    ensures id in MoveCarried(s, id, bound, now)
  {
  }

  lemma MovedRaised(s: Store, n: Node, target: Id, now: Time)
    ensures var m := MovedNode(s, n, target, now); Revision(m) > Revision(n) && m.status == n.status
  {
  }

  lemma RaisedPlain(cfg: Config, s: Store, c: Caller, op: Op)
    requires OutcomeOf(cfg, s, c, op).Ok? && (op.OpReject? || op.OpRelease? || op.OpTransfer?)
    ensures op.id in s && op.id in Next(cfg, s, c, op)
    ensures Revision(Next(cfg, s, c, op)[op.id]) > Revision(s[op.id])
  {
  }

  lemma RaisedDraws(cfg: Config, s: Store, c: Caller, op: Op)
    requires OutcomeOf(cfg, s, c, op).Ok? && Draws(op)
    ensures op.id in s && op.id in Next(cfg, s, c, op)
    ensures Revision(Next(cfg, s, c, op)[op.id]) > Revision(s[op.id])
  {
    match op
    case OpPromote(id, req) => PromoteFacts(cfg, s, c, id, req);
    case OpAllocate(id, b, q) => AllocateFacts(cfg, s, c, id, b, q);
  }

  /** The operations that leave the node they are about in place. */
  predicate WritesNode(op: Op) {
    !op.OpCreate? && !op.OpDelete? && !op.OpRewrite? && !op.OpGrantRoot? && !op.OpReport?
  }

  /** Every accepted operation raises the revision of the node it is about. */
  lemma OperationRaises(cfg: Config, s: Store, c: Caller, op: Op)
    requires OutcomeOf(cfg, s, c, op).Ok? && WritesNode(op)
    ensures op.id in s && op.id in Next(cfg, s, c, op)
    ensures Revision(Next(cfg, s, c, op)[op.id]) > Revision(s[op.id])
  {
    match op
    case OpUpdate(id, req) => RaisedUpdate(cfg, s, c, id, req);
    case OpChange(id, req) => var n := ChangedNode(cfg, s, c, id, req);
    case OpApprove(id, req) => RaisedApprove(cfg, s, c, id, req);
    case OpMove(id, target) => RaisedMove(cfg, s, c, id, target);
    case OpPromote(_, _) => RaisedDraws(cfg, s, c, op);
    case OpAllocate(_, _, _) => RaisedDraws(cfg, s, c, op);
    case OpReject(_) => RaisedPlain(cfg, s, c, op);
    case OpRelease(_, _, _) => RaisedPlain(cfg, s, c, op);
    case OpTransfer(_, _) => RaisedPlain(cfg, s, c, op);
  }

  // ── Runs ────────────────────────────────────────────────────────────────────

  /** The node is there all through the run. */
  ghost predicate Present(s: Store, run: seq<Event>, id: Id) {
    id in Final(s, run) && (run == [] || Present(s, run[..|run| - 1], id))
  }

  ghost predicate TracedStep(s: Store, op: Op) {
    Traced(op)
  }

  lemma {:induction false} RevisionRun(cfg: Config, s: Store, run: seq<Event>, id: Id)
    requires Legal(cfg, s, run, TracedStep) && Present(s, run, id) && id in s && s[id].status != Imported
    ensures Grown(s[id], Final(s, run)[id]) && Final(s, run)[id].status != Imported
  {
    if run != [] {
      var e, before := run[|run| - 1], run[..|run| - 1];
      RevisionRun(cfg, s, before, id);
      var t := Final(s, before);
      RevisionNext(e.cfg, t, e.caller, e.op);
      assert GrownAt(t, Final(s, run), id);
      GrownOn(s[id], t[id], Final(s, run)[id]);
    }
  }

  /** Whatever happened in between: an approval that names the revision of a state somebody was shown
      grants the limit and the members shown there, and the end shown there or the earlier one of the
      budgets above. */
  lemma ApprovesWhatWasSeen(cfg: Config, s: Store, run: seq<Event>, c: Caller, id: Id)
    requires Legal(cfg, s, run, TracedStep) && Present(s, run, id) && id in s && s[id].status != Imported
    requires Shaped(s)
    requires Approve(cfg, Final(s, run), c, id, ApproveRequest(Some(Revision(s[id])), None)).Ok?
    ensures var t := Final(s, run);
            var n := Approve(cfg, t, c, id, ApproveRequest(Some(Revision(s[id])), None)).value[id];
            && n.limit == FinalLimit(s[id], ApproveRequest(Some(Revision(s[id])), None))
            && n.members == FinalMembers(s[id])
            && Respects(n.end, AskedEnd(s[id])) && (n.end == AskedEnd(s[id]) || n.end == ApprovalBound(t, t[id], c.now))
  {
    RevisionRun(cfg, s, run, id);
    ShapedRun(cfg, s, run, TracedStep);
    ApprovedAsStored(cfg, Final(s, run), c, id, ApproveRequest(Some(Revision(s[id])), None));
  }

  lemma ApprovedAsStored(cfg: Config, t: Store, c: Caller, id: Id, req: ApproveRequest)
    requires Shaped(t) && Approve(cfg, t, c, id, req).Ok?
    ensures id in t && id in Approve(cfg, t, c, id, req).value && req.expected == Some(Revision(t[id]))
    ensures var n := Approve(cfg, t, c, id, req).value[id];
            && n.limit == FinalLimit(t[id], req) && n.members == FinalMembers(t[id]) && n.status == Approved
            && n.end == FinalEnd(t, t[id], c.now)
  {
    ApproveFacts(cfg, t, c, id, req);
    var d := Decided(t, t[id], req, c.now);
    GrantedInPlace(t, id, d);
  }

  lemma GrantedInPlace(t: Store, id: Id, d: Node)
    requires Shaped(t) && id in t && d.kind == t[id].kind && d.parent == t[id].parent
    ensures !LiveBelow(Put(t, id, d), id, id)
  {
    NotBelowItself(t, id);
    InPlaceBudgets(t, Put(t, id, d));
  }
}
