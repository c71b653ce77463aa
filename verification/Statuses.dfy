/** How statuses run: what is past changing stays so, a rejected proposal leaves no trace, and what the
    root asks for can never be decided (internal/core/tree/service.go, op_lifecycle.go, sync_provider.go). */
module Statuses {
  import opened Model
  import opened Chains
  import opened Charges
  import opened Rules
  import opened Steps
  import opened Reports
  import opened Runs
  import opened Shape
  import opened CapacityTree
  import opened Safety
  import opened Revisions
  import opened Interleaving

  // ── Past changing ───────────────────────────────────────────────────────────

  /** A rejected node stays rejected, a released one released or archived, an archived one archived. */
  predicate Ends(m: Status, n: Status) {
    && (m == Rejected ==> n == Rejected)
    && (m == Released ==> Retired(n))
    && (m == Archived ==> n == Archived)
  }

  ghost predicate AllEnd(s: Store, t: Store) {
    forall id {:trigger t[id]} :: id in s && id in t ==> Ends(s[id].status, t[id].status)
  }

  lemma EndsPut(s: Store, id: Id, n: Node)
    requires id in s ==> Ends(s[id].status, n.status)
    ensures AllEnd(s, Put(s, id, n)) && AllEnd(s, s[id := n])
  {
  }

  lemma EndsCascades(s: Store, top: Id, end: Time, days: int, now: Time)
    ensures CascadeEnds(s, top, end).Keys == s.Keys && CascadeTerms(s, top, days, now).Keys == s.Keys
    ensures forall id :: id in s ==> CascadeEnds(s, top, end)[id].status == s[id].status
    ensures forall id :: id in s ==> CascadeTerms(s, top, days, now)[id].status == s[id].status
  {
  }

  lemma EndsCarriedDown(s: Store, id: Id, req: UpdateRequest, now: Time)
    ensures CarriedDown(s, id, req, now).Keys == s.Keys
    ensures forall x :: x in s ==> CarriedDown(s, id, req, now)[x].status == s[x].status
  {
    var t := s;
    if !PanicsEarly(req) && req.end.Some? {
      EndsCascades(s, id, req.end.value, 0, now);
      t := CascadeEnds(s, id, req.end.value);
    }
    if !PanicsEarly(req) && req.maxTerm.Some? && !req.clearMaxTerm {
      EndsCascades(t, id, 0, req.maxTerm.value, now);
    }
  }

  lemma EndsCarried(s: Store, id: Id, bound: Option<Time>, now: Time)
    requires id in s
    ensures MoveCarried(s, id, bound, now).Keys == s.Keys
    ensures forall x :: x in s ==> MoveCarried(s, id, bound, now)[x].status == s[x].status
  {
    var t := s;
    if s[id].kind == Budget && bound.Some? {
      EndsCascades(s, id, bound.value, 0, now);
      t := CascadeEnds(s, id, bound.value);
    }
    if s[id].kind == Budget && s[id].maxTerm.Some? { EndsCascades(t, id, 0, s[id].maxTerm.value, now); }
  }

  lemma EndsAsks(cfg: Config, s: Store, c: Caller, op: Op)
    requires Enabled(cfg, s, op) && OutcomeOf(cfg, s, c, op).Ok? && Asks(op)
    ensures AllEnd(s, Next(cfg, s, c, op)) && s.Keys <= Next(cfg, s, c, op).Keys
  {
    match op
    case OpCreate(id, req) =>
      var n := CreatedNode(cfg, s, c, id, req);
    case OpUpdate(id, req) =>
      UpdateFacts(cfg, s, c, id, req);
      var e := Edited(s, s[id], Above(s, s[id]), req);
      EndsCarriedDown(Put(s, id, e), id, req, c.now);
    case OpChange(id, req) =>
      var n := ChangedNode(cfg, s, c, id, req);
  }

  lemma EndsApprove(cfg: Config, s: Store, c: Caller, id: Id, req: ApproveRequest)
    requires Approve(cfg, s, c, id, req).Ok?
    ensures AllEnd(s, Approve(cfg, s, c, id, req).value) && s.Keys <= Approve(cfg, s, c, id, req).value.Keys
  {
    ApproveFacts(cfg, s, c, id, req);
    var d := Decided(s, s[id], req, c.now);
    EndsPut(s, id, d);
    if d.end.Some? { EndsCascades(Put(s, id, d), id, d.end.value, 0, c.now); }
  }

  lemma EndsDecides(cfg: Config, s: Store, c: Caller, op: Op)
    requires OutcomeOf(cfg, s, c, op).Ok? && Decides(op)
    ensures AllEnd(s, Next(cfg, s, c, op)) && (!op.OpDelete? ==> s.Keys <= Next(cfg, s, c, op).Keys)
  {
    match op
    case OpApprove(id, req) => EndsApprove(cfg, s, c, id, req);
    case OpReject(id) => EndsPut(s, id, Refused(s[id]));
    case OpRelease(id, d, e) => EndsPut(s, id, ReleasedNode(s[id], d));
    case OpDelete(id) =>
  }

  lemma EndsMove(cfg: Config, s: Store, c: Caller, id: Id, target: Id)
    requires Move(cfg, s, c, id, target).Ok?
    ensures var t := Move(cfg, s, c, id, target).value; AllEnd(s, t) && s.Keys <= t.Keys
  {
    MoveFacts(cfg, s, c, id, target);
    MovedNodeKeeps(s, s[id], target, c.now);
    EndsCarried(MoveWritten(s, id, target, c.now), id, MoveBound(s, s[id], target, c.now), c.now);
  }

  lemma EndsDraws(cfg: Config, s: Store, c: Caller, op: Op)
    requires OutcomeOf(cfg, s, c, op).Ok? && (op.OpTransfer? || Draws(op))
    ensures AllEnd(s, Next(cfg, s, c, op)) && s.Keys <= Next(cfg, s, c, op).Keys
  {
    match op
    case OpTransfer(id, owner) => EndsPut(s, id, HandedOver(s[id], owner));
    case OpPromote(id, req) => PromoteFacts(cfg, s, c, id, req);
    case OpAllocate(id, b, q) => AllocateFacts(cfg, s, c, id, b, q);
  }

  lemma EndsReport(s: Store, w: Report)
    requires ReportEnabled(s, w)
    ensures AllEnd(s, ApplyReport(s, w))
  {
  }

  /** Whatever happens, reports included; and only deletions and reports remove nodes. */
  lemma EndsNext(cfg: Config, s: Store, c: Caller, op: Op)
    requires Enabled(cfg, s, op)
    ensures AllEnd(s, Next(cfg, s, c, op))
    ensures !op.OpDelete? && !op.OpReport? ==> s.Keys <= Next(cfg, s, c, op).Keys
  {
    if OutcomeOf(cfg, s, c, op).Ok? {
      if Asks(op) { EndsAsks(cfg, s, c, op); }
      else if Decides(op) { EndsDecides(cfg, s, c, op); }
      else if op.OpMove? { EndsMove(cfg, s, c, op.id, op.target); }
      else if op.OpTransfer? || Draws(op) { EndsDraws(cfg, s, c, op); }
      else if op.OpReport? { EndsReport(s, op.report); }
    }
  }

  predicate AnyStep(s: Store, op: Op) {
    true
  }

  /** In every run: a node that is rejected, released or archived is never active again while it is
      there. */
  lemma {:induction false} NeverAgain(cfg: Config, s: Store, run: seq<Event>, id: Id)
    requires Legal(cfg, s, run, AnyStep) && Present(s, run, id) && id in s && Terminal(s[id].status)
    ensures Ends(s[id].status, Final(s, run)[id].status) && !Active(Final(s, run)[id].status)
  {
    if run != [] {
      var e, before := run[|run| - 1], run[..|run| - 1];
      NeverAgain(cfg, s, before, id);
      EndsNext(e.cfg, Final(s, before), e.caller, e.op);
      assert Ends(Final(s, before)[id].status, Final(s, run)[id].status);
    }
  }

  /** In a turn of the lock a node that is past changing stays so, whatever the lock-free writers do to the
      copy an operation holds. */
  lemma TurnEnds(cfg: Config, s: Store, turn: Turn, id: Id)
    requires Shaped(s) && LegalTurn(cfg, s, turn, AnyStep)
    requires id in s && id in Checked(s, turn) && id in TurnEnd(s, turn)
    ensures Ends(s[id].status, TurnEnd(s, turn)[id].status)
  {
    CheckedDrifts(s, turn);
    var v, w := Checked(s, turn), AtWrite(s, turn);
    DriftEnds(s, v, id);
    DriftEnds(s, w, id);
    DriftShaped(s, v);
    WriteBackDrifts(turn.cfg, v, w, turn.caller, turn.op);
    EndsNext(turn.cfg, v, turn.caller, turn.op);
    if id !in Next(turn.cfg, v, turn.caller, turn.op) { DeletedStaysGone(turn.cfg, v, w, turn.caller, turn.op, id); }
    EndsBack(s, v, Next(turn.cfg, v, turn.caller, turn.op), w, TurnEnd(s, turn), id);
  }

  lemma DeletedStaysGone(cfg: Config, v: Store, w: Store, c: Caller, op: Op, id: Id)
    requires Enabled(cfg, v, op) && !op.OpReport? && id in v && id !in Next(cfg, v, c, op)
    ensures id !in WriteBack(cfg, v, w, c, op)
  {
    EndsNext(cfg, v, c, op);
  }

  lemma DriftEnds(s: Store, t: Store, id: Id)
    requires Drifted(s, t)
    ensures id in s && id in t ==> Ends(s[id].status, t[id].status)
  {
    assert DriftAt(s, t, id);
  }

  /** u is written back over w, or nothing is. */
  lemma EndsBack(s: Store, v: Store, a: Store, w: Store, u: Store, id: Id)
    requires id in s && id in v && id in a && id in u && Ends(s[id].status, v[id].status)
    requires AllEnd(v, a) && (u == w || Drifted(a, u)) && (id in w ==> Ends(s[id].status, w[id].status))
    ensures Ends(s[id].status, u[id].status)
  {
    if u != w {
      DriftEnds(a, u, id);
      assert Ends(v[id].status, a[id].status);
    }
  }

  /** The node is there all through the turns. */
  ghost predicate PresentInTurns(s: Store, turns: seq<Turn>, id: Id) {
    && id in AfterTurns(s, turns)
    && (turns == []
        || (PresentInTurns(s, turns[..|turns| - 1], id)
            && id in Checked(AfterTurns(s, turns[..|turns| - 1]), turns[|turns| - 1])))
  }

  /** With the providers and the marks in between, in every run of turns: a node that is rejected, released
      or archived is never active again while it is there. */
  lemma {:induction false} NeverAgainInterleaved(cfg: Config, s: Store, turns: seq<Turn>, id: Id)
    requires Shaped(s) && LegalTurns(cfg, s, turns, AnyStep) && PresentInTurns(s, turns, id)
    requires id in s && Terminal(s[id].status)
    ensures Ends(s[id].status, AfterTurns(s, turns)[id].status) && !Active(AfterTurns(s, turns)[id].status)
  {
    if turns != [] {
      var before := turns[..|turns| - 1];
      NeverAgainInterleaved(cfg, s, before, id);
      TurnsShaped(cfg, s, before, AnyStep);
      TurnEnds(cfg, AfterTurns(s, before), turns[|turns| - 1], id);
    }
  }

  // ── The root ────────────────────────────────────────────────────────────────

  /** Nobody decides what the root asks for: deciding takes a manager of a budget above. */
  lemma RootUndecided(cfg: Config, s: Store, c: Caller, req: ApproveRequest)
    requires Shaped(s) && s[ROOT].status == ChangePending
    ensures Approve(cfg, s, c, ROOT, req) == Err(Forbidden) && Reject(s, c, ROOT) == Err(Forbidden)
  {
    assert Budgets(s)[ROOT].None?;
    assert Above(s, s[ROOT]) == [];
  }

  /** The root is above everything but itself. */
  lemma RootAbove(s: Store, id: Id)
    requires Shaped(s) && id in s
    ensures ROOT in Above(s, s[id]) <==> id != ROOT
  {
    assert Hangs(s, s[id]) && OwnShape(s[id]);
    if id == ROOT {
      assert Budgets(s)[ROOT].None?;
    } else if s[id].kind == Budget {
      assert Budgets(s)[id] == s[id].parent;
      ChainOk(Budgets(s), s[id].parent.value);
    } else {
      ChainOk(Budgets(s), s[id].parent.value);
    }
  }

  /** Where the root has managers, somebody may decide on a node exactly if it is not the root. */
  lemma SomebodyAbove(s: Store, id: Id)
    requires Shaped(s) && id in s && s[ROOT].policy.admins != {}
    ensures (exists t :: ManagesAbove(s, {t}, s[id])) <==> id != ROOT
  {
    RootAbove(s, id);
    if id == ROOT {
      assert Above(s, s[ROOT]) == [];
    } else {
      var t :| t in s[ROOT].policy.admins;
      assert t in s[ROOT].policy.admins * {t};
      assert ManagesAbove(s, {t}, s[id]);
    }
  }

  /** So every request that waits can be decided, the root's alone cannot. */
  lemma DecidableExact(s: Store, id: Id)
    requires Shaped(s) && id in s && s[ROOT].policy.admins != {}
    requires s[id].status == Pending || s[id].status == ChangePending
    ensures (exists c :: Reject(s, c, id).Ok?) <==> id != ROOT
  {
    SomebodyAbove(s, id);
    if id != ROOT {
      var t :| ManagesAbove(s, {t}, s[id]);
      assert Reject(s, Caller({t}, t, 0), id).Ok?;
    } else {
      assert Above(s, s[ROOT]) == [];
    }
  }

  /** The root still waits. */
  ghost predicate RootStill(t: Store) {
    ROOT in t && t[ROOT].status == ChangePending
  }

  /** So a root that once asked waits for ever - and meanwhile nothing is created right under it. */
  lemma RootWaits(cfg: Config, s: Store, c: Caller, op: Op)
    requires Shaped(s) && s[ROOT].status == ChangePending && Enabled(cfg, s, op)
    ensures RootStill(Next(cfg, s, c, op))
    ensures op.OpCreate? && op.create.parent == ROOT ==> OutcomeOf(cfg, s, c, op).Err?
  {
    assert OwnShape(s[ROOT]);
    if op.OpApprove? && op.id == ROOT {
      RootUndecided(cfg, s, c, op.approve);
    } else if op.OpReject? && op.id == ROOT {
      RootUndecided(cfg, s, c, ApproveRequest(None, None));
    } else if OutcomeOf(cfg, s, c, op).Ok? {
      RootKept(cfg, s, c, op);
    }
  }

  lemma RootKeptAsks(cfg: Config, s: Store, c: Caller, op: Op)
    requires RootStill(s) && s[ROOT].kind == Budget && Enabled(cfg, s, op) && OutcomeOf(cfg, s, c, op).Ok? && Asks(op)
    ensures RootStill(Next(cfg, s, c, op))
  {
    match op
    case OpCreate(id, req) => var n := CreatedNode(cfg, s, c, id, req);
    case OpUpdate(id, req) =>
      UpdateFacts(cfg, s, c, id, req);
      EndsCarriedDown(Put(s, id, Edited(s, s[id], Above(s, s[id]), req)), id, req, c.now);
    case OpChange(id, req) => var n := ChangedNode(cfg, s, c, id, req);
  }

  lemma RootKeptDecides(cfg: Config, s: Store, c: Caller, op: Op)
    requires Shaped(s) && RootStill(s) && s[ROOT].kind == Budget && OutcomeOf(cfg, s, c, op).Ok? && Decides(op)
    requires (op.OpApprove? || op.OpReject?) ==> op.id != ROOT
    ensures RootStill(Next(cfg, s, c, op))
  {
    match op
    case OpApprove(id, req) =>
      ApproveFacts(cfg, s, c, id, req);
      var d := Decided(s, s[id], req, c.now);
      if d.end.Some? { EndsCascades(Put(s, id, d), id, d.end.value, 0, c.now); }
    case OpReject(id) =>
    case OpRelease(id, d, e) =>
    case OpDelete(id) => RootStays(s, id);
  }

  lemma RootKeptMoves(cfg: Config, s: Store, c: Caller, op: Op)
    requires RootStill(s) && s[ROOT].kind == Budget && OutcomeOf(cfg, s, c, op).Ok? && (Moves(op) || Draws(op))
    ensures RootStill(Next(cfg, s, c, op))
  {
    match op
    case OpMove(id, target) =>
      MoveFacts(cfg, s, c, id, target);
      MovedNodeKeeps(s, s[id], target, c.now);
      EndsCarried(MoveWritten(s, id, target, c.now), id, MoveBound(s, s[id], target, c.now), c.now);
    case OpTransfer(id, owner) =>
    case OpPromote(id, req) => PromoteFacts(cfg, s, c, id, req);
    case OpAllocate(id, b, q) => AllocateFacts(cfg, s, c, id, b, q);
  }

  lemma RootKept(cfg: Config, s: Store, c: Caller, op: Op)
    requires Shaped(s) && RootStill(s) && s[ROOT].kind == Budget && OwnShape(s[ROOT])
    requires Enabled(cfg, s, op) && OutcomeOf(cfg, s, c, op).Ok?
    requires (op.OpApprove? || op.OpReject?) ==> op.id != ROOT
    ensures RootStill(Next(cfg, s, c, op))
  {
    if Asks(op) { RootKeptAsks(cfg, s, c, op); }
    else if Decides(op) { RootKeptDecides(cfg, s, c, op); }
    else if Moves(op) || Draws(op) { RootKeptMoves(cfg, s, c, op); }
  }

  // ── Deletion ────────────────────────────────────────────────────────────────

  /** A deletion takes exactly the subtree, and of what still has to be decided or released at most the
      budget itself: its own status is not looked at. */
  lemma DeletedAreDecided(s: Store, c: Caller, id: Id)
    requires Delete(s, c, id).Ok?
    ensures Delete(s, c, id).value == s - Closure(s, id) && id in Closure(s, id)
    ensures (exists d :: d in Closure(s, id) && BlocksDeletion(s[d])) <==> BlocksDeletion(s[id])
  {
    forall d | d in Closure(s, id) && d != id ensures !BlocksDeletion(s[d]) {
      assert StrictlyBelow(s, id, d);
    }
  }
}
