/** Approving what was shown while the lock holder is at work: a note is written without the lock, and an
    operation that writes back the copy it read drops the notes made since (op_attributes.go, UpsertNode in
    internal/core/nodestore/memory.go, checkRevision in internal/core/tree/op_lifecycle.go). */
module Shown {
  import opened Model
  import opened Chains
  import opened Charges
  import opened Rules
  import opened Steps
  import opened Reports
  import opened Runs
  import opened Shape
  import opened Lifetimes
  import opened Revisions
  import opened Interleaving
  import opened Statuses
  import opened Waiting

  // ── From one state of a node to a later one ─────────────────────────────────

  /** n comes after m: with more history or shown as before. What is shown of an import counts for nothing, as
      nobody approves imports. */
  predicate Onward(m: Node, n: Node) {
    Revision(n) >= Revision(m) && (m.status != Imported && Revision(n) == Revision(m) ==> SameShown(m, n))
  }

  lemma OnwardOn(m: Node, n: Node, o: Node)
    requires Onward(m, n) && Onward(n, o)
    ensures Onward(m, o)
  {
  }

  // ── Lock-free writes ────────────────────────────────────────────────────────

  lemma ReportOnward(n: Node, w: Report)
    requires Reported(n, w).Some?
    ensures Onward(n, Reported(n, w).value)
  {
  }

  /** Of a node that is not retired only notes add to the history. */
  lemma ReportCounted(n: Node, w: Report)
    requires Reported(n, w).Some? && !Retired(n.status)
    ensures var m := Reported(n, w).value;
            !Retired(m.status) && Revision(m) == Revision(n) + if w.Note? then 1 else 0
  {
  }

  /** How many notes were made on the node. */
  function NotesOn(ws: seq<Report>, id: Id): nat {
    if ws == [] then 0 else NotesOn(ws[..|ws| - 1], id) + if ws[|ws| - 1] == Note(id) then 1 else 0
  }

  /** A node that was there before the reports and is there after them was never gone. */
  lemma StillThere(s: Store, ws: seq<Report>, id: Id)
    requires ws != [] && Unseen(s, ws) && id in s && id in AfterReports(s, ws)
    ensures var most, w := AfterReports(s, ws[..|ws| - 1]), ws[|ws| - 1];
            && id in most && Unseen(s, ws[..|ws| - 1])
            && (w.id == id ==> !w.AddImport? && Reported(most[id], w) == Some(AfterReports(s, ws)[id]))
            && (w.id != id ==> AfterReports(s, ws)[id] == most[id])
  {
    var w := ws[|ws| - 1];
    assert w.AddImport? ==> w.id !in s;
    assert forall i :: 0 <= i < |ws| - 1 ==> ws[..|ws| - 1][i] == ws[i];
  }

  lemma {:induction false} ReportsOnward(s: Store, ws: seq<Report>, k: nat, id: Id)
    requires Unseen(s, ws) && id in s && k <= |ws| && id in AfterReports(s, ws)
    ensures id in AfterReports(s, ws[..k]) && Onward(AfterReports(s, ws[..k])[id], AfterReports(s, ws)[id])
    decreases |ws|
  {
    if k == |ws| {
      assert ws[..k] == ws;
    } else {
      var most := ws[..|ws| - 1];
      StillThere(s, ws, id);
      assert most[..k] == ws[..k];
      ReportsOnward(s, most, k, id);
      if ws[|ws| - 1].id == id { ReportOnward(AfterReports(s, most)[id], ws[|ws| - 1]); }
      OnwardOn(AfterReports(s, ws[..k])[id], AfterReports(s, most)[id], AfterReports(s, ws)[id]);
    }
  }

  lemma {:induction false} ReportsCounted(s: Store, ws: seq<Report>, id: Id)
    requires Unseen(s, ws) && id in s && !Retired(s[id].status) && id in AfterReports(s, ws)
    ensures var n := AfterReports(s, ws)[id];
            !Retired(n.status) && Revision(n) == Revision(s[id]) + NotesOn(ws, id)
  {
    if ws != [] {
      StillThere(s, ws, id);
      ReportsCounted(s, ws[..|ws| - 1], id);
      if ws[|ws| - 1].id == id { ReportCounted(AfterReports(s, ws[..|ws| - 1])[id], ws[|ws| - 1]); }
    }
  }

  // ── What is written ─────────────────────────────────────────────────────────

  /** The operations that write back the copy they read; the others change the node as it is stored then. */
  predicate Copies(op: Op) {
    op.OpUpdate? || op.OpChange? || op.OpMove? || Draws(op)
  }

  /** The operation is accepted and writes its copy of the node. */
  ghost predicate CopiesOver(cfg: Config, s: Store, c: Caller, op: Op, id: Id) {
    Copies(op) && op.id == id && OutcomeOf(cfg, s, c, op).Ok?
  }

  /** A change of the catalogue that alters the node: it leaves no trace in the history. */
  ghost predicate Silent(s: Store, op: Op, id: Id)
    requires id in s
  {
    || (op.OpRewrite? && RewrittenNode(op.rewrite, s[id]) != s[id])
    || (op.OpGrantRoot? && id == ROOT && (op.r !in s[id].limit || s[id].limit[op.r] != 1))
  }

  lemma CascadedSame(s: Store, t: Store, id: Id, end: Time, days: int, now: Time)
    requires id in s && id in t && t[id] == s[id] && Budgets(t) == Budgets(s)
    ensures CascadeEnds(t, id, end)[id] == CascadeEnds(s, id, end)[id]
    ensures CascadeTerms(t, id, days, now)[id] == CascadeTerms(s, id, days, now)[id]
    ensures Budgets(CascadeEnds(t, id, end)) == Budgets(CascadeEnds(s, id, end))
  {
    CascadePlaces(s, id, end);
    CascadePlaces(t, id, end);
  }

  lemma CarriedSame(s: Store, t: Store, id: Id, req: UpdateRequest, now: Time)
    requires id in s && id in t && t[id] == s[id] && Budgets(t) == Budgets(s)
    ensures id in CarriedDown(s, id, req, now) && id in CarriedDown(t, id, req, now)
    ensures CarriedDown(t, id, req, now)[id] == CarriedDown(s, id, req, now)[id]
  {
    var u, v := s, t;
    if !PanicsEarly(req) && req.end.Some? {
      CascadedSame(s, t, id, req.end.value, 0, now);
      u, v := CascadeEnds(s, id, req.end.value), CascadeEnds(t, id, req.end.value);
    }
    if !PanicsEarly(req) && req.maxTerm.Some? && !req.clearMaxTerm {
      CascadedSame(u, v, id, 0, req.maxTerm.value, now);
    }
  }

  lemma MoveCarriedSame(s: Store, t: Store, id: Id, bound: Option<Time>, now: Time)
    requires id in s && id in t && t[id] == s[id] && Budgets(t) == Budgets(s)
    ensures id in MoveCarried(s, id, bound, now) && id in MoveCarried(t, id, bound, now)
    ensures MoveCarried(t, id, bound, now)[id] == MoveCarried(s, id, bound, now)[id]
  {
    var u, v := s, t;
    if s[id].kind == Budget && bound.Some? {
      CascadedSame(s, t, id, bound.value, 0, now);
      u, v := CascadeEnds(s, id, bound.value), CascadeEnds(t, id, bound.value);
    }
    if s[id].kind == Budget && s[id].maxTerm.Some? { CascadedSame(u, v, id, 0, s[id].maxTerm.value, now); }
  }

  lemma UpdateCopied(cfg: Config, s: Store, t: Store, c: Caller, id: Id, req: UpdateRequest)
    requires Budgets(t) == Budgets(s) && Update(cfg, s, c, id, req).Ok?
    ensures var a, u := Update(cfg, s, c, id, req).value, WriteBack(cfg, s, t, c, OpUpdate(id, req));
            id in a && id in u && u[id] == a[id]
  {
    UpdateFacts(cfg, s, c, id, req);
    var e := Edited(s, s[id], Above(s, s[id]), req);
    PutBudgets(s, t, id, e);
    CarriedSame(Put(s, id, e), Put(t, id, e), id, req, c.now);
  }

  lemma MoveCopied(cfg: Config, s: Store, t: Store, c: Caller, id: Id, target: Id)
    requires Budgets(t) == Budgets(s) && Move(cfg, s, c, id, target).Ok?
    ensures var a, u := Move(cfg, s, c, id, target).value, WriteBack(cfg, s, t, c, OpMove(id, target));
            id in a && id in u && u[id] == a[id]
  {
    MoveFacts(cfg, s, c, id, target);
    var m := MovedNode(s, s[id], target, c.now);
    PutBudgets(s, t, id, m);
    MoveCarriedSame(Put(s, id, m), Put(t, id, m), id, MoveBound(s, s[id], target, c.now), c.now);
  }

  /** What a copy-writing operation leaves of its node is what it would leave in one step, whatever is stored by
      then. */
  lemma CopyWritten(cfg: Config, s: Store, t: Store, c: Caller, op: Op)
    requires Budgets(t) == Budgets(s) && Copies(op) && OutcomeOf(cfg, s, c, op).Ok?
    ensures var u := WriteBack(cfg, s, t, c, op);
            op.id in Next(cfg, s, c, op) && op.id in u && u[op.id] == Next(cfg, s, c, op)[op.id]
  {
    match op
    case OpUpdate(id, req) => UpdateCopied(cfg, s, t, c, id, req);
    case OpMove(id, target) => MoveCopied(cfg, s, t, c, id, target);
    case OpChange(id, req) => ChangeCopied(cfg, s, t, c, id, req);
    case OpPromote(id, req) => PromoteFacts(cfg, s, c, id, req);
    case OpAllocate(id, b, q) => AllocateFacts(cfg, s, c, id, b, q);
  }

  lemma ChangeCopied(cfg: Config, s: Store, t: Store, c: Caller, id: Id, req: ChangeRequest)
    requires RequestChange(cfg, s, c, id, req).Ok?
    ensures var a, u := RequestChange(cfg, s, c, id, req).value, WriteBack(cfg, s, t, c, OpChange(id, req));
            id in a && id in u && u[id] == a[id]
  {
    var n := ChangedNode(cfg, s, c, id, req);
    assert CapHistory(CapHistory(n)) == CapHistory(n);
  }

  // ── How many entries that adds ──────────────────────────────────────────────

  /** The history entries a copy-writing operation adds to its node: one, and one more for a change that takes
      effect at once, for an end cut by a move and for a term cut by a move. */
  ghost function Entries(cfg: Config, s: Store, c: Caller, op: Op): nat
    requires Copies(op) && op.id in s
  {
    var n := s[op.id];
    match op
    case OpChange(id, req) =>
      if Active(n.status) && n.kind == Project && LeafVerdict(cfg, s, n, req) == Direct then 2 else 1
    case OpMove(id, target) =>
      var end, term := MoveBound(s, n, target, c.now), ChainMaxTerm(s, Chain(Budgets(s), target));
      1 + (if end.Some? && Cuts(n, end.value) then 1 else 0)
        + (if term.Some? && n.kind == Budget && AllowsLonger(n, term.value) then 1 else 0)
    case _ => 1
  }

  /** Nothing is carried down to where it comes from. */
  lemma NotCarriedUp(s: Store, id: Id, end: Time, days: int, now: Time)
    requires id in s && id !in Above(s, s[id])
    ensures CascadeEnds(s, id, end)[id] == s[id] && CascadeTerms(s, id, days, now)[id] == s[id]
    ensures Above(CascadeEnds(s, id, end), s[id]) == Above(s, s[id])
  {
    CascadePlaces(s, id, end);
  }

  lemma NotCarriedDownUp(s: Store, id: Id, req: UpdateRequest, now: Time)
    requires id in s && id !in Above(s, s[id])
    ensures id in CarriedDown(s, id, req, now) && CarriedDown(s, id, req, now)[id] == s[id]
  {
    var t := s;
    if !PanicsEarly(req) && req.end.Some? {
      NotCarriedUp(s, id, req.end.value, 0, now);
      t := CascadeEnds(s, id, req.end.value);
    }
    if !PanicsEarly(req) && req.maxTerm.Some? && !req.clearMaxTerm { NotCarriedUp(t, id, 0, req.maxTerm.value, now); }
  }

  lemma NotMoveCarriedUp(s: Store, id: Id, bound: Option<Time>, now: Time)
    requires id in s && id !in Above(s, s[id])
    ensures id in MoveCarried(s, id, bound, now) && MoveCarried(s, id, bound, now)[id] == s[id]
  {
    var t := s;
    if s[id].kind == Budget && bound.Some? {
      NotCarriedUp(s, id, bound.value, 0, now);
      t := CascadeEnds(s, id, bound.value);
    }
    if s[id].kind == Budget && s[id].maxTerm.Some? { NotCarriedUp(t, id, 0, s[id].maxTerm.value, now); }
  }

  lemma EntriesUpdate(cfg: Config, s: Store, c: Caller, id: Id, req: UpdateRequest)
    requires Shaped(s) && Update(cfg, s, c, id, req).Ok?
    ensures id in s && id in Update(cfg, s, c, id, req).value
    ensures Revision(Update(cfg, s, c, id, req).value[id]) == Revision(s[id]) + 1
  {
    UpdateFacts(cfg, s, c, id, req);
    var e := Edited(s, s[id], Above(s, s[id]), req);
    var t := Put(s, id, e);
    NotBelowItself(s, id);
    InPlaceBudgets(s, t);
    NotCarriedDownUp(t, id, req, c.now);
  }

  lemma EntriesMove(cfg: Config, s: Store, c: Caller, id: Id, target: Id)
    requires Shaped(s) && Move(cfg, s, c, id, target).Ok?
    ensures id in s && id in Move(cfg, s, c, id, target).value
    ensures Revision(Move(cfg, s, c, id, target).value[id]) == Revision(s[id]) + Entries(cfg, s, c, OpMove(id, target))
  {
    MoveFacts(cfg, s, c, id, target);
    ShapeMoved(s, id, target, c.now);
    var t := MoveWritten(s, id, target, c.now);
    NotBelowItself(t, id);
    NotMoveCarriedUp(t, id, MoveBound(s, s[id], target, c.now), c.now);
    EntriesMoved(cfg, s, c, id, target);
  }

  lemma EntriesMoved(cfg: Config, s: Store, c: Caller, id: Id, target: Id)
    requires id in s
    ensures Revision(MovedNode(s, s[id], target, c.now)) == Revision(s[id]) + Entries(cfg, s, c, OpMove(id, target))
  {
  }

  lemma EntriesChange(cfg: Config, s: Store, c: Caller, id: Id, req: ChangeRequest)
    requires RequestChange(cfg, s, c, id, req).Ok?
    ensures id in s && id in RequestChange(cfg, s, c, id, req).value
    ensures Revision(RequestChange(cfg, s, c, id, req).value[id])
            == Revision(s[id]) + Entries(cfg, s, c, OpChange(id, req))
  {
    if s[id].status != Pending && s[id].kind == Project && LeafVerdict(cfg, s, s[id], req) == Direct {
      assert Active(s[id].status);
    }
  }

  lemma EntriesAdded(cfg: Config, s: Store, c: Caller, op: Op)
    requires Shaped(s) && Copies(op) && OutcomeOf(cfg, s, c, op).Ok?
    ensures op.id in s && op.id in Next(cfg, s, c, op)
    ensures Revision(Next(cfg, s, c, op)[op.id]) == Revision(s[op.id]) + Entries(cfg, s, c, op)
  {
    match op
    case OpUpdate(id, req) => EntriesUpdate(cfg, s, c, id, req);
    case OpMove(id, target) => EntriesMove(cfg, s, c, id, target);
    case OpChange(id, req) => EntriesChange(cfg, s, c, id, req);
    case OpPromote(id, req) => PromoteFacts(cfg, s, c, id, req);
    case OpAllocate(id, b, q) => AllocateFacts(cfg, s, c, id, b, q);
  }

  // ── What else is written ────────────────────────────────────────────────────

  lemma CascadesOnward(s: Store, top: Id, end: Time, days: int, now: Time, x: Id)
    requires x in s
    ensures Onward(s[x], CascadeEnds(s, top, end)[x]) && Onward(s[x], CascadeTerms(s, top, days, now)[x])
  {
    ShortenedGrown(s[x], end);
    ShortenedGrown(s[x], TermEnd(now, days));
    TermGrown(s[x], days);
  }

  lemma CarriedDownOnward(s: Store, id: Id, req: UpdateRequest, now: Time, x: Id)
    requires x in s
    ensures x in CarriedDown(s, id, req, now) && Onward(s[x], CarriedDown(s, id, req, now)[x])
  {
    var t := s;
    if !PanicsEarly(req) && req.end.Some? {
      CascadesOnward(s, id, req.end.value, 0, now, x);
      t := CascadeEnds(s, id, req.end.value);
    }
    if !PanicsEarly(req) && req.maxTerm.Some? && !req.clearMaxTerm {
      CascadesOnward(t, id, 0, req.maxTerm.value, now, x);
      OnwardOn(s[x], t[x], CascadeTerms(t, id, req.maxTerm.value, now)[x]);
    }
  }

  lemma MoveCarriedOnward(s: Store, id: Id, bound: Option<Time>, now: Time, x: Id)
    requires id in s && x in s
    ensures x in MoveCarried(s, id, bound, now) && Onward(s[x], MoveCarried(s, id, bound, now)[x])
  {
    var t := s;
    if s[id].kind == Budget && bound.Some? {
      CascadesOnward(s, id, bound.value, 0, now, x);
      t := CascadeEnds(s, id, bound.value);
    }
    if s[id].kind == Budget && s[id].maxTerm.Some? {
      CascadesOnward(t, id, 0, s[id].maxTerm.value, now, x);
      OnwardOn(s[x], t[x], CascadeTerms(t, id, s[id].maxTerm.value, now)[x]);
    }
  }

  lemma ApproveOnward(cfg: Config, s: Store, t: Store, c: Caller, id: Id, req: ApproveRequest, x: Id)
    requires x in t && id in s
    ensures var u := ApproveBack(s, t, c, id, req); x in u && Onward(t[x], u[x])
  {
    var d := Decided(s, s[id], req, c.now);
    if id in t && DecideChange(t[id], s[id].status, Revision(s[id]), d).Some? {
      var u := Put(t, id, DecideChange(t[id], s[id].status, Revision(s[id]), d).value);
      assert Onward(t[x], u[x]);
      if s[id].kind == Budget && d.end.Some? {
        CascadesOnward(u, id, d.end.value, 0, c.now, x);
        OnwardOn(t[x], u[x], CascadeEnds(u, id, d.end.value)[x]);
      }
    }
  }

  lemma ChangesOnward(cfg: Config, s: Store, t: Store, c: Caller, op: Op, x: Id)
    requires x in t && (op.OpReject? || op.OpRelease? || op.OpTransfer?)
    ensures var u := WriteBack(cfg, s, t, c, op); x in u && Onward(t[x], u[x])
  {
  }

  lemma CatalogueOnward(cfg: Config, s: Store, t: Store, c: Caller, op: Op, x: Id)
    requires x in t && (op.OpRewrite? || op.OpGrantRoot?) && !Silent(t, op, x)
    ensures var u := WriteBack(cfg, s, t, c, op); x in u && u[x] == t[x]
  {
  }

  lemma UpdateOnward(cfg: Config, s: Store, t: Store, c: Caller, id: Id, req: UpdateRequest, x: Id)
    requires x in t && x != id
    ensures var u := WriteBack(cfg, s, t, c, OpUpdate(id, req)); x in u && Onward(t[x], u[x])
  {
    if id in s { CarriedDownOnward(Put(t, id, Edited(s, s[id], Above(s, s[id]), req)), id, req, c.now, x); }
  }

  lemma MoveOnward(cfg: Config, s: Store, t: Store, c: Caller, id: Id, target: Id, x: Id)
    requires x in t && x != id
    ensures var u := WriteBack(cfg, s, t, c, OpMove(id, target)); x in u && Onward(t[x], u[x])
  {
    if id in s {
      var u := Put(t, id, MovedNode(s, s[id], target, c.now));
      MoveCarriedOnward(u, id, MoveBound(s, s[id], target, c.now), c.now, x);
    }
  }

  lemma CopiesOnward(cfg: Config, s: Store, t: Store, c: Caller, op: Op, x: Id)
    requires x in t && Copies(op) && x != op.id
    ensures var u := WriteBack(cfg, s, t, c, op); x in u && Onward(t[x], u[x])
  {
    if op.OpUpdate? { UpdateOnward(cfg, s, t, c, op.id, op.update, x); }
    else if op.OpMove? { MoveOnward(cfg, s, t, c, op.id, op.target, x); }
  }

  /** Whatever is written but a copy of it takes a node onward from what is stored at the write. */
  lemma WriteOnward(cfg: Config, s: Store, t: Store, c: Caller, op: Op, x: Id)
    requires x in t && x in WriteBack(cfg, s, t, c, op) && !op.OpReport? && !(op.OpCreate? && op.id == x)
    requires !CopiesOver(cfg, s, c, op, x) && !Silent(t, op, x)
    ensures Onward(t[x], WriteBack(cfg, s, t, c, op)[x])
  {
    if OutcomeOf(cfg, s, c, op).Ok? {
      if Copies(op) { CopiesOnward(cfg, s, t, c, op, x); }
      else if op.OpApprove? { if op.id in s { ApproveOnward(cfg, s, t, c, op.id, op.approve, x); } }
      else if op.OpReject? || op.OpRelease? || op.OpTransfer? { ChangesOnward(cfg, s, t, c, op, x); }
      else if op.OpRewrite? || op.OpGrantRoot? { CatalogueOnward(cfg, s, t, c, op, x); }
    }
  }

  // ── A turn ──────────────────────────────────────────────────────────────────

  /** Everything written without the lock during the turn. */
  function Aside(turn: Turn): seq<Report> {
    turn.beforeCheck + turn.beforeWrite
  }

  /** What is there after the first k of those writes. */
  ghost function ShownAt(s: Store, turn: Turn, k: nat): Store
    requires k <= |Aside(turn)|
  {
    AfterReports(s, Aside(turn)[..k])
  }

  lemma AllAside(s: Store, turn: Turn)
    ensures AfterReports(s, Aside(turn)) == AtWrite(s, turn) && Aside(turn)[..|Aside(turn)|] == Aside(turn)
    ensures AfterReports(s, Aside(turn)[..0]) == s
  {
    ReportsJoin(s, turn.beforeCheck, turn.beforeWrite);
    assert Aside(turn)[..0] == [];
  }

  /** The turn ends with its copy of the node written over it. */
  ghost predicate Overwrites(s: Store, turn: Turn, id: Id) {
    CopiesOver(turn.cfg, Checked(s, turn), turn.caller, turn.op, id)
  }

  /** The turn changes the node by the catalogue. */
  ghost predicate SilentTurn(s: Store, turn: Turn, id: Id) {
    id in AtWrite(s, turn) && Silent(AtWrite(s, turn), turn.op, id)
  }

  lemma ReadNode(s: Store, turn: Turn, id: Id)
    requires id in s && NodeOf(turn.op) == Some(id)
    ensures id in Checked(s, turn) && Checked(s, turn)[id] == s[id]
  {
  }

  lemma OverwrittenNode(cfg: Config, s: Store, turn: Turn, id: Id, step: (Store, Op) -> bool)
    requires Shaped(s) && LegalTurn(cfg, s, turn, step) && Overwrites(s, turn, id)
    ensures id in s && !Retired(s[id].status) && id in Checked(s, turn) && Checked(s, turn)[id] == s[id]
    ensures id in TurnEnd(s, turn)
    ensures Revision(TurnEnd(s, turn)[id])
            == Revision(s[id]) + Entries(turn.cfg, Checked(s, turn), turn.caller, turn.op)
  {
    CheckedDrifts(s, turn);
    var v, w := Checked(s, turn), AtWrite(s, turn);
    DriftShaped(s, v);
    assert forall x :: x in v ==> OwnShape(v[x]);
    DriftBudgets(v, w);
    EntriesAdded(turn.cfg, v, turn.caller, turn.op);
    CopyWritten(turn.cfg, v, w, turn.caller, turn.op);
    assert id in s;
    ReadNode(s, turn, id);
    CopiesLive(turn.cfg, v, turn.caller, turn.op);
  }

  lemma CopiesLive(cfg: Config, s: Store, c: Caller, op: Op)
    requires Copies(op) && OutcomeOf(cfg, s, c, op).Ok?
    ensures op.id in s && !Retired(s[op.id].status)
  {
    match op
    case OpUpdate(id, req) => UpdateFacts(cfg, s, c, id, req);
    case OpMove(id, target) => MoveFacts(cfg, s, c, id, target);
    case OpChange(id, req) => var n := ChangedNode(cfg, s, c, id, req);
    case OpPromote(id, req) => PromoteFacts(cfg, s, c, id, req);
    case OpAllocate(id, b, q) => AllocateFacts(cfg, s, c, id, b, q);
  }

  /** A copy written back has as many more history entries than what somebody was shown meanwhile as the operation
      adds, less the notes made between the read and then: its revision is higher exactly if those are fewer. */
  lemma CopyRaisesExact(cfg: Config, s: Store, turn: Turn, k: nat, id: Id, step: (Store, Op) -> bool)
    requires Shaped(s) && LegalTurn(cfg, s, turn, step) && Overwrites(s, turn, id)
    requires k <= |Aside(turn)| && id in ShownAt(s, turn, k)
    ensures id in s && id in TurnEnd(s, turn) && id in Checked(s, turn)
    ensures Revision(TurnEnd(s, turn)[id]) + NotesOn(Aside(turn)[..k], id)
            == Revision(ShownAt(s, turn, k)[id]) + Entries(turn.cfg, Checked(s, turn), turn.caller, turn.op)
    ensures Revision(TurnEnd(s, turn)[id]) > Revision(ShownAt(s, turn, k)[id])
            <==> NotesOn(Aside(turn)[..k], id) < Entries(turn.cfg, Checked(s, turn), turn.caller, turn.op)
  {
    OverwrittenNode(cfg, s, turn, id, step);
    assert forall i :: 0 <= i < k ==> Aside(turn)[..k][i] == Aside(turn)[i];
    ReportsCounted(s, Aside(turn)[..k], id);
  }

  /** What was shown after the first k writes beside the turn is overtaken by a copy read before them. */
  ghost predicate Overtaken(s: Store, turn: Turn, k: nat, id: Id)
    requires k <= |Aside(turn)|
  {
    Overwrites(s, turn, id) && id in Checked(s, turn)
    && NotesOn(Aside(turn)[..k], id) >= Entries(turn.cfg, Checked(s, turn), turn.caller, turn.op)
  }

  /** Whatever else a turn does, it takes a node onward from anything it was during the turn. */
  lemma TurnOnward(cfg: Config, s: Store, turn: Turn, k: nat, id: Id, step: (Store, Op) -> bool)
    requires Shaped(s) && LegalTurn(cfg, s, turn, step) && k <= |Aside(turn)|
    requires id in s && id in ShownAt(s, turn, k) && id in TurnEnd(s, turn)
    requires !Overtaken(s, turn, k, id) && !SilentTurn(s, turn, id)
    ensures Onward(ShownAt(s, turn, k)[id], TurnEnd(s, turn)[id])
  {
    if Overwrites(s, turn, id) {
      CopyRaisesExact(cfg, s, turn, k, id, step);
    } else {
      AllAside(s, turn);
      NotCreated(s, turn, id);
      WrittenThere(turn.cfg, Checked(s, turn), AtWrite(s, turn), turn.caller, turn.op, id);
      ReportsOnward(s, Aside(turn), k, id);
      WriteOnward(turn.cfg, Checked(s, turn), AtWrite(s, turn), turn.caller, turn.op, id);
      OnwardOn(ShownAt(s, turn, k)[id], AtWrite(s, turn)[id], TurnEnd(s, turn)[id]);
    }
  }

  lemma NotCreated(s: Store, turn: Turn, id: Id)
    requires id in s && Enabled(turn.cfg, Checked(s, turn), turn.op)
    ensures !(turn.op.OpCreate? && turn.op.id == id)
  {
    if turn.op.OpCreate? && turn.op.id == id { ReadNode(s, turn, id); }
  }

  /** Only a creation and a copy put a node where there is none. */
  lemma WrittenThere(cfg: Config, s: Store, t: Store, c: Caller, op: Op, x: Id)
    requires x in WriteBack(cfg, s, t, c, op) && !op.OpReport?
    requires !CopiesOver(cfg, s, c, op, x) && !(op.OpCreate? && op.id == x)
    ensures x in t
  {
  }

  /** So from turn to turn a node only goes onward, whatever is noted meanwhile. */
  lemma BoundaryOnward(cfg: Config, s: Store, turn: Turn, id: Id, step: (Store, Op) -> bool)
    requires Shaped(s) && LegalTurn(cfg, s, turn, step) && id in s && id in TurnEnd(s, turn)
    requires !SilentTurn(s, turn, id)
    ensures Onward(s[id], TurnEnd(s, turn)[id])
  {
    AllAside(s, turn);
    if Overwrites(s, turn, id) { OverwrittenNode(cfg, s, turn, id, step); }
    TurnOnward(cfg, s, turn, 0, id, step);
  }

  /** In one step, too: the revision rises or all that is shown stays, exactly but for the catalogue. */
  lemma StepShowsExact(cfg: Config, s: Store, c: Caller, op: Op, id: Id)
    requires Enabled(cfg, s, op) && id in s && id in Next(cfg, s, c, op) && s[id].status != Imported
    ensures Grown(s[id], Next(cfg, s, c, op)[id]) <==> !Silent(s, op, id)
  {
    if Traced(op) {
      RevisionNext(cfg, s, c, op);
      assert GrownAt(s, Next(cfg, s, c, op), id);
    } else if op.OpRewrite? {
      RewriteShows(op.rewrite, s[id]);
    }
  }

  lemma RewriteShows(w: Rewrite, n: Node)
    ensures Grown(n, RewrittenNode(w, n)) <==> RewrittenNode(w, n) == n
  {
  }

  // ── Runs of turns ───────────────────────────────────────────────────────────

  /** The catalogue leaves the node alone all through the turns. */
  ghost predicate ToldInTurns(s: Store, turns: seq<Turn>, id: Id) {
    turns == []
    || (ToldInTurns(s, turns[..|turns| - 1], id)
        && !SilentTurn(AfterTurns(s, turns[..|turns| - 1]), turns[|turns| - 1], id))
  }

  lemma {:induction false} TurnsOnward(cfg: Config, s: Store, turns: seq<Turn>, id: Id, step: (Store, Op) -> bool)
    requires Shaped(s) && LegalTurns(cfg, s, turns, step) && id in s
    requires PresentInTurns(s, turns, id) && ToldInTurns(s, turns, id)
    ensures Onward(s[id], AfterTurns(s, turns)[id])
  {
    if turns != [] {
      var before := turns[..|turns| - 1];
      TurnsOnward(cfg, s, before, id, step);
      TurnsShaped(cfg, s, before, step);
      BoundaryOnward(cfg, AfterTurns(s, before), turns[|turns| - 1], id, step);
      OnwardOn(s[id], AfterTurns(s, before)[id], AfterTurns(s, turns)[id]);
    }
  }

  // ── The approval ────────────────────────────────────────────────────────────

  /** A turn that approves the node at the revision and is not refused, neither at the check nor at the write. */
  ghost predicate Approves(s: Store, turn: Turn, id: Id, revision: nat) {
    && turn.op == OpApprove(id, ApproveRequest(Some(revision), None))
    && OutcomeOf(turn.cfg, Checked(s, turn), turn.caller, turn.op).Ok?
    && TurnEnd(s, turn) != AtWrite(s, turn)
  }

  /** n is granted as it was asked for in m: the limit and the members, and the end or the earlier one of the
      budgets above. */
  ghost predicate GrantsAsShown(s: Store, turn: Turn, m: Node, n: Node) {
    && n.status == Approved && n.members == FinalMembers(m)
    && n.limit == FinalLimit(m, ApproveRequest(Some(Revision(m)), None))
    && Respects(n.end, AskedEnd(m))
    && (n.end == AskedEnd(m) || n.end == ApprovalBound(Checked(s, turn), m, turn.caller.now))
  }

  lemma ApprovalWritten(v: Store, w: Store, c: Caller, id: Id, req: ApproveRequest)
    requires Shaped(w) && id in v && ApproveBack(v, w, c, id, req) != w
    ensures var u, d := ApproveBack(v, w, c, id, req), Decided(v, v[id], req, c.now);
            id in u && u[id].status == Approved && u[id].limit == d.limit && u[id].end == d.end
            && u[id].members == d.members
  {
    var d := Decided(v, v[id], req, c.now);
    var e := DecideChange(w[id], v[id].status, Revision(v[id]), d).value;
    var t := Put(w, id, e);
    if v[id].kind == Budget && d.end.Some? {
      GrantedInPlace(w, id, e);
      assert CascadeEnds(t, id, d.end.value)[id] == t[id];
    }
  }

  lemma EndGranted(s: Store, n: Node, now: Time)
    ensures Respects(FinalEnd(s, n, now), AskedEnd(n))
    ensures FinalEnd(s, n, now) == AskedEnd(n) || FinalEnd(s, n, now) == ApprovalBound(s, n, now)
  {
  }

  /** Approved as it was shown: where the node went onward from m to where the turn begins, the turn grants what
      m asks for. */
  lemma ApprovesLater(cfg: Config, s: Store, turn: Turn, m: Node, id: Id, step: (Store, Op) -> bool)
    requires Shaped(s) && LegalTurn(cfg, s, turn, step) && id in s
    requires m.status != Imported && Onward(m, s[id]) && Approves(s, turn, id, Revision(m))
    ensures id in TurnEnd(s, turn) && GrantsAsShown(s, turn, m, TurnEnd(s, turn)[id])
  {
    CheckedDrifts(s, turn);
    var v, w := Checked(s, turn), AtWrite(s, turn);
    ReadNode(s, turn, id);
    DriftShaped(s, w);
    ApproveFacts(turn.cfg, v, turn.caller, id, turn.op.approve);
    ApprovalWritten(v, w, turn.caller, id, turn.op.approve);
    assert SameShown(m, s[id]);
    EndGranted(v, m, turn.caller.now);
    ShownAlike(v, m, s[id], turn.op.approve, turn.caller.now);
  }

  /** What was measured and kept of the history plays no part in a decision. */
  lemma ShownAlike(s: Store, m: Node, n: Node, req: ApproveRequest, now: Time)
    requires SameShown(m, n)
    ensures FinalLimit(n, req) == FinalLimit(m, req) && FinalMembers(n) == FinalMembers(m)
    ensures FinalEnd(s, n, now) == FinalEnd(s, m, now)
  {
  }

  /** In every interleaved run: an approval that names the revision of a state somebody was shown between two
      turns of the lock grants what was shown, whatever is done and noted in between. */
  lemma ApprovesWhatWasShown(cfg: Config, s: Store, turns: seq<Turn>, last: Turn, id: Id, step: (Store, Op) -> bool)
    requires Shaped(s) && LegalTurns(cfg, s, turns, step) && LegalTurn(cfg, AfterTurns(s, turns), last, step)
    requires id in s && s[id].status != Imported && PresentInTurns(s, turns, id) && ToldInTurns(s, turns, id)
    requires Approves(AfterTurns(s, turns), last, id, Revision(s[id]))
    ensures var t := AfterTurns(s, turns);
            id in TurnEnd(t, last) && GrantsAsShown(t, last, s[id], TurnEnd(t, last)[id])
  {
    TurnsOnward(cfg, s, turns, id, step);
    TurnsShaped(cfg, s, turns, step);
    ApprovesLater(cfg, AfterTurns(s, turns), last, s[id], id, step);
  }

  /** And so does one that names the revision of a state shown during a turn, unless a copy read before it is
      written over it. */
  lemma ApprovesWhatWasShownAside(cfg: Config, s: Store, first: Turn, k: nat, turns: seq<Turn>, last: Turn, id: Id,
                                  step: (Store, Op) -> bool)
    requires Shaped(s) && LegalTurn(cfg, s, first, step) && k <= |Aside(first)|
    requires id in s && id in ShownAt(s, first, k) && ShownAt(s, first, k)[id].status != Imported
    requires !Overtaken(s, first, k, id) && !SilentTurn(s, first, id)
    requires var t := TurnEnd(s, first);
             && id in t && LegalTurns(cfg, t, turns, step) && PresentInTurns(t, turns, id) && ToldInTurns(t, turns, id)
             && LegalTurn(cfg, AfterTurns(t, turns), last, step)
             && Approves(AfterTurns(t, turns), last, id, Revision(ShownAt(s, first, k)[id]))
    ensures var t := AfterTurns(TurnEnd(s, first), turns);
            id in TurnEnd(t, last) && GrantsAsShown(t, last, ShownAt(s, first, k)[id], TurnEnd(t, last)[id])
  {
    var t, m := TurnEnd(s, first), ShownAt(s, first, k)[id];
    TurnOnward(cfg, s, first, k, id, step);
    TurnShaped(cfg, s, first, step);
    TurnsOnward(cfg, t, turns, id, step);
    TurnsShaped(cfg, t, turns, step);
    OnwardOn(m, t[id], AfterTurns(t, turns)[id]);
    ApprovesLater(cfg, AfterTurns(t, turns), last, m, id, step);
  }

  // ── A case where it is not so ───────────────────────────────────────────────

  const TEN_CORES := ChangeRequest(Some(TEN), None, None)

  /** The owner asks for ten cores instead of five; between the read and the write somebody makes a note. */
  function Meanwhile(c: Caller): Turn {
    Turn(CORES_ONLY, c, OpChange("project", TEN_CORES), [], [Note("project")])
  }

  lemma MeanwhileNoted(c: Caller)
    ensures Checked(WAITING, Meanwhile(c)) == WAITING
    ensures AtWrite(WAITING, Meanwhile(c)) == Put(WAITING, "project", Logged(WAITING["project"], 1))
  {
    var ws := [Note("project")];
    assert ws[..0] == [];
    assert AfterReports(WAITING, ws) == ApplyReport(AfterReports(WAITING, []), Note("project"));
    assert WAITING["project" := WAITING["project"]] == WAITING;
  }

  lemma TenAsked(c: Caller)
    requires "admin" in c.tokens
    ensures RequestChange(CORES_ONLY, WAITING, c, "project", TEN_CORES)
            == Ok(Put(WAITING, "project", Amended(WAITING["project"], TEN_CORES)))
  {
    WaitingChains();
    var n := WAITING["project"];
    assert Above(WAITING, n)[0] == "group" && "admin" in WAITING["group"].policy.admins * c.tokens;
    assert ManagesAbove(WAITING, c.tokens, n);
    assert Q(TEN, CORES) == 10;
  }

  /** The request as somebody saw it, and as it is stored after the turn. */
  function SeenNode(): Node {
    CapHistory(Logged(WAITING["project"], 1))
  }

  function StoredNode(): Node {
    CapHistory(Amended(WAITING["project"], TEN_CORES))
  }

  lemma StaleNodes()
    ensures Revision(SeenNode()) == 2 && SeenNode().limit == FIVE && SeenNode().status == Pending
    ensures Revision(StoredNode()) == 2
    ensures StoredNode() == WAITING["project"].(limit := TEN, log := Log(2, 0))
  {
  }

  lemma StaleTurn(c: Caller)
    requires "admin" in c.tokens
    ensures LegalTurn(CORES_ONLY, WAITING, Meanwhile(c), AnyStep)
    ensures ShownAt(WAITING, Meanwhile(c), 1) == WAITING["project" := SeenNode()]
    ensures TurnEnd(WAITING, Meanwhile(c)) == WAITING["project" := StoredNode()]
  {
    var w := AtWrite(WAITING, Meanwhile(c));
    MeanwhileNoted(c);
    TenAsked(c);
    AllAside(WAITING, Meanwhile(c));
    assert |Aside(Meanwhile(c))| == 1;
    assert CapHistory(StoredNode()) == StoredNode();
    assert w["project" := StoredNode()] == WAITING["project" := StoredNode()];
  }

  lemma StaleOvertaken(c: Caller)
    requires "admin" in c.tokens
    ensures |Aside(Meanwhile(c))| == 1 && Overtaken(WAITING, Meanwhile(c), 1, "project")
  {
    var ws := Aside(Meanwhile(c));
    MeanwhileNoted(c);
    TenAsked(c);
    assert ws == [Note("project")] && ws[..1] == ws && ws[..0] == [];
    assert NotesOn(ws, "project") == NotesOn(ws[..0], "project") + 1;
  }

  lemma StaleApproved(c: Caller)
    requires "admin" in c.tokens
    ensures var s, req := WAITING["project" := StoredNode()], ApproveRequest(Some(2), None);
            var o := Approve(CORES_ONLY, s, c, "project", req);
            o.Ok? && "project" in o.value && o.value["project"].limit == TEN
  {
    var s, n := WAITING["project" := StoredNode()], StoredNode();
    StaleNodes();
    StaleGrantable();
    assert Above(s, n)[0] == "group" && "admin" in s["group"].policy.admins * c.tokens;
    assert ManagesAbove(s, c.tokens, n);
  }

  lemma StaleAbove()
    ensures var s := WAITING["project" := StoredNode()];
            Budgets(s) == Budgets(WAITING) && Chain(Budgets(s), "group") == ["group", "team", ROOT]
  {
    StaleNodes();
    WaitingChains();
  }

  lemma StaleUnused(b: Id)
    ensures Usage(CORES_ONLY, WAITING["project" := StoredNode()], b, CORES) == 0
  {
    StaleNodes();
    NobodyActive(WAITING["project" := StoredNode()], b);
  }

  lemma StaleHasRoom()
    ensures var s := WAITING["project" := StoredNode()];
            HasRoom(CORES_ONLY, s, Chain(Budgets(s), "group"), TEN, map[])
  {
    StaleAbove();
    StaleUnused("group");
    StaleUnused("team");
    StaleUnused(ROOT);
    assert Q(TEN, CORES) == 10 && Q(map[], CORES) == 0;
  }

  lemma StaleGrantable()
    ensures var s := WAITING["project" := StoredNode()];
            && GrantOk(CORES_ONLY, s, "project", TEN) && Above(s, StoredNode()) == ["group", "team", ROOT]
  {
    var s := WAITING["project" := StoredNode()];
    StaleNodes();
    StaleAbove();
    StaleHasRoom();
    assert LeafLimitOk(CORES_ONLY, s, [], Chain(Budgets(s), "group"), TEN);
  }

  /** Five cores are shown at revision 2; the copy written over the note has ten, at revision 2; and who approves
      revision 2 grants ten. */
  lemma StaleCopy(c: Caller)
    requires "admin" in c.tokens
    ensures LegalTurn(CORES_ONLY, WAITING, Meanwhile(c), AnyStep)
    ensures |Aside(Meanwhile(c))| == 1 && Overtaken(WAITING, Meanwhile(c), 1, "project")
    ensures var shown, t := ShownAt(WAITING, Meanwhile(c), 1), TurnEnd(WAITING, Meanwhile(c));
            && "project" in shown && Revision(shown["project"]) == 2 && shown["project"].limit == FIVE
            && "project" in t && Revision(t["project"]) == 2 && t["project"].limit == TEN
            && var o := Approve(CORES_ONLY, t, c, "project", ApproveRequest(Some(2), None));
               o.Ok? && "project" in o.value && o.value["project"].limit == TEN
  {
    StaleNodes();
    StaleTurn(c);
    StaleOvertaken(c);
    StaleApproved(c);
  }
}
