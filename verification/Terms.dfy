/** A sub-budget may tighten the maximum project term, never escape it; and a cascade is carried
    down completely, once (rule_terms.go). */
module Terms {
  import opened Model
  import opened Chains
  import opened Charges
  import opened Rules
  import opened Steps
  import opened Reports
  import opened Runs
  import opened Shape
  import opened Values
  import opened Lifetimes

  predicate LiveBudget(n: Node) {
    n.kind == Budget && Live(n.status)
  }

  /** A live budget allows no longer a term than its parent. */
  ghost predicate TermInLine(s: Store, id: Id)
    requires id in s
  {
    LiveBudget(s[id]) && s[id].parent.Some? && s[id].parent.value in s ==>
      Respects(s[id].maxTerm, s[s[id].parent.value].maxTerm)
  }

  ghost predicate InLine(s: Store) {
    forall id {:trigger TermInLine(s, id)} :: id in s ==> TermInLine(s, id)
  }

  // ── What that means along a chain ───────────────────────────────────────────

  lemma {:induction false} TighterChain(s: Store, b: Id, chain: seq<Id>)
    ensures ChainMaxTerm(s, [b] + chain) == Tighter(TermAt(s, b), ChainMaxTerm(s, chain))
    ensures ChainEnd(s, [b] + chain) == Tighter(EndAt(s, b), ChainEnd(s, chain))
    decreases |chain|
  {
    var c := [b] + chain;
    if chain == [] {
      assert c[..|c| - 1] == [];
    } else {
      assert c[..|c| - 1] == [b] + chain[..|chain| - 1];
      TighterChain(s, b, chain[..|chain| - 1]);
    }
  }

  /** The shortest term and the earliest end along a chain are those of its nearest budget. */
  lemma {:induction false} NearestBinds(s: Store, b: Id)
    requires Shaped(s) && InLine(s) && Timely(s) && b in s && s[b].kind == Budget && Active(s[b].status)
    ensures ChainMaxTerm(s, Chain(Budgets(s), b)) == s[b].maxTerm
    ensures ChainEnd(s, Chain(Budgets(s), b)) == s[b].end
    decreases |Chain(Budgets(s), b)|
  {
    ChainStep(Budgets(s), b);
    assert TermInLine(s, b) && EndsInTime(s, b) && Hangs(s, s[b]);
    if s[b].parent.Some? {
      var p := s[b].parent.value;
      NearestBinds(s, p);
      TighterChain(s, b, Chain(Budgets(s), p));
    } else {
      TighterChain(s, b, []);
      assert [b] + [] == [b];
    }
  }

  lemma {:induction false} ChainTermBounds(s: Store, chain: seq<Id>, b: Id)
    requires b in chain && b in s
    ensures Respects(ChainMaxTerm(s, chain), s[b].maxTerm)
    decreases |chain|
  {
    var h, l := chain[..|chain| - 1], chain[|chain| - 1];
    if b in h {
      ChainTermBounds(s, h, b);
    }
  }

  // ── How a write keeps it ────────────────────────────────────────────────────

  /** No budget comes alive or changes its term. */
  lemma InLineSame(s: Store, t: Store)
    requires InLine(s) && t.Keys == s.Keys
    requires forall id :: id in s ==>
      t[id].parent == s[id].parent && t[id].maxTerm == s[id].maxTerm && (LiveBudget(t[id]) ==> LiveBudget(s[id]))
    ensures InLine(t)
  {
    forall id | id in t
      ensures TermInLine(t, id)
    {
      assert TermInLine(s, id);
    }
  }

  lemma InLineWritten(s: Store, id: Id, n: Node)
    requires InLine(s) && id in s && n.parent == s[id].parent && n.maxTerm == s[id].maxTerm
    requires LiveBudget(n) ==> LiveBudget(s[id])
    ensures InLine(Put(s, id, n))
  {
    InLineSame(s, Put(s, id, n));
  }

  /** Every term is in line, those right below id only once they are cut to days. */
  ghost predicate InLineOnceCut(s: Store, id: Id, days: int)
    requires id in s
  {
    && (forall d :: d in s && s[d].parent != Some(id) ==> TermInLine(s, d))
    && (forall d :: d in s && LiveBudget(s[d]) && s[d].parent == Some(id) ==>
          Respects(Cut(s[d].maxTerm, days), s[id].maxTerm))
  }

  lemma TermsRepair(s: Store, id: Id, days: int, now: Time)
    requires Shaped(s) && id in s && InLineOnceCut(s, id, days)
    ensures InLine(CascadeTerms(s, id, days, now))
  {
    var t := CascadeTerms(s, id, days, now);
    forall d | d in t
      ensures TermInLine(t, d)
    {
      if LiveBudget(t[d]) && t[d].parent.Some? && t[d].parent.value in t {
        TermRepairedAt(s, id, d, days, now);
      }
    }
  }

  lemma TermRepairedAt(s: Store, id: Id, d: Id, days: int, now: Time)
    requires Shaped(s) && id in s && InLineOnceCut(s, id, days)
    requires d in s && LiveBudget(s[d]) && s[d].parent.Some? && s[d].parent.value in s
    ensures TermInLine(CascadeTerms(s, id, days, now), d)
  {
    var p := s[d].parent.value;
    if p == id {
      NotBelowItself(s, id);
      ChildIsBelow(s, id, d);
      CutInLine(s, id, d, days, now);
    } else {
      assert TermInLine(s, d) && Hangs(s, s[d]);
      AboveStep(s, d, id);
      KeptInLine(s, id, d, p, days, now);
    }
  }

  lemma CutInLine(s: Store, id: Id, d: Id, days: int, now: Time)
    requires id in s && d in s && LiveBudget(s[d]) && s[d].parent == Some(id) && LiveBelow(s, id, d)
    requires !LiveBelow(s, id, id) && Respects(Cut(s[d].maxTerm, days), s[id].maxTerm)
    ensures TermInLine(CascadeTerms(s, id, days, now), d)
  {
  }

  lemma KeptInLine(s: Store, id: Id, d: Id, p: Id, days: int, now: Time)
    requires d in s && p in s && LiveBudget(s[d]) && s[p].kind == Budget && Active(s[p].status)
        && s[d].parent == Some(p)
    requires LiveBelow(s, id, d) <==> LiveBelow(s, id, p)
    requires Respects(s[d].maxTerm, s[p].maxTerm)
    ensures TermInLine(CascadeTerms(s, id, days, now), d)
  {
  }

  lemma EndsKeepTerms(s: Store, top: Id, end: Time)
    ensures forall id :: id in s ==>
      CascadeEnds(s, top, end)[id].parent == s[id].parent && CascadeEnds(s, top, end)[id].maxTerm == s[id].maxTerm
      && CascadeEnds(s, top, end)[id].kind == s[id].kind && CascadeEnds(s, top, end)[id].status == s[id].status
  {
  }

  lemma InLineEnds(s: Store, top: Id, end: Time)
    requires InLine(s)
    ensures InLine(CascadeEnds(s, top, end))
  {
    EndsKeepTerms(s, top, end);
    InLineSame(s, CascadeEnds(s, top, end));
  }

  lemma OnceCutEnds(s: Store, top: Id, end: Time, id: Id, days: int)
    requires id in s && InLineOnceCut(s, id, days)
    ensures InLineOnceCut(CascadeEnds(s, top, end), id, days)
  {
    var t := CascadeEnds(s, top, end);
    EndsKeepTerms(s, top, end);
    forall d | d in t && t[d].parent != Some(id)
      ensures TermInLine(t, d)
    {
      assert TermInLine(s, d);
    }
  }

  // ── Every operation ─────────────────────────────────────────────────────────

  lemma InLineCreate(cfg: Config, s: Store, c: Caller, id: Id, req: CreateRequest)
    requires Shaped(s) && InLine(s) && id !in s && Create(cfg, s, c, id, req).Ok?
    ensures InLine(Create(cfg, s, c, id, req).value)
  {
    var n := CreatedNode(cfg, s, c, id, req);
    var t := s[id := n];
    var p := req.parent;
    assert p in Budgets(s);
    ChainOk(Budgets(s), p);
    ChainTermBounds(s, Chain(Budgets(s), p), p);
    forall d | d in t
      ensures TermInLine(t, d)
    {
      if d != id { assert TermInLine(s, d) && Hangs(s, s[d]); }
    }
  }

  /** The one request whose term is not carried down: it panics between the write and the cascade. */
  predicate Orderly(op: Op) {
    op.OpUpdate? && PanicsEarly(op.update) ==> op.update.maxTerm.None? || op.update.clearMaxTerm
  }

  predicate SetsTerm(req: UpdateRequest) {
    req.maxTerm.Some? && !req.clearMaxTerm
  }

  /** An edit leaves the terms in line once its own is carried down. */
  lemma EditedInLine(s: Store, id: Id, req: UpdateRequest)
    requires Shaped(s) && InLine(s) && id in s && TermEditOk(s, Above(s, s[id]), req)
    ensures var t := Put(s, id, Edited(s, s[id], Above(s, s[id]), req));
            if SetsTerm(req) then InLineOnceCut(t, id, req.maxTerm.value) else InLine(t)
  {
    var n := s[id];
    var e := Edited(s, n, Above(s, n), req);
    var t := Put(s, id, e);
    NotOwnParent(s, id);
    assert TermInLine(s, id);
    if n.parent.Some? { ParentTerm(s, id); }
    forall d | d in t && (SetsTerm(req) ==> t[d].parent != Some(id))
      ensures TermInLine(t, d)
    {
      assert TermInLine(s, d);
    }
  }

  lemma ParentTerm(s: Store, id: Id)
    requires Shaped(s) && id in s && s[id].parent.Some?
    ensures s[id].parent.value in s
    ensures Respects(ChainMaxTerm(s, Above(s, s[id])), s[s[id].parent.value].maxTerm)
  {
    assert Hangs(s, s[id]);
    var p := s[id].parent.value;
    assert p in Budgets(s);
    ChainOk(Budgets(s), p);
    ChainTermBounds(s, Chain(Budgets(s), p), p);
  }

  lemma InLineUpdate(cfg: Config, s: Store, c: Caller, id: Id, req: UpdateRequest)
    requires Shaped(s) && InLine(s) && Update(cfg, s, c, id, req).Ok? && (PanicsEarly(req) ==> !SetsTerm(req))
    ensures InLine(Update(cfg, s, c, id, req).value)
  {
    UpdateFacts(cfg, s, c, id, req);
    var t := Put(s, id, Edited(s, s[id], Above(s, s[id]), req));
    UpdateInPlace(cfg, s, c, id, req);
    ShapeInPlace(s, t);
    EditedInLine(s, id, req);
    InLineCarriedDown(t, id, req, c.now);
  }

  lemma InLineCarriedDown(s: Store, id: Id, req: UpdateRequest, now: Time)
    requires Shaped(s) && id in s && (PanicsEarly(req) ==> !SetsTerm(req))
    requires if SetsTerm(req) then InLineOnceCut(s, id, req.maxTerm.value) else InLine(s)
    ensures InLine(CarriedDown(s, id, req, now))
  {
    if !PanicsEarly(req) {
      var t := s;
      if req.end.Some? {
        t := CascadeEnds(s, id, req.end.value);
        CascadeEndsInPlace(s, id, req.end.value);
        ShapeInPlace(s, t);
        if SetsTerm(req) { OnceCutEnds(s, id, req.end.value, id, req.maxTerm.value); }
        else { InLineEnds(s, id, req.end.value); }
      }
      if SetsTerm(req) { TermsRepair(t, id, req.maxTerm.value, now); }
    }
  }

  /** Exactly when such a request keeps the terms in line: when no live budget right below allows
      longer than the term it sets. */
  lemma PanickingUpdateExact(cfg: Config, s: Store, c: Caller, id: Id, req: UpdateRequest)
    requires Shaped(s) && InLine(s) && Update(cfg, s, c, id, req).Ok? && PanicsEarly(req) && SetsTerm(req)
    ensures InLine(Update(cfg, s, c, id, req).value)
      <==> forall d :: d in s && LiveBudget(s[d]) && s[d].parent == Some(id) ==> Respects(s[d].maxTerm, req.maxTerm)
  {
    var t := Update(cfg, s, c, id, req).value;
    var e := Edited(s, s[id], Above(s, s[id]), req);
    assert t == Put(s, id, e);
    EditedInLine(s, id, req);
    NotOwnParent(s, id);
    if InLine(t) {
      forall d | d in s && LiveBudget(s[d]) && s[d].parent == Some(id)
        ensures Respects(s[d].maxTerm, req.maxTerm)
      {
        assert TermInLine(t, d);
      }
    }
  }

  lemma InLineMove(cfg: Config, s: Store, c: Caller, id: Id, target: Id)
    requires Shaped(s) && InLine(s) && Move(cfg, s, c, id, target).Ok?
    ensures InLine(Move(cfg, s, c, id, target).value)
  {
    MoveFacts(cfg, s, c, id, target);
    ShapeMoved(s, id, target, c.now);
    InLineMoved(s, id, target, c.now);
    MovedNodeKeeps(s, s[id], target, c.now);
    InLineCarried(MoveWritten(s, id, target, c.now), id, MoveBound(s, s[id], target, c.now), c.now);
  }

  lemma InLineCarried(s: Store, id: Id, bound: Option<Time>, now: Time)
    requires Shaped(s) && id in s
    requires if s[id].kind == Budget
        && s[id].maxTerm.Some? then InLineOnceCut(s, id, s[id].maxTerm.value) else InLine(s)
    ensures InLine(MoveCarried(s, id, bound, now))
  {
    if s[id].kind == Budget {
      var t := s;
      if bound.Some? {
        t := CascadeEnds(s, id, bound.value);
        CascadeEndsInPlace(s, id, bound.value);
        ShapeInPlace(s, t);
        if s[id].maxTerm.Some? { OnceCutEnds(s, id, bound.value, id, s[id].maxTerm.value); }
        else { InLineEnds(s, id, bound.value); }
      }
      if s[id].maxTerm.Some? {
        TermsRepair(t, id, s[id].maxTerm.value, now);
      }
    }
  }

  lemma MovedTerm(s: Store, n: Node, target: Id, now: Time)
    ensures var m, term := MovedNode(s, n, target, now), ChainMaxTerm(s, Chain(Budgets(s), target));
            m.maxTerm == if term.Some? && n.kind == Budget then Cut(n.maxTerm, term.value) else n.maxTerm
  {
  }

  lemma InLineMoved(s: Store, id: Id, target: Id, now: Time)
    requires Shaped(s) && InLine(s) && id in s && Live(s[id].status) && id !in Chain(Budgets(s), target)
    requires target in s && s[target].kind == Budget
    ensures var t := MoveWritten(s, id, target, now);
            if s[id].kind == Budget && t[id].maxTerm.Some? then InLineOnceCut(t, id, t[id].maxTerm.value) else InLine(t)
  {
    var n := MovedNode(s, s[id], target, now);
    var t := MoveWritten(s, id, target, now);
    MovedNodeKeeps(s, s[id], target, now);
    MovedTerm(s, s[id], target, now);
    assert target in Budgets(s);
    ChainOk(Budgets(s), target);
    ChainTermBounds(s, Chain(Budgets(s), target), target);
    if s[id].kind == Project { NoChildren(s, id); }
    forall d | d in t && (t[d].parent != Some(id) || n.maxTerm.None? || s[id].kind == Project)
      ensures TermInLine(t, d)
    {
      assert TermInLine(s, d);
    }
  }

  lemma InLineDelete(s: Store, c: Caller, id: Id)
    requires InLine(s) && Delete(s, c, id).Ok?
    ensures InLine(Delete(s, c, id).value)
  {
    var t := Delete(s, c, id).value;
    forall d | d in t
      ensures TermInLine(t, d)
    {
      assert TermInLine(s, d);
    }
  }

  lemma InLineProject(s: Store, id: Id, n: Node)
    requires Shaped(s) && InLine(s) && n.kind == Project && (id in s ==> s[id].kind == Project)
    ensures InLine(s[id := n])
  {
    var t := s[id := n];
    forall d | d in t
      ensures TermInLine(t, d)
    {
      if d in s { assert TermInLine(s, d) && Hangs(s, s[d]); }
    }
  }

  lemma InLineRewrite(s: Store, w: Rewrite)
    requires InLine(s)
    ensures InLine(RewriteAll(s, w))
  {
    InLineSame(s, RewriteAll(s, w));
  }

  lemma InLineGrantRoot(s: Store, r: Rid)
    requires InLine(s)
    ensures InLine(AdoptAvailability(s, r))
  {
    InLineSame(s, AdoptAvailability(s, r));
  }

  lemma InLineReject(s: Store, c: Caller, id: Id)
    requires InLine(s) && Reject(s, c, id).Ok?
    ensures InLine(Reject(s, c, id).value)
  {
    InLineWritten(s, id, Refused(s[id]));
  }

  lemma InLineRelease(s: Store, c: Caller, id: Id, delete: bool, deletable: bool)
    requires InLine(s) && Release(s, c, id, delete, deletable).Ok?
    ensures InLine(Release(s, c, id, delete, deletable).value)
  {
    InLineWritten(s, id, ReleasedNode(s[id], delete));
  }

  lemma InLineTransfer(s: Store, c: Caller, id: Id, owner: Token)
    requires InLine(s) && Transfer(s, c, id, owner).Ok?
    ensures InLine(Transfer(s, c, id, owner).value)
  {
    InLineWritten(s, id, HandedOver(s[id], owner));
  }

  lemma InLinePromote(cfg: Config, s: Store, c: Caller, id: Id, req: PromoteRequest)
    requires Shaped(s) && InLine(s) && Promote(cfg, s, c, id, req).Ok?
    ensures InLine(Promote(cfg, s, c, id, req).value)
  {
    PromoteFacts(cfg, s, c, id, req);
    assert OwnShape(s[id]);
    InLineProject(s, id, CapHistory(PromotedNode(s, s[id], req, c.now)));
  }

  lemma InLineAllocate(cfg: Config, s: Store, c: Caller, id: Id, b: Id, amount: Quota)
    requires InLine(s) && Allocate(cfg, s, c, id, b, amount).Ok?
    ensures InLine(Allocate(cfg, s, c, id, b, amount).value)
  {
    AllocateFacts(cfg, s, c, id, b, amount);
    InLineWritten(s, id, Allocated(s[id], b, NonZero(amount)));
  }

  lemma InLineReport(s: Store, w: Report)
    requires Shaped(s) && InLine(s) && ReportEnabled(s, w)
    ensures InLine(ApplyReport(s, w))
  {
    if w.AddImport? {
      InLineProject(s, w.id, ImportedNode(w.limit, w.members));
    } else if w.id in s {
      assert OwnShape(s[w.id]);
      if Reported(s[w.id], w).None? {
        InLineGone(s, w.id);
      } else {
        ReportedTerm(s[w.id], w);
        InLineWith(s, w.id, Reported(s[w.id], w).value);
      }
    }
  }

  lemma InLineGone(s: Store, id: Id)
    requires InLine(s)
    ensures InLine(s - {id})
  {
    forall d | d in s - {id} ensures TermInLine(s - {id}, d) { assert TermInLine(s, d); }
  }

  lemma InLineWith(s: Store, id: Id, n: Node)
    requires InLine(s) && id in s
    requires n.parent == s[id].parent && n.maxTerm == s[id].maxTerm && (LiveBudget(n) ==> LiveBudget(s[id]))
    ensures InLine(s[id := n])
  {
    InLineSame(s, s[id := n]);
  }

  lemma ReportedTerm(n: Node, w: Report)
    requires OwnShape(n) && Reported(n, w).Some?
    ensures var m := Reported(n, w).value;
            m.parent == n.parent && m.maxTerm == n.maxTerm && (LiveBudget(m) ==> LiveBudget(n))
  {
  }

  lemma InLineChange(cfg: Config, s: Store, c: Caller, id: Id, req: ChangeRequest)
    requires InLine(s) && RequestChange(cfg, s, c, id, req).Ok?
    ensures InLine(RequestChange(cfg, s, c, id, req).value)
  {
    var n := ChangedNode(cfg, s, c, id, req);
    InLineWritten(s, id, n);
  }

  lemma InLineApprove(cfg: Config, s: Store, c: Caller, id: Id, req: ApproveRequest)
    requires InLine(s) && Approve(cfg, s, c, id, req).Ok?
    ensures InLine(Approve(cfg, s, c, id, req).value)
  {
    ApproveFacts(cfg, s, c, id, req);
    var d := Decided(s, s[id], req, c.now);
    InLineWritten(s, id, d);
    if d.end.Some? { InLineEnds(Put(s, id, d), id, d.end.value); }
  }

  /** Whatever happens, no live budget allows its projects longer than a budget above it. */
  lemma InLineNext(cfg: Config, s: Store, c: Caller, op: Op)
    requires Shaped(s) && InLine(s) && Enabled(cfg, s, op) && Orderly(op)
    ensures InLine(Next(cfg, s, c, op))
  {
    if OutcomeOf(cfg, s, c, op).Ok? {
      match op
      case OpCreate(id, req) => InLineCreate(cfg, s, c, id, req);
      case OpUpdate(id, req) => InLineUpdate(cfg, s, c, id, req);
      case OpChange(id, req) => InLineChange(cfg, s, c, id, req);
      case OpApprove(id, req) => InLineApprove(cfg, s, c, id, req);
      case OpReject(id) => InLineReject(s, c, id);
      case OpRelease(id, d, e) => InLineRelease(s, c, id, d, e);
      case OpDelete(id) => InLineDelete(s, c, id);
      case OpMove(id, target) => InLineMove(cfg, s, c, id, target);
      case OpTransfer(id, owner) => InLineTransfer(s, c, id, owner);
      case OpPromote(id, req) => InLinePromote(cfg, s, c, id, req);
      case OpAllocate(id, b, q) => InLineAllocate(cfg, s, c, id, b, q);
      case OpRewrite(w) => InLineRewrite(s, w);
      case OpGrantRoot(r) => InLineGrantRoot(s, r);
      case OpReport(w) => InLineReport(s, w);
    }
  }

  // ── Cascades ────────────────────────────────────────────────────────────────

  lemma CascadeSees(s: Store, t: Store, top: Id)
    requires t.Keys == s.Keys
    requires forall id :: id in s ==>
      t[id].kind == s[id].kind && t[id].parent == s[id].parent && t[id].status == s[id].status
    ensures forall id :: LiveBelow(t, top, id) <==> LiveBelow(s, top, id)
  {
    InPlaceBudgets(s, t);
  }

  lemma ShortenedOnce(n: Node, end: Time)
    ensures ShortenEnd(ShortenEnd(n, end), end) == ShortenEnd(n, end)
  {
  }

  lemma TermShortenedOnce(n: Node, days: int)
    ensures ShortenTerm(ShortenTerm(n, days), days) == ShortenTerm(n, days)
  {
  }

  /** A second cascade of ends changes nothing. */
  lemma EndsIdempotent(s: Store, top: Id, end: Time)
    ensures CascadeEnds(CascadeEnds(s, top, end), top, end) == CascadeEnds(s, top, end)
  {
    var t := CascadeEnds(s, top, end);
    CascadeSees(s, t, top);
    forall id | id in t
      ensures CascadeEnds(t, top, end)[id] == t[id]
    {
      ShortenedOnce(s[id], end);
    }
  }

  /** Neither does a second cascade of terms on the same day. */
  lemma TermsIdempotent(s: Store, top: Id, days: int, now: Time)
    ensures CascadeTerms(CascadeTerms(s, top, days, now), top, days, now) == CascadeTerms(s, top, days, now)
  {
    var t := CascadeTerms(s, top, days, now);
    CascadeSees(s, t, top);
    forall id | id in t
      ensures CascadeTerms(t, top, days, now)[id] == t[id]
    {
      ShortenedOnce(s[id], TermEnd(now, days));
      TermShortenedOnce(s[id], days);
    }
  }

  /** A cascade of ends reaches every live node below and only ever shortens. */
  lemma EndsReachAll(s: Store, top: Id, end: Time, id: Id)
    requires id in s
    ensures var t := CascadeEnds(s, top, end);
            && (LiveBelow(s, top, id) ==> t[id].end.Some? && t[id].end.value <= end)
            && (t[id] != s[id] ==> LiveBelow(s, top, id) && Revision(t[id]) == Revision(s[id]) + 1)
            && Respects(t[id].end, s[id].end)
  {
  }

  /** A cascade of terms reaches every live node below and only ever shortens: budgets are capped, projects end
      within the term. */
  lemma TermsReachAll(s: Store, top: Id, days: int, now: Time, id: Id)
    requires id in s
    ensures var t := CascadeTerms(s, top, days, now);
            && (LiveBelow(s, top, id) && s[id].kind == Budget ==> t[id].maxTerm.Some? && t[id].maxTerm.value <= days)
            && (LiveBelow(s, top, id) && s[id].kind == Project ==>
                  t[id].end.Some? && t[id].end.value <= TermEnd(now, days))
            && (t[id] != s[id] ==> LiveBelow(s, top, id) && Revision(t[id]) == Revision(s[id]) + 1)
            && Respects(t[id].end, s[id].end) && Respects(t[id].maxTerm, s[id].maxTerm)
  {
  }
}
