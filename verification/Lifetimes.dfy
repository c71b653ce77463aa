/** Nothing outlives the budget it draws from: in every reachable store an active node below a budget
    that ends has an end, and no later one (rule_terms.go). */
module Lifetimes {
  import opened Model
  import opened Chains
  import opened Charges
  import opened Rules
  import opened Steps
  import opened Reports
  import opened Runs
  import opened Shape
  import opened Values

  /** An end a that respects an end b above it. */
  predicate Respects(a: Option<Time>, b: Option<Time>) {
    b.Some? ==> a.Some? && a.value <= b.value
  }

  /** An active node ends with its parent at the latest. */
  ghost predicate EndsInTime(s: Store, id: Id)
    requires id in s
  {
    Active(s[id].status) && s[id].parent.Some? && s[id].parent.value in s ==>
      Respects(s[id].end, s[s[id].parent.value].end)
  }

  ghost predicate Timely(s: Store) {
    forall id {:trigger EndsInTime(s, id)} :: id in s ==> EndsInTime(s, id)
  }

  /** The promise in full: no active node outlives any budget above it. */
  lemma {:induction false} NothingOutlives(s: Store, id: Id, b: Id)
    requires Shaped(s) && Timely(s) && id in s && Active(s[id].status) && b in Above(s, s[id])
    ensures b in s && Respects(s[id].end, s[b].end)
    decreases |Above(s, s[id])|
  {
    var p := s[id].parent.value;
    assert Hangs(s, s[id]) && EndsInTime(s, id);
    ChainStep(Budgets(s), p);
    if b != p {
      NothingOutlives(s, p, b);
    }
  }

  // ── The bound a chain sets ──────────────────────────────────────────────────

  /** What respects the chain's end respects every end on it. */
  lemma {:induction false} ChainEndBounds(s: Store, chain: seq<Id>, b: Id)
    requires b in chain && b in s
    ensures Respects(ChainEnd(s, chain), s[b].end)
    decreases |chain|
  {
    var h, l := chain[..|chain| - 1], chain[|chain| - 1];
    if b in h {
      ChainEndBounds(s, h, b);
    }
  }

  /** And the chain's end is one of them. */
  lemma {:induction false} ChainEndAttained(s: Store, chain: seq<Id>)
    requires ChainEnd(s, chain).Some?
    ensures exists b :: b in chain && b in s && s[b].end == ChainEnd(s, chain)
    decreases |chain|
  {
    var h, l := chain[..|chain| - 1], chain[|chain| - 1];
    if ChainEnd(s, chain) == ChainEnd(s, h) {
      ChainEndAttained(s, h);
      var b :| b in h && b in s && s[b].end == ChainEnd(s, h);
      assert b in chain;
    } else {
      assert l in chain;
    }
  }

  lemma ParentBounds(s: Store, n: Node, p: Id)
    requires p in Chain(Budgets(s), p) && n.parent == Some(p) && p in s && s[p].end.Some?
    ensures ChainEnd(s, Above(s, n)).Some? && ChainEnd(s, Above(s, n)).value <= s[p].end.value
  {
    ChainEndBounds(s, Chain(Budgets(s), p), p);
  }

  /** The bound of a project is no later than the end of the budgets above it. */
  lemma ProjectBoundTighter(end: Option<Time>, days: Option<int>, now: Time)
    ensures Respects(ProjectBound(end, days, now).0, end)
    ensures days.Some? ==> ProjectBound(end, days, now).0.Some?
                           && ProjectBound(end, days, now).0.value <= TermEnd(now, days.value)
  {
  }

  lemma FitProjectEndRespects(end: Option<Time>, chainEnd: Option<Time>, days: Option<int>, now: Time)
    requires FitProjectEnd(end, chainEnd, days, now).Ok?
    ensures Respects(FitProjectEnd(end, chainEnd, days, now).value, chainEnd)
    ensures end.Some? ==> FitProjectEnd(end, chainEnd, days, now).value == end
  {
  }

  // ── How a write keeps it ────────────────────────────────────────────────────

  /** No node becomes active or changes its end. */
  lemma TimelySame(s: Store, t: Store)
    requires Timely(s) && t.Keys == s.Keys
    requires forall id :: id in s ==>
      t[id].parent == s[id].parent && t[id].end == s[id].end && (Active(t[id].status) ==> Active(s[id].status))
    ensures Timely(t)
  {
    forall id | id in t
      ensures EndsInTime(t, id)
    {
      assert EndsInTime(s, id);
    }
  }

  lemma TimelyWritten(s: Store, id: Id, n: Node)
    requires Timely(s) && id in s && n.parent == s[id].parent && n.end == s[id].end
    requires Active(n.status) ==> Active(s[id].status)
    ensures Timely(Put(s, id, n))
  {
    TimelySame(s, Put(s, id, n));
  }

  /** One node is rewritten in its place: it respects its parent, and what is below respects it. */
  lemma TimelyPut(s: Store, id: Id, n: Node)
    requires Timely(s) && id in s && n.parent == s[id].parent && s[id].parent != Some(id)
    requires Active(n.status) && n.parent.Some? && n.parent.value in s ==> Respects(n.end, s[n.parent.value].end)
    requires forall d :: d in s && Active(s[d].status) && s[d].parent == Some(id) ==> Respects(s[d].end, n.end)
    ensures Timely(Put(s, id, n))
  {
    var t := Put(s, id, n);
    forall d | d in t
      ensures EndsInTime(t, d)
    {
      assert EndsInTime(s, d);
    }
  }

  lemma NoChildren(s: Store, id: Id)
    requires Shaped(s) && id in s && (s[id].kind == Project || !Active(s[id].status))
    ensures forall d :: d in s ==> s[d].parent != Some(id)
  {
    forall d | d in s
      ensures s[d].parent != Some(id)
    {
      assert Hangs(s, s[d]);
    }
  }

  /** The end of a node after a cascade to end. */
  function Cut(a: Option<Time>, end: Time): Option<Time> {
    if RunsLonger(a, end) then Some(end) else a
  }

  /** Every node ends in time, the direct children of id only once they are cut to end. */
  ghost predicate InTimeOnceCut(s: Store, id: Id, end: Time)
    requires id in s
  {
    && (forall d :: d in s && s[d].parent != Some(id) ==> EndsInTime(s, d))
    && (forall d :: d in s && Active(s[d].status) && s[d].parent == Some(id) ==>
          Respects(Cut(s[d].end, end), s[id].end))
  }

  /** A cascade from id repairs what the new end of id leaves too long. */
  lemma CascadeRepairs(s: Store, id: Id, end: Time)
    requires Shaped(s) && id in s && InTimeOnceCut(s, id, end)
    ensures Timely(CascadeEnds(s, id, end))
  {
    var t := CascadeEnds(s, id, end);
    forall d | d in t
      ensures EndsInTime(t, d)
    {
      if Active(t[d].status) && t[d].parent.Some? && t[d].parent.value in t {
        RepairedAt(s, id, d, end);
      }
    }
  }

  lemma RepairedAt(s: Store, id: Id, d: Id, end: Time)
    requires Shaped(s) && id in s && InTimeOnceCut(s, id, end)
    requires d in s && Active(s[d].status) && s[d].parent.Some? && s[d].parent.value in s
    ensures EndsInTime(CascadeEnds(s, id, end), d)
  {
    var p := s[d].parent.value;
    if p == id {
      NotBelowItself(s, id);
      ChildIsBelow(s, id, d);
      CutInTime(s, id, d, end);
    } else {
      assert EndsInTime(s, d) && Hangs(s, s[d]);
      AboveStep(s, d, id);
      KeptInTime(s, id, d, p, end);
    }
  }

  lemma ChildIsBelow(s: Store, id: Id, d: Id)
    requires Shaped(s) && id in s && d in s && s[d].parent == Some(id)
    ensures id in Above(s, s[d])
  {
    assert Hangs(s, s[d]);
    ChainOk(Budgets(s), id);
  }

  lemma CutInTime(s: Store, id: Id, d: Id, end: Time)
    requires id in s && d in s && Active(s[d].status) && s[d].parent == Some(id) && LiveBelow(s, id, d)
    requires !LiveBelow(s, id, id) && Respects(Cut(s[d].end, end), s[id].end)
    ensures EndsInTime(CascadeEnds(s, id, end), d)
  {
  }

  lemma KeptInTime(s: Store, id: Id, d: Id, p: Id, end: Time)
    requires d in s && p in s && Active(s[d].status) && Active(s[p].status) && s[d].parent == Some(p)
    requires LiveBelow(s, id, d) <==> LiveBelow(s, id, p)
    requires Respects(s[d].end, s[p].end)
    ensures EndsInTime(CascadeEnds(s, id, end), d)
  {
  }

  lemma NotBelowItself(s: Store, id: Id)
    requires Shaped(s) && id in s
    ensures id !in Above(s, s[id]) && !LiveBelow(s, id, id)
  {
    if id in Above(s, s[id]) {
      assert Hangs(s, s[id]);
      assert s[id].kind == Budget by { ChainIn(Budgets(s), id, s[id].parent.value); }
      ChainStep(Budgets(s), id);
      ChainIn(Budgets(s), id, s[id].parent.value);
      ChainAcyclic(Budgets(s), id, s[id].parent.value);
      NotOwnParent(s, id);
    }
  }

  /** What lies above a node other than its parent lies above its parent. */
  lemma AboveStep(s: Store, d: Id, id: Id)
    requires Shaped(s) && d in s && s[d].parent.Some? && s[d].parent.value in s && s[d].parent != Some(id)
    ensures id in Above(s, s[d]) <==> id in Above(s, s[s[d].parent.value])
  {
    assert Hangs(s, s[d]);
    ChainStep(Budgets(s), s[d].parent.value);
  }

  /** A cascade of terms only ever shortens projects, which nothing hangs below. */
  lemma TimelyTerms(s: Store, top: Id, days: int, now: Time)
    requires Shaped(s) && Timely(s)
    ensures Timely(CascadeTerms(s, top, days, now))
  {
    var t := CascadeTerms(s, top, days, now);
    forall d | d in t && Active(t[d].status) && t[d].parent.Some? && t[d].parent.value in t
      ensures EndsInTime(t, d)
    {
      assert EndsInTime(s, d) && Hangs(s, s[d]);
      assert t[s[d].parent.value].end == s[s[d].parent.value].end;
    }
  }

  // ── Every operation ─────────────────────────────────────────────────────────

  lemma TimelyCreate(cfg: Config, s: Store, c: Caller, id: Id, req: CreateRequest)
    requires Shaped(s) && Timely(s) && id !in s && Create(cfg, s, c, id, req).Ok?
    ensures Timely(Create(cfg, s, c, id, req).value)
  {
    var n := CreatedNode(cfg, s, c, id, req);
    var t := s[id := n];
    if s[req.parent].end.Some? {
      ChainOk(Budgets(s), req.parent);
      ParentBounds(s, n, req.parent);
    }
    if req.kind == Project {
      var chain := Chain(Budgets(s), req.parent);
      FitProjectEndRespects(req.end, ChainEnd(s, chain), ChainMaxTerm(s, chain), c.now);
    }
    forall d | d in t
      ensures EndsInTime(t, d)
    {
      if d != id {
        assert EndsInTime(s, d) && Hangs(s, s[d]);
      }
    }
  }

  /** Giving a budget the end it asks for leaves its children to be cut to it. */
  lemma EditedOnceCut(s: Store, id: Id, n: Node, end: Time)
    requires Shaped(s) && Timely(s) && id in s && n.parent == s[id].parent && n.end == Some(end)
    requires n.parent.Some? && n.parent.value in s ==> Respects(n.end, s[n.parent.value].end)
    ensures InTimeOnceCut(Put(s, id, n), id, end)
  {
    var t := Put(s, id, n);
    forall d | d in t && t[d].parent != Some(id)
      ensures EndsInTime(t, d)
    {
      assert EndsInTime(s, d);
    }
  }

  lemma ChildrenRespect(s: Store, id: Id, end: Option<Time>)
    requires Timely(s) && id in s && (end.None? || end == s[id].end)
    ensures forall d :: d in s && Active(s[d].status) && s[d].parent == Some(id) ==> Respects(s[d].end, end)
  {
    forall d | d in s && Active(s[d].status) && s[d].parent == Some(id)
      ensures Respects(s[d].end, end)
    {
      assert EndsInTime(s, d);
    }
  }

  /** The end an edit writes respects the parent. */
  lemma EditedEndRespects(s: Store, id: Id, req: UpdateRequest)
    requires Shaped(s) && Timely(s) && id in s && s[id].parent.Some? && s[id].parent.value in s
    requires EndEditOk(s, Above(s, s[id]), req)
    ensures var e := Edited(s, s[id], Above(s, s[id]), req);
            Active(s[id].status) || req.end.Some? ==> Respects(e.end, s[s[id].parent.value].end)
  {
    assert EndsInTime(s, id) && Hangs(s, s[id]);
    if s[s[id].parent.value].end.Some? {
      ChainOk(Budgets(s), s[id].parent.value);
      ParentBounds(s, s[id], s[id].parent.value);
    }
  }

  lemma TimelyEdited(s: Store, id: Id, req: UpdateRequest)
    requires Shaped(s) && Timely(s) && id in s && EndEditOk(s, Above(s, s[id]), req)
    ensures var t := Put(s, id, Edited(s, s[id], Above(s, s[id]), req));
            if req.end.Some? && !req.clearEnd then InTimeOnceCut(t, id, req.end.value) else Timely(t)
  {
    var e := Edited(s, s[id], Above(s, s[id]), req);
    NotOwnParent(s, id);
    assert Hangs(s, s[id]);
    if s[id].parent.Some? { EditedEndRespects(s, id, req); }
    if req.end.Some? && !req.clearEnd {
      EditedOnceCut(s, id, e, req.end.value);
    } else {
      ChildrenRespect(s, id, e.end);
      TimelyPut(s, id, e);
    }
  }

  lemma TimelyUpdate(cfg: Config, s: Store, c: Caller, id: Id, req: UpdateRequest)
    requires Shaped(s) && Timely(s) && Update(cfg, s, c, id, req).Ok?
    ensures Timely(Update(cfg, s, c, id, req).value)
  {
    UpdateFacts(cfg, s, c, id, req);
    var t := Put(s, id, Edited(s, s[id], Above(s, s[id]), req));
    UpdateInPlace(cfg, s, c, id, req);
    ShapeInPlace(s, t);
    TimelyEdited(s, id, req);
    TimelyCarriedDown(t, id, req, c.now);
  }

  lemma TimelyCarriedDown(s: Store, id: Id, req: UpdateRequest, now: Time)
    requires Shaped(s) && id in s
    requires if req.end.Some? && !req.clearEnd then InTimeOnceCut(s, id, req.end.value) else Timely(s)
    ensures Timely(CarriedDown(s, id, req, now))
  {
    if req.end.Some? && !req.clearEnd {
      CascadeRepairs(s, id, req.end.value);
      CascadeEndsInPlace(s, id, req.end.value);
      ShapeInPlace(s, CascadeEnds(s, id, req.end.value));
      TimelyCarriedTerms(CascadeEnds(s, id, req.end.value), id, req, now);
    } else {
      TimelyCarriedTerms(s, id, req, now);
    }
  }

  lemma TimelyCarriedTerms(s: Store, id: Id, req: UpdateRequest, now: Time)
    requires Shaped(s) && Timely(s)
    ensures req.maxTerm.Some? ==> Timely(CascadeTerms(s, id, req.maxTerm.value, now))
  {
    if req.maxTerm.Some? { TimelyTerms(s, id, req.maxTerm.value, now); }
  }

  lemma TimelyChange(cfg: Config, s: Store, c: Caller, id: Id, req: ChangeRequest)
    requires Shaped(s) && Timely(s) && RequestChange(cfg, s, c, id, req).Ok?
    ensures Timely(RequestChange(cfg, s, c, id, req).value)
  {
    var n := ChangedNode(cfg, s, c, id, req);
    var m := s[id];
    assert EndsInTime(s, id) && Hangs(s, m);
    NotOwnParent(s, id);
    if m.parent.Some? && s[m.parent.value].end.Some? {
      ChainOk(Budgets(s), m.parent.value);
      ParentBounds(s, m, m.parent.value);
    }
    if n == Proposed(m, req) {
      forall d | d in s && Active(s[d].status) && s[d].parent == Some(id)
        ensures Respects(s[d].end, n.end)
      {
        assert EndsInTime(s, d);
      }
    } else {
      NoChildren(s, id);
      if req.end.Some? && m.kind == Project {
        FitProjectEndRespects(req.end, ChainEnd(s, Above(s, m)), ChainMaxTerm(s, Above(s, m)), c.now);
      }
    }
    TimelyPut(s, id, n);
  }

  lemma FinalEndRespects(s: Store, n: Node, now: Time)
    ensures Respects(FinalEnd(s, n, now), ChainEnd(s, Above(s, n)))
  {
    var end := ChainEnd(s, Above(s, n));
    if n.kind == Project { ProjectBoundTighter(end, ChainMaxTerm(s, Above(s, n)), now); }
  }

  lemma TimelyApprove(cfg: Config, s: Store, c: Caller, id: Id, req: ApproveRequest)
    requires Shaped(s) && Timely(s) && Approve(cfg, s, c, id, req).Ok?
    ensures Timely(Approve(cfg, s, c, id, req).value)
  {
    ApproveInPlace(cfg, s, c, id, req);
    ApproveFacts(cfg, s, c, id, req);
    ShapeInPlace(s, Put(s, id, Decided(s, s[id], req, c.now)));
    TimelyDecided(s, id, req, c.now);
    if s[id].kind == Budget && FinalEnd(s, s[id], c.now).Some? {
      CascadeRepairs(Put(s, id, Decided(s, s[id], req, c.now)), id, FinalEnd(s, s[id], c.now).value);
    }
  }

  lemma TimelyDecided(s: Store, id: Id, req: ApproveRequest, now: Time)
    requires Shaped(s) && Timely(s) && id in s && (s[id].status == Pending || s[id].status == ChangePending)
    ensures var d := Decided(s, s[id], req, now);
            if d.kind == Budget && d.end.Some? then InTimeOnceCut(Put(s, id, d), id, d.end.value)
            else Timely(Put(s, id, d))
  {
    var d := Decided(s, s[id], req, now);
    NotOwnParent(s, id);
    FinalEndRespects(s, s[id], now);
    assert Hangs(s, s[id]);
    if d.parent.Some? && s[d.parent.value].end.Some? {
      ChainOk(Budgets(s), d.parent.value);
      ParentBounds(s, s[id], d.parent.value);
    }
    if d.kind == Budget && d.end.Some? {
      EditedOnceCut(s, id, d, d.end.value);
    } else {
      if d.kind == Project { NoChildren(s, id); }
      TimelyPut(s, id, d);
    }
  }

  lemma TimelyDelete(s: Store, c: Caller, id: Id)
    requires Shaped(s) && Timely(s) && Delete(s, c, id).Ok?
    ensures Timely(Delete(s, c, id).value)
  {
    var t := Delete(s, c, id).value;
    forall d | d in t
      ensures EndsInTime(t, d)
    {
      assert EndsInTime(s, d);
    }
  }

  lemma MovedEnd(s: Store, n: Node, target: Id, now: Time)
    ensures var m, bound := MovedNode(s, n, target, now), MoveBound(s, n, target, now);
            m.end == if bound.Some? then Cut(n.end, bound.value) else n.end
    ensures Respects(MoveBound(s, n, target, now), ChainEnd(s, Chain(Budgets(s), target)))
    ensures n.kind == Budget ==> MoveBound(s, n, target, now) == ChainEnd(s, Chain(Budgets(s), target))
  {
    var chain := Chain(Budgets(s), target);
    ProjectBoundTighter(ChainEnd(s, chain), ChainMaxTerm(s, chain), now);
  }

  lemma TimelyMove(cfg: Config, s: Store, c: Caller, id: Id, target: Id)
    requires Shaped(s) && Timely(s) && Move(cfg, s, c, id, target).Ok?
    ensures Timely(Move(cfg, s, c, id, target).value)
  {
    MoveFacts(cfg, s, c, id, target);
    ShapeMoved(s, id, target, c.now);
    TimelyMoved(s, id, target, c.now);
    MovedNodeKeeps(s, s[id], target, c.now);
    TimelyCarried(MoveWritten(s, id, target, c.now), id, MoveBound(s, s[id], target, c.now), c.now);
  }

  lemma TimelyCarried(s: Store, id: Id, bound: Option<Time>, now: Time)
    requires Shaped(s) && id in s
    requires if bound.Some? && s[id].kind == Budget then InTimeOnceCut(s, id, bound.value) else Timely(s)
    ensures Timely(MoveCarried(s, id, bound, now))
  {
    if s[id].kind == Budget {
      var t := s;
      if bound.Some? {
        t := CascadeEnds(s, id, bound.value);
        CascadeRepairs(s, id, bound.value);
        CascadeEndsInPlace(s, id, bound.value);
        ShapeInPlace(s, t);
      }
      if s[id].maxTerm.Some? {
        TimelyTerms(t, id, s[id].maxTerm.value, now);
      }
    }
  }

  lemma TimelyMoved(s: Store, id: Id, target: Id, now: Time)
    requires Shaped(s) && Timely(s) && id in s && id !in Chain(Budgets(s), target)
    requires target in s && s[target].kind == Budget
    ensures var t, bound := MoveWritten(s, id, target, now), MoveBound(s, s[id], target, now);
            if bound.Some? && s[id].kind == Budget then InTimeOnceCut(t, id, bound.value) else Timely(t)
  {
    var n := MovedNode(s, s[id], target, now);
    var bound := MoveBound(s, s[id], target, now);
    MovedNodeKeeps(s, s[id], target, now);
    MovedEnd(s, s[id], target, now);
    assert target in Budgets(s);
    ChainOk(Budgets(s), target);
    ChainEndBounds(s, Chain(Budgets(s), target), target);
    MovedElsewhere(s, id, n, target, bound);
    if bound.None? || s[id].kind == Project {
      MovedUnbounded(s, Put(s, id, n), id, bound);
    }
  }

  /** After the move every node but the direct children of the moved one ends in time, and those do
      once they are cut to the bound. */
  lemma MovedElsewhere(s: Store, id: Id, n: Node, target: Id, bound: Option<Time>)
    requires Timely(s) && id in s && target in s && id != target && n.parent == Some(target) && n.status == s[id].status
    requires n.end == if bound.Some? then Cut(s[id].end, bound.value) else s[id].end
    requires Respects(bound, s[target].end)
    ensures var t := Put(s, id, n);
            && (forall d :: d in t && t[d].parent != Some(id) ==> EndsInTime(t, d))
            && (bound.Some? ==> InTimeOnceCut(t, id, bound.value))
  {
    var t := Put(s, id, n);
    forall d | d in t && t[d].parent != Some(id)
      ensures EndsInTime(t, d)
    {
      assert EndsInTime(s, d);
    }
    forall d | d in t && Active(t[d].status) && t[d].parent == Some(id) && bound.Some?
      ensures Respects(Cut(t[d].end, bound.value), t[id].end)
    {
      assert d != id;
      assert EndsInTime(s, d);
    }
  }

  lemma MovedUnbounded(s: Store, t: Store, id: Id, bound: Option<Time>)
    requires Shaped(s) && Timely(s) && id in s && t.Keys == s.Keys
    requires forall d :: d in t && t[d].parent != Some(id) ==> EndsInTime(t, d)
    requires forall d :: d in t && d != id ==> t[d] == s[d]
    requires s[id].kind == Project || (bound.None? && t[id].end == s[id].end)
    requires t[id].parent != Some(id)
    ensures Timely(t)
  {
    if s[id].kind == Project { NoChildren(s, id); }
    forall d | d in t
      ensures EndsInTime(t, d)
    {
      if d != id && t[d].parent == Some(id) { assert EndsInTime(s, d); }
    }
  }

  lemma TimelyTransfer(s: Store, c: Caller, id: Id, owner: Token)
    requires Timely(s) && Transfer(s, c, id, owner).Ok?
    ensures Timely(Transfer(s, c, id, owner).value)
  {
    TimelyWritten(s, id, HandedOver(s[id], owner));
  }

  lemma TimelyReject(s: Store, c: Caller, id: Id)
    requires Shaped(s) && Timely(s) && Reject(s, c, id).Ok?
    ensures Timely(Reject(s, c, id).value)
  {
    TimelyWritten(s, id, Refused(s[id]));
  }

  lemma TimelyRelease(s: Store, c: Caller, id: Id, delete: bool, deletable: bool)
    requires Shaped(s) && Timely(s) && Release(s, c, id, delete, deletable).Ok?
    ensures Timely(Release(s, c, id, delete, deletable).value)
  {
    TimelyWritten(s, id, ReleasedNode(s[id], delete));
  }

  lemma TimelyPromote(cfg: Config, s: Store, c: Caller, id: Id, req: PromoteRequest)
    requires Shaped(s) && Timely(s) && Promote(cfg, s, c, id, req).Ok?
    ensures Timely(Promote(cfg, s, c, id, req).value)
  {
    PromoteFacts(cfg, s, c, id, req);
    assert OwnShape(s[id]);
    NoChildren(s, id);
    TimelyIdle(s, id, PromotedNode(s, s[id], req, c.now));
  }

  /** A node that is not active ends whenever it likes while nothing hangs under it. */
  lemma TimelyIdle(s: Store, id: Id, n: Node)
    requires Timely(s) && id in s && !Active(n.status)
    requires forall d :: d in s ==> s[d].parent != Some(id)
    ensures Timely(Put(s, id, n))
  {
    var t := Put(s, id, n);
    forall d | d in t
      ensures EndsInTime(t, d)
    {
      assert EndsInTime(s, d);
    }
  }

  lemma TimelyRewrite(s: Store, w: Rewrite)
    requires Timely(s)
    ensures Timely(RewriteAll(s, w))
  {
    TimelySame(s, RewriteAll(s, w));
  }

  lemma TimelyGrantRoot(s: Store, r: Rid)
    requires Timely(s)
    ensures Timely(AdoptAvailability(s, r))
  {
    TimelySame(s, AdoptAvailability(s, r));
  }

  lemma TimelyReport(s: Store, w: Report)
    requires Shaped(s) && Timely(s) && ReportEnabled(s, w)
    ensures Timely(ApplyReport(s, w))
  {
    var t := ApplyReport(s, w);
    if w.AddImport? || (w.id in s && Reported(s[w.id], w).None?) {
      forall d | d in t
        ensures EndsInTime(t, d)
      {
        if d in s { assert EndsInTime(s, d) && Hangs(s, s[d]); }
      }
    } else if w.id in s {
      ReportedEnd(s[w.id], w);
      TimelySame(s, t);
    }
  }

  lemma ReportedEnd(n: Node, w: Report)
    requires Reported(n, w).Some?
    ensures var m := Reported(n, w).value;
            m.parent == n.parent && m.end == n.end && (Active(m.status) ==> Active(n.status))
  {
  }

  /** Whatever happens, no active node outlives its budget. */
  lemma TimelyNext(cfg: Config, s: Store, c: Caller, op: Op)
    requires Shaped(s) && Timely(s) && Enabled(cfg, s, op)
    ensures Timely(Next(cfg, s, c, op))
  {
    if OutcomeOf(cfg, s, c, op).Ok? {
      match op
      case OpCreate(id, req) => TimelyCreate(cfg, s, c, id, req);
      case OpUpdate(id, req) => TimelyUpdate(cfg, s, c, id, req);
      case OpChange(id, req) => TimelyChange(cfg, s, c, id, req);
      case OpApprove(id, req) => TimelyApprove(cfg, s, c, id, req);
      case OpReject(id) => TimelyReject(s, c, id);
      case OpRelease(id, d, e) => TimelyRelease(s, c, id, d, e);
      case OpDelete(id) => TimelyDelete(s, c, id);
      case OpMove(id, target) => TimelyMove(cfg, s, c, id, target);
      case OpTransfer(id, owner) => TimelyTransfer(s, c, id, owner);
      case OpPromote(id, req) => TimelyPromote(cfg, s, c, id, req);
      case OpAllocate(id, b, q) => TimelyWritten(s, id, Allocated(s[id], b, NonZero(q)));
      case OpRewrite(w) => TimelyRewrite(s, w);
      case OpGrantRoot(r) => TimelyGrantRoot(s, r);
      case OpReport(w) => TimelyReport(s, w);
    }
  }
}
