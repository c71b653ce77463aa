/** Allocations come from above: in every reachable store each allocation of a project that is not
    given up comes from a budget strictly above the project's own, and no two from the same one
    (op_allocations.go, op_move.go, op_retire.go). */
module Sources {
  import opened Model
  import opened Chains
  import opened Charges
  import opened Rules
  import opened Steps
  import opened Reports
  import opened Runs
  import opened Shape
  import opened Values

  ghost predicate Distinct(allocs: seq<Allocation>) {
    forall i, j :: 0 <= i < j < |allocs| ==> allocs[i].budget != allocs[j].budget
  }

  lemma {:induction false} WithoutAbsent(allocs: seq<Allocation>, x: Id)
    requires forall i :: 0 <= i < |allocs| ==> allocs[i].budget != x
    ensures Without(allocs, x) == allocs
  {
    if allocs != [] {
      WithoutAbsent(allocs[..|allocs| - 1], x);
    }
  }

  /** a.budget lies above budget p, strictly. */
  ghost predicate From(pm: Parents, p: Id, a: Allocation) {
    a.budget in Chain(pm, p) && a.budget != p
  }

  ghost predicate SourcedNode(pm: Parents, n: Node) {
    n.kind == Project && Live(n.status) && n.parent.Some? ==>
      Distinct(n.allocations) && forall a :: a in n.allocations ==> From(pm, n.parent.value, a)
  }

  ghost predicate Sourced(s: Store) {
    forall id {:trigger SourcedNode(Budgets(s), s[id])} :: id in s ==> SourcedNode(Budgets(s), s[id])
  }

  /** The node's allocations are those of m, and m was not given up unless n is. */
  predicate SameSources(m: Node, n: Node) {
    n.kind == m.kind && n.parent == m.parent && n.allocations == m.allocations && (Live(n.status) ==> Live(m.status))
  }

  lemma SourcedInPlace(s: Store, t: Store)
    requires Sourced(s) && t.Keys == s.Keys && Budgets(t) == Budgets(s)
    requires forall id :: id in s ==> SameSources(s[id], t[id])
    ensures Sourced(t)
  {
    forall id | id in t
      ensures SourcedNode(Budgets(t), t[id])
    {
      assert SourcedNode(Budgets(s), s[id]);
    }
  }

  /** Writing one node in its place: only its own allocations are in question. */
  lemma SourcedPut(s: Store, id: Id, n: Node)
    requires Sourced(s) && id in s && SamePlace(s[id], n) && SourcedNode(Budgets(s), n)
    ensures Sourced(Put(s, id, n)) && Budgets(Put(s, id, n)) == Budgets(s)
    ensures Sourced(s[id := n]) && Budgets(s[id := n]) == Budgets(s)
  {
    var t := Put(s, id, n);
    assert Budgets(t) == Budgets(s) && Budgets(s[id := n]) == Budgets(s);
    assert SourcedNode(Budgets(s), CapHistory(n));
    assert forall x :: x in s && x != id ==> t[x] == s[x];
  }

  lemma CascadesKeepSources(s: Store, top: Id, end: Time, days: int, now: Time)
    requires Sourced(s)
    ensures Sourced(CascadeEnds(s, top, end)) && Budgets(CascadeEnds(s, top, end)) == Budgets(s)
    ensures Sourced(CascadeTerms(s, top, days, now)) && Budgets(CascadeTerms(s, top, days, now)) == Budgets(s)
  {
    var t, u := CascadeEnds(s, top, end), CascadeTerms(s, top, days, now);
    assert forall id :: id in s ==> SameSources(s[id], t[id]) && SamePlace(s[id], t[id]);
    InPlaceBudgets(s, t);
    SourcedInPlace(s, t);
    assert forall id :: id in s ==> SameSources(s[id], u[id]) && SamePlace(s[id], u[id]);
    InPlaceBudgets(s, u);
    SourcedInPlace(s, u);
  }

  /** Where the budgets above every parent stay the same, allocations stay sourced. */
  lemma SourcedElsewhere(s: Store, pm: Parents, n: Node)
    requires SourcedNode(Budgets(s), n)
    requires n.parent.Some? ==> Chain(pm, n.parent.value) == Chain(Budgets(s), n.parent.value)
    ensures SourcedNode(pm, n)
  {
  }

  lemma SourcedCreate(cfg: Config, s: Store, c: Caller, id: Id, req: CreateRequest)
    requires Shaped(s) && Sourced(s) && id !in s && Create(cfg, s, c, id, req).Ok?
    ensures Sourced(Create(cfg, s, c, id, req).value)
  {
    var n := CreatedNode(cfg, s, c, id, req);
    SourcedAdd(s, id, n);
  }

  lemma SourcedAdd(s: Store, x: Id, n: Node)
    requires Shaped(s) && Sourced(s) && x !in s && n.parent.Some? && Hangs(s, n) && OwnShape(n)
    requires n.allocations == []
    ensures Sourced(s[x := n])
  {
    var t := s[x := n];
    ShapeAdd(s, x, n);
    if n.kind == Budget { AddBudget(Budgets(s), x, n.parent.value); }
    forall id | id in t
      ensures SourcedNode(Budgets(t), t[id])
    {
      if id in s {
        assert SourcedNode(Budgets(s), s[id]) && Hangs(s, s[id]);
        SourcedElsewhere(s, Budgets(t), s[id]);
      }
    }
  }

  lemma SourcedDelete(s: Store, c: Caller, id: Id)
    requires Shaped(s) && Sourced(s) && Delete(s, c, id).Ok?
    ensures Sourced(Delete(s, c, id).value)
  {
    var gone := Closure(s, id);
    ShapeDelete(s, c, id);
    SourcedRemove(s, id, gone);
  }

  lemma SourcedRemove(s: Store, x: Id, gone: set<Id>)
    requires Shaped(s) && Sourced(s) && gone == Closure(s, x) && x in s && s[x].kind == Budget && x != ROOT
    requires Budgets(s - gone) == Budgets(s) - gone && ROOT !in gone
    ensures Sourced(s - gone)
  {
    ClosureClosed(s, x);
    RemoveBudgets(Budgets(s), gone);
    var t := s - gone;
    forall id | id in t
      ensures SourcedNode(Budgets(t), t[id])
    {
      assert SourcedNode(Budgets(s), s[id]) && Hangs(s, s[id]);
      if s[id].parent.Some? {
        assert s[id].parent.value !in gone;
      }
      SourcedElsewhere(s, Budgets(t), s[id]);
    }
  }

  // ── Moves ───────────────────────────────────────────────────────────────────

  lemma SourcedMoveLeaf(s: Store, x: Id, target: Id, n: Node)
    requires Shaped(s) && Sourced(s) && x in s && s[x].kind == Project && Live(s[x].status)
    requires AllocationsAfterMoveOk(s, x, target)
    requires n.kind == Project && n.allocations == s[x].allocations && n.parent == Some(target)
    ensures Sourced(Put(s, x, n))
  {
    var t := Put(s, x, n);
    assert Budgets(t) == Budgets(s);
    assert SourcedNode(Budgets(s), s[x]) && Hangs(s, s[x]);
    forall a | a in n.allocations
      ensures From(Budgets(s), target, a)
    {
    }
    forall id | id in t
      ensures SourcedNode(Budgets(t), t[id])
    {
      assert SourcedNode(Budgets(s), s[id]);
    }
  }

  /** A project below a moved budget: what it draws from inside moves along, the rest is above the
      new parent. */
  lemma SourcedBelowMoved(s: Store, x: Id, target: Id, id: Id)
    requires Shaped(s) && x in s && s[x].kind == Budget && x != ROOT
    requires target in Budgets(s) && x !in Chain(Budgets(s), target)
    requires id in s && SourcedNode(Budgets(s), s[id]) && s[id].kind == Project
    requires AllocationsAfterMoveOk(s, x, target)
    ensures SourcedNode(Budgets(s)[x := Some(target)], s[id])
  {
    var pm := Budgets(s);
    var pn := pm[x := Some(target)];
    MoveBudget(pm, x, target);
    assert Hangs(s, s[id]);
    var p := s[id].parent.value;
    if !Live(s[id].status) {
    } else if x in Chain(pm, p) {
      forall a | a in s[id].allocations
        ensures From(pn, p, a)
      {
        assert StrictlyBelow(s, x, id);
        assert From(pm, p, a);
        assert AboveAfterMove(pm, x, target, a.budget, p);
      }
    } else {
      SourcedElsewhere(s, pn, s[id]);
    }
  }

  lemma SourcedMoveBudget(s: Store, x: Id, target: Id, n: Node)
    requires Shaped(s) && Sourced(s) && x in s && s[x].kind == Budget && x != ROOT
    requires target in Budgets(s) && x !in Chain(Budgets(s), target)
    requires AllocationsAfterMoveOk(s, x, target)
    requires n.kind == Budget && n.parent == Some(target)
    ensures Sourced(Put(s, x, n))
  {
    var t := Put(s, x, n);
    assert Budgets(t) == Budgets(s)[x := Some(target)];
    forall id | id in t
      ensures SourcedNode(Budgets(t), t[id])
    {
      if id != x && s[id].kind == Project {
        assert SourcedNode(Budgets(s), s[id]);
        SourcedBelowMoved(s, x, target, id);
      }
    }
  }

  /** The move itself, before anything is carried down. */
  lemma SourcedMoved(cfg: Config, s: Store, c: Caller, id: Id, target: Id)
    requires Shaped(s) && Sourced(s) && Move(cfg, s, c, id, target).Ok?
    ensures id in s && Sourced(MoveWritten(s, id, target, c.now))
  {
    MoveFacts(cfg, s, c, id, target);
    MovedNodeKeeps(s, s[id], target, c.now);
    var n := MovedNode(s, s[id], target, c.now);
    if s[id].kind == Project {
      SourcedMoveLeaf(s, id, target, n);
    } else {
      SourcedMoveBudget(s, id, target, n);
    }
  }

  lemma SourcedMove(cfg: Config, s: Store, c: Caller, id: Id, target: Id)
    requires Shaped(s) && Sourced(s) && Move(cfg, s, c, id, target).Ok?
    ensures Sourced(Move(cfg, s, c, id, target).value)
  {
    MoveFacts(cfg, s, c, id, target);
    SourcedMoved(cfg, s, c, id, target);
    var t := MoveWritten(s, id, target, c.now);
    CarriedHoldings(t, id, MoveBound(s, s[id], target, c.now), c.now);
    InPlaceBudgets(t, Move(cfg, s, c, id, target).value);
    SourcedInPlace(t, Move(cfg, s, c, id, target).value);
  }

  // ── The rest ────────────────────────────────────────────────────────────────

  lemma {:induction false} WithoutDistinct(allocs: seq<Allocation>, b: Id)
    requires Distinct(allocs)
    ensures Distinct(Without(allocs, b))
  {
    if allocs != [] {
      var h, l := allocs[..|allocs| - 1], allocs[|allocs| - 1];
      WithoutDistinct(h, b);
      WithoutSubset(h, b);
      if l.budget != b {
        forall i | 0 <= i < |Without(h, b)|
          ensures Without(h, b)[i].budget != l.budget
        {
          assert Without(h, b)[i] in h;
        }
      }
    }
  }

  lemma SourcedAllocate(cfg: Config, s: Store, c: Caller, id: Id, b: Id, amount: Quota)
    requires Shaped(s) && Sourced(s) && Allocate(cfg, s, c, id, b, amount).Ok?
    ensures Sourced(Allocate(cfg, s, c, id, b, amount).value)
  {
    var n := s[id];
    var m := Allocated(n, b, NonZero(amount));
    assert SourcedNode(Budgets(s), n) && Hangs(s, n);
    var p := n.parent.value;
    ChainOk(Budgets(s), p);
    WithoutDistinct(n.allocations, b);
    WithoutSubset(n.allocations, b);
    forall a | a in m.allocations
      ensures From(Budgets(s), p, a)
    {
      if a in Without(n.allocations, b) { assert a in n.allocations; }
    }
    forall i | 0 <= i < |Without(n.allocations, b)|
      ensures Without(n.allocations, b)[i].budget != b
    {
      assert Without(n.allocations, b)[i] in Without(n.allocations, b);
    }
    SourcedPut(s, id, m);
  }

  lemma {:induction false} RewrittenDistinct(w: Rewrite, allocs: seq<Allocation>)
    requires Distinct(allocs)
    ensures Distinct(RewrittenAllocations(w, allocs))
  {
    if allocs != [] {
      var h, l := allocs[..|allocs| - 1], allocs[|allocs| - 1];
      RewrittenDistinct(w, h);
      RewrittenFrom(w, h);
      forall i | 0 <= i < |RewrittenAllocations(w, h)|
        ensures RewrittenAllocations(w, h)[i].budget != l.budget
      {
        assert RewrittenAllocations(w, h)[i] in RewrittenAllocations(w, h);
        var o :| o in h && RewrittenAllocations(w, h)[i] == o.(limit := Rewritten(w, o.limit));
      }
    }
  }

  lemma SourcedRewritten(pm: Parents, w: Rewrite, n: Node)
    requires SourcedNode(pm, n)
    ensures SourcedNode(pm, RewrittenNode(w, n))
  {
    if n.kind == Project && Live(n.status) && n.parent.Some? {
      RewrittenDistinct(w, n.allocations);
      RewrittenFrom(w, n.allocations);
      forall a | a in RewrittenAllocations(w, n.allocations)
        ensures From(pm, n.parent.value, a)
      {
        var o :| o in n.allocations && a == o.(limit := Rewritten(w, o.limit));
        assert From(pm, n.parent.value, o);
      }
    }
  }

  lemma SourcedRewrite(s: Store, w: Rewrite)
    requires Shaped(s) && Sourced(s)
    ensures Sourced(RewriteAll(s, w))
  {
    var t := RewriteAll(s, w);
    ShapeRewrite(s, w);
    InPlaceBudgets(s, t);
    forall id | id in t
      ensures SourcedNode(Budgets(t), t[id])
    {
      assert SourcedNode(Budgets(s), s[id]);
      SourcedRewritten(Budgets(s), w, s[id]);
    }
  }

  lemma SourcedReport(cfg: Config, s: Store, w: Report)
    requires Shaped(s) && Sane(cfg, s) && Sourced(s) && ReportEnabled(s, w)
    ensures Sourced(ApplyReport(s, w))
  {
    if w.AddImport? {
      SourcedAdd(s, w.id, ImportedNode(w.limit, w.members));
    } else if w.id in s {
      assert SaneNode(cfg, s[w.id]) && OwnShape(s[w.id]) && SourcedNode(Budgets(s), s[w.id]);
      ReportedNode(s[w.id], w);
      var o := Reported(s[w.id], w);
      if o.Some? {
        SourcedReported(cfg, Budgets(s), s[w.id], w);
        SourcedPut(s, w.id, o.value);
      } else {
        ShapeReport(s, w);
        forall id | id in s - {w.id}
          ensures SourcedNode(Budgets(s), s[id])
        {
        }
      }
    }
  }

  lemma SourcedReported(cfg: Config, pm: Parents, n: Node, w: Report)
    requires SaneNode(cfg, n) && SourcedNode(pm, n) && Reported(n, w).Some?
    ensures SourcedNode(pm, Reported(n, w).value)
  {
  }

  lemma SourcedPromote(cfg: Config, s: Store, c: Caller, id: Id, req: PromoteRequest)
    requires Shaped(s) && Sourced(s) && Promote(cfg, s, c, id, req).Ok?
    ensures Sourced(Promote(cfg, s, c, id, req).value)
  {
    PromoteFacts(cfg, s, c, id, req);
    assert OwnShape(s[id]);
    SourcedImport(s, id, PromotedNode(s, s[id], req, c.now));
  }

  /** An import draws from nowhere, wherever it goes. */
  lemma SourcedImport(s: Store, id: Id, n: Node)
    requires Sourced(s) && id in s && s[id].kind == Project && n.kind == Project && !Live(n.status)
    ensures Sourced(Put(s, id, n))
  {
    var t := Put(s, id, n);
    assert Budgets(t) == Budgets(s);
    forall x | x in t
      ensures SourcedNode(Budgets(t), t[x])
    {
      assert SourcedNode(Budgets(s), s[x]);
    }
  }

  /** The operations that change neither a node's place nor what it draws from above. */
  lemma SourcedKept(s: Store, id: Id, n: Node)
    requires Sourced(s) && id in s && SameSources(s[id], n)
    ensures Sourced(Put(s, id, n)) && Budgets(Put(s, id, n)) == Budgets(s)
  {
    assert SourcedNode(Budgets(s), s[id]);
    SourcedPut(s, id, n);
  }

  lemma SourcedUpdate(cfg: Config, s: Store, c: Caller, id: Id, req: UpdateRequest)
    requires Shaped(s) && Sourced(s) && Update(cfg, s, c, id, req).Ok?
    ensures Sourced(Update(cfg, s, c, id, req).value)
  {
    UpdateFacts(cfg, s, c, id, req);
    var e := Edited(s, s[id], Above(s, s[id]), req);
    SourcedKept(s, id, e);
    SourcedCarriedDown(Put(s, id, e), id, req, c.now);
  }

  lemma SourcedCarriedDown(s: Store, id: Id, req: UpdateRequest, now: Time)
    requires Sourced(s)
    ensures Sourced(CarriedDown(s, id, req, now))
  {
    var t := s;
    if !PanicsEarly(req) && req.end.Some? {
      CascadesKeepSources(s, id, req.end.value, 0, now);
      t := CascadeEnds(s, id, req.end.value);
    }
    if !PanicsEarly(req) && req.maxTerm.Some? && !req.clearMaxTerm {
      CascadesKeepSources(t, id, 0, req.maxTerm.value, now);
    }
  }

  lemma SourcedApprove(cfg: Config, s: Store, c: Caller, id: Id, req: ApproveRequest)
    requires Shaped(s) && Sourced(s) && Approve(cfg, s, c, id, req).Ok?
    ensures Sourced(Approve(cfg, s, c, id, req).value)
  {
    ApproveFacts(cfg, s, c, id, req);
    SourcedDecided(s, id, req, c.now);
    var d := Decided(s, s[id], req, c.now);
    if d.end.Some? {
      CascadesKeepSources(Put(s, id, d), id, d.end.value, 0, c.now);
    }
  }

  lemma SourcedDecided(s: Store, id: Id, req: ApproveRequest, now: Time)
    requires Sourced(s) && id in s && Live(s[id].status)
    ensures Sourced(Put(s, id, Decided(s, s[id], req, now)))
  {
    SourcedKept(s, id, Decided(s, s[id], req, now));
  }

  lemma SourcedChange(cfg: Config, s: Store, c: Caller, id: Id, req: ChangeRequest)
    requires Sourced(s) && RequestChange(cfg, s, c, id, req).Ok?
    ensures Sourced(RequestChange(cfg, s, c, id, req).value)
  {
    var n := ChangedNode(cfg, s, c, id, req);
    SourcedKept(s, id, n);
  }

  lemma SourcedReject(s: Store, c: Caller, id: Id)
    requires Sourced(s) && Reject(s, c, id).Ok?
    ensures Sourced(Reject(s, c, id).value)
  {
    SourcedKept(s, id, Refused(s[id]));
  }

  lemma SourcedRelease(s: Store, c: Caller, id: Id, delete: bool, deletable: bool)
    requires Sourced(s) && Release(s, c, id, delete, deletable).Ok?
    ensures Sourced(Release(s, c, id, delete, deletable).value)
  {
    SourcedPut(s, id, ReleasedNode(s[id], delete));
  }

  lemma SourcedTransfer(s: Store, c: Caller, id: Id, owner: Token)
    requires Sourced(s) && Transfer(s, c, id, owner).Ok?
    ensures Sourced(Transfer(s, c, id, owner).value)
  {
    SourcedKept(s, id, HandedOver(s[id], owner));
  }

  /** Whatever happens, what a project draws from above keeps coming from above. */
  lemma SourcedNext(cfg: Config, s: Store, c: Caller, op: Op)
    requires Shaped(s) && Sane(cfg, s) && Sourced(s) && Enabled(cfg, s, op)
    ensures Sourced(Next(cfg, s, c, op))
  {
    if OutcomeOf(cfg, s, c, op).Ok? {
      match op
      case OpCreate(id, req) => SourcedCreate(cfg, s, c, id, req);
      case OpUpdate(id, req) => SourcedUpdate(cfg, s, c, id, req);
      case OpChange(id, req) => SourcedChange(cfg, s, c, id, req);
      case OpApprove(id, req) => SourcedApprove(cfg, s, c, id, req);
      case OpReject(id) => SourcedReject(s, c, id);
      case OpRelease(id, d, e) => SourcedRelease(s, c, id, d, e);
      case OpDelete(id) => SourcedDelete(s, c, id);
      case OpMove(id, target) => SourcedMove(cfg, s, c, id, target);
      case OpTransfer(id, owner) => SourcedTransfer(s, c, id, owner);
      case OpPromote(id, req) => SourcedPromote(cfg, s, c, id, req);
      case OpAllocate(id, b, q) => SourcedAllocate(cfg, s, c, id, b, q);
      case OpRewrite(w) => SourcedRewrite(s, w);
      case OpGrantRoot(r) => SourcedPut(s, ROOT, Next(cfg, s, c, op)[ROOT]);
      case OpReport(w) => SourcedReport(cfg, s, w);
    }
  }
}
