/** The amounts in reachable stores: whatever is charged is a quantity from 0 to a billion, and so
    is every limit that bounds (rule_limits.go). The 64-bit sums rest on this. */
module Values {
  import opened Model
  import opened Chains
  import opened Charges
  import opened Rules
  import opened Steps
  import opened Reports
  import opened Runs
  import opened Shape

  /** Every count of q is a quantity a project may hold. */
  predicate Quantities(cfg: Config, q: Quota) {
    forall r :: r in cfg.counts ==> 0 <= Q(q, r) <= MAX_QUOTA
  }

  predicate Caps(cfg: Config, q: Quota) {
    forall r :: r in cfg.counts ==> UNLIMITED <= Q(q, r) <= MAX_QUOTA
  }

  predicate SaneNode(cfg: Config, n: Node) {
    && (n.kind == Project && (Active(n.status) || Retired(n.status)) ==> Quantities(cfg, n.limit))
    && (forall a :: a in n.allocations ==> Quantities(cfg, a.limit))
    && (n.status == Imported ==> n.allocations == [])
    && (n.kind == Budget && !n.inherits ==> Caps(cfg, n.limit))
  }

  ghost predicate Sane(cfg: Config, s: Store) {
    forall id {:trigger SaneNode(cfg, s[id])} :: id in s ==> SaneNode(cfg, s[id])
  }

  lemma LeafLimitQuantities(cfg: Config, q: Quota)
    requires cfg.Valid() && ValidLeafLimit(cfg, q)
    ensures Quantities(cfg, q)
  {
  }

  lemma BudgetLimitCaps(cfg: Config, q: Quota)
    requires cfg.Valid() && ValidBudgetLimit(cfg, q)
    ensures Caps(cfg, q)
  {
  }

  lemma {:induction false} HeldQuantities(cfg: Config, allocs: seq<Allocation>, x: Id)
    requires forall a :: a in allocs ==> Quantities(cfg, a.limit)
    ensures Quantities(cfg, HeldFrom(allocs, x))
  {
    if allocs != [] {
      assert allocs[|allocs| - 1] in allocs;
      HeldQuantities(cfg, allocs[..|allocs| - 1], x);
    }
  }

  /** n holds what m holds. */
  predicate SameHoldings(m: Node, n: Node) {
    n.kind == m.kind && n.status == m.status && n.limit == m.limit && n.allocations == m.allocations
    && n.inherits == m.inherits
  }

  lemma SanePut(cfg: Config, s: Store, id: Id, n: Node)
    requires Sane(cfg, s) && SaneNode(cfg, n)
    ensures Sane(cfg, Put(s, id, n)) && Sane(cfg, s[id := n])
  {
    assert SaneNode(cfg, CapHistory(n));
  }

  lemma SaneSame(cfg: Config, s: Store, t: Store)
    requires Sane(cfg, s) && t.Keys <= s.Keys && forall id :: id in t ==> SameHoldings(s[id], t[id])
    ensures Sane(cfg, t)
  {
    forall id | id in t ensures SaneNode(cfg, t[id]) {
      assert SaneNode(cfg, s[id]);
    }
  }

  lemma CascadeEndsHoldings(s: Store, top: Id, end: Time)
    ensures CascadeEnds(s, top, end).Keys == s.Keys
    ensures forall id :: id in s ==>
      SameHoldings(s[id], CascadeEnds(s, top, end)[id]) && SamePlace(s[id], CascadeEnds(s, top, end)[id])
  {
  }

  lemma CascadeTermsHoldings(s: Store, top: Id, days: int, now: Time)
    ensures CascadeTerms(s, top, days, now).Keys == s.Keys
    ensures forall id :: id in s ==>
      SameHoldings(s[id], CascadeTerms(s, top, days, now)[id]) && SamePlace(s[id], CascadeTerms(s, top, days, now)[id])
  {
  }

  lemma CarriedDownHoldings(s: Store, id: Id, req: UpdateRequest, now: Time)
    ensures CarriedDown(s, id, req, now).Keys == s.Keys
    ensures forall x :: x in s ==> SameHoldings(s[x], CarriedDown(s, id, req, now)[x])
  {
    if !PanicsEarly(req) {
      if req.end.Some? {
        CascadeEndsHoldings(s, id, req.end.value);
      }
      if req.maxTerm.Some? && !req.clearMaxTerm {
        CascadeTermsHoldings(if req.end.Some? then CascadeEnds(s, id, req.end.value) else s,
                             id, req.maxTerm.value, now);
      }
    }
  }

  lemma CarriedHoldings(s: Store, id: Id, bound: Option<Time>, now: Time)
    requires id in s
    ensures MoveCarried(s, id, bound, now).Keys == s.Keys
    ensures forall x :: x in s ==> SameHoldings(s[x], MoveCarried(s, id, bound, now)[x])
    ensures forall x :: x in s ==> SamePlace(s[x], MoveCarried(s, id, bound, now)[x])
  {
    if s[id].kind == Budget {
      var t := s;
      if bound.Some? {
        CascadeEndsHoldings(s, id, bound.value);
        t := CascadeEnds(s, id, bound.value);
      }
      if s[id].maxTerm.Some? { CascadeTermsHoldings(t, id, s[id].maxTerm.value, now); }
    }
  }

  /** Above any node but the root some budget has a limit of its own. */
  lemma {:induction false} BindingExists(s: Store, b: Id)
    requires Shaped(s) && b in Budgets(s)
    ensures Binding(s, Chain(Budgets(s), b)).Some?
    ensures var w := Binding(s, Chain(Budgets(s), b)).value;
            w in Chain(Budgets(s), b) && w in s && s[w].kind == Budget && !s[w].inherits
    decreases |Chain(Budgets(s), b)|
  {
    ChainStep(Budgets(s), b);
    if s[b].inherits {
      assert b != ROOT;
      BindingExists(s, s[b].parent.value);
      assert Chain(Budgets(s), b)[1..] == Chain(Budgets(s), s[b].parent.value);
    }
  }

  lemma AboveBinding(s: Store, id: Id)
    requires Shaped(s) && id in s && s[id].parent.Some?
    ensures Binding(s, Above(s, s[id])).Some? && Binding(s, Above(s, s[id])).value in s
  {
    assert Hangs(s, s[id]);
    BindingExists(s, s[id].parent.value);
  }

  lemma SaneCreate(cfg: Config, s: Store, c: Caller, id: Id, req: CreateRequest)
    requires cfg.Valid() && Shaped(s) && Sane(cfg, s) && Create(cfg, s, c, id, req).Ok?
    ensures Sane(cfg, Create(cfg, s, c, id, req).value)
  {
    var n := CreatedNode(cfg, s, c, id, req);
    if req.kind == Project {
      assert ValidLeafLimit(cfg, n.limit);
      LeafLimitQuantities(cfg, n.limit);
    } else if !req.inherits {
      BudgetLimitCaps(cfg, n.limit);
    }
    SanePut(cfg, s, id, n);
  }

  lemma SaneUpdate(cfg: Config, s: Store, c: Caller, id: Id, req: UpdateRequest)
    requires cfg.Valid() && Shaped(s) && Sane(cfg, s) && Update(cfg, s, c, id, req).Ok?
    ensures Sane(cfg, Update(cfg, s, c, id, req).value)
  {
    var n, chain := s[id], Above(s, s[id]);
    var e := Edited(s, n, chain, req);
    assert SaneNode(cfg, n);
    assert SaneNode(cfg, e) by {
      if n.kind == Budget {
        if EditedLimit(s, n, chain, req).Some? {
          BudgetLimitCaps(cfg, EditedLimit(s, n, chain, req).value);
        } else if n.inherits && !Inherits(n, req) {
          AboveBinding(s, id);
        }
      }
    }
    SanePut(cfg, s, id, e);
    CarriedDownHoldings(Put(s, id, e), id, req, c.now);
    SaneSame(cfg, Put(s, id, e), Update(cfg, s, c, id, req).value);
  }

  lemma SaneChange(cfg: Config, s: Store, c: Caller, id: Id, req: ChangeRequest)
    requires cfg.Valid() && Shaped(s) && Sane(cfg, s) && RequestChange(cfg, s, c, id, req).Ok?
    ensures Sane(cfg, RequestChange(cfg, s, c, id, req).value)
  {
    var n := ChangedNode(cfg, s, c, id, req);
    assert SaneNode(cfg, s[id]) && OwnShape(s[id]);
    if req.limit.Some? {
      if s[id].kind == Project {
        LeafLimitQuantities(cfg, req.limit.value);
      } else {
        BudgetLimitCaps(cfg, req.limit.value);
      }
    }
    SanePut(cfg, s, id, n);
  }

  lemma SaneApprove(cfg: Config, s: Store, c: Caller, id: Id, req: ApproveRequest)
    requires cfg.Valid() && Shaped(s) && Sane(cfg, s) && Approve(cfg, s, c, id, req).Ok?
    ensures Sane(cfg, Approve(cfg, s, c, id, req).value)
  {
    var n := s[id];
    var d := Decided(s, n, req, c.now);
    assert SaneNode(cfg, n);
    if n.kind == Project {
      LeafLimitQuantities(cfg, FinalLimit(n, req));
    } else if !n.inherits {
      BudgetLimitCaps(cfg, FinalLimit(n, req));
    }
    SanePut(cfg, s, id, d);
    var t := Put(s, id, d);
    var end := FinalEnd(s, n, c.now);
    if end.Some? {
      CascadeEndsHoldings(t, id, end.value);
      SaneSame(cfg, t, CascadeEnds(t, id, end.value));
    }
  }

  lemma {:induction false} WithoutSubset(allocs: seq<Allocation>, b: Id)
    ensures forall a :: a in Without(allocs, b) <==> a in allocs && a.budget != b
  {
    if allocs != [] {
      var h := allocs[..|allocs| - 1];
      WithoutSubset(h, b);
      assert allocs == h + [allocs[|allocs| - 1]];
    }
  }

  lemma SaneAllocate(cfg: Config, s: Store, c: Caller, id: Id, b: Id, amount: Quota)
    requires cfg.Valid() && Shaped(s) && Sane(cfg, s) && Allocate(cfg, s, c, id, b, amount).Ok?
    ensures Sane(cfg, Allocate(cfg, s, c, id, b, amount).value)
  {
    var limit := NonZero(amount);
    LeafLimitQuantities(cfg, limit);
    WithoutSubset(s[id].allocations, b);
    assert SaneNode(cfg, s[id]);
    SanePut(cfg, s, id, Allocated(s[id], b, limit));
  }

  lemma RewrittenCounts(cfg: Config, w: Rewrite, q: Quota)
    requires w.r !in cfg.counts
    ensures forall r :: r in cfg.counts ==> Q(Rewritten(w, q), r) == Q(q, r)
  {
  }

  lemma {:induction false} RewrittenFrom(w: Rewrite, allocs: seq<Allocation>)
    ensures forall a :: a in RewrittenAllocations(w, allocs) ==>
              (exists o :: o in allocs && a == o.(limit := Rewritten(w, o.limit)))
  {
    if allocs != [] {
      var h, l := allocs[..|allocs| - 1], allocs[|allocs| - 1];
      RewrittenFrom(w, h);
      assert l in allocs;
      assert forall o :: o in h ==> o in allocs;
    }
  }

  lemma SaneRewritten(cfg: Config, w: Rewrite, n: Node)
    requires w.r !in cfg.counts && SaneNode(cfg, n)
    ensures SaneNode(cfg, RewrittenNode(w, n))
  {
    RewrittenCounts(cfg, w, n.limit);
    RewrittenFrom(w, n.allocations);
    forall a | a in RewrittenAllocations(w, n.allocations)
      ensures Quantities(cfg, a.limit)
    {
      var o :| o in n.allocations && a == o.(limit := Rewritten(w, o.limit));
      RewrittenCounts(cfg, w, o.limit);
    }
  }

  lemma SaneReport(cfg: Config, s: Store, w: Report)
    requires Shaped(s) && Sane(cfg, s)
    ensures Sane(cfg, ApplyReport(s, w))
  {
    if w.AddImport? {
      assert SaneNode(cfg, ImportedNode(w.limit, w.members));
    } else if w.id in s {
      assert SaneNode(cfg, s[w.id]) && OwnShape(s[w.id]);
      var o := Reported(s[w.id], w);
      if o.Some? {
        SaneReported(cfg, s[w.id], w);
      }
    }
  }

  lemma SaneReported(cfg: Config, n: Node, w: Report)
    requires SaneNode(cfg, n) && OwnShape(n) && Reported(n, w).Some?
    ensures SaneNode(cfg, Reported(n, w).value)
  {
  }

  lemma SaneRewrite(cfg: Config, s: Store, w: Rewrite)
    requires Sane(cfg, s) && w.r !in cfg.counts
    ensures Sane(cfg, RewriteAll(s, w))
  {
    forall id | id in s
      ensures SaneNode(cfg, RewrittenNode(w, s[id]))
    {
      SaneRewritten(cfg, w, s[id]);
    }
  }

  lemma SaneGrantRoot(cfg: Config, s: Store, r: Rid)
    requires Sane(cfg, s) && ROOT in s && r !in cfg.counts
    ensures Sane(cfg, AdoptAvailability(s, r))
  {
    assert SaneNode(cfg, s[ROOT]);
    SanePut(cfg, s, ROOT, s[ROOT].(limit := s[ROOT].limit[r := 1]));
  }

  lemma SaneReject(cfg: Config, s: Store, c: Caller, id: Id)
    requires Shaped(s) && Sane(cfg, s) && Reject(s, c, id).Ok?
    ensures Sane(cfg, Reject(s, c, id).value)
  {
    assert SaneNode(cfg, s[id]) && OwnShape(s[id]);
    SanePut(cfg, s, id, Refused(s[id]));
  }

  lemma SaneRelease(cfg: Config, s: Store, c: Caller, id: Id, delete: bool, deletable: bool)
    requires Sane(cfg, s) && Release(s, c, id, delete, deletable).Ok?
    ensures Sane(cfg, Release(s, c, id, delete, deletable).value)
  {
    assert SaneNode(cfg, s[id]);
    SanePut(cfg, s, id, ReleasedNode(s[id], delete));
  }

  lemma SaneMove(cfg: Config, s: Store, c: Caller, id: Id, target: Id)
    requires Sane(cfg, s) && Move(cfg, s, c, id, target).Ok?
    ensures Sane(cfg, Move(cfg, s, c, id, target).value)
  {
    MoveFacts(cfg, s, c, id, target);
    assert SaneNode(cfg, s[id]);
    MovedNodeKeeps(s, s[id], target, c.now);
    SanePut(cfg, s, id, MovedNode(s, s[id], target, c.now));
    var t := MoveWritten(s, id, target, c.now);
    CarriedHoldings(t, id, MoveBound(s, s[id], target, c.now), c.now);
    SaneSame(cfg, t, Move(cfg, s, c, id, target).value);
  }

  lemma SaneTransfer(cfg: Config, s: Store, c: Caller, id: Id, owner: Token)
    requires Sane(cfg, s) && Transfer(s, c, id, owner).Ok?
    ensures Sane(cfg, Transfer(s, c, id, owner).value)
  {
    assert SaneNode(cfg, s[id]);
    SanePut(cfg, s, id, HandedOver(s[id], owner));
  }

  lemma SaneDelete(cfg: Config, s: Store, c: Caller, id: Id)
    requires Sane(cfg, s) && Delete(s, c, id).Ok?
    ensures Sane(cfg, Delete(s, c, id).value)
  {
    SaneSame(cfg, s, Delete(s, c, id).value);
  }

  lemma SanePromote(cfg: Config, s: Store, c: Caller, id: Id, req: PromoteRequest)
    requires Sane(cfg, s) && Shaped(s) && Promote(cfg, s, c, id, req).Ok?
    ensures Sane(cfg, Promote(cfg, s, c, id, req).value)
  {
    PromoteFacts(cfg, s, c, id, req);
    assert SaneNode(cfg, s[id]) && OwnShape(s[id]);
    SanePut(cfg, s, id, PromotedNode(s, s[id], req, c.now));
  }

  /** Every amount that is charged or that bounds stays in range, whatever happens. */
  lemma SaneNext(cfg: Config, s: Store, c: Caller, op: Op)
    requires cfg.Valid() && Shaped(s) && Sane(cfg, s) && Enabled(cfg, s, op)
    ensures Sane(cfg, Next(cfg, s, c, op))
  {
    if OutcomeOf(cfg, s, c, op).Ok? {
      match op
      case OpCreate(id, req) => SaneCreate(cfg, s, c, id, req);
      case OpUpdate(id, req) => SaneUpdate(cfg, s, c, id, req);
      case OpChange(id, req) => SaneChange(cfg, s, c, id, req);
      case OpApprove(id, req) => SaneApprove(cfg, s, c, id, req);
      case OpReject(id) => SaneReject(cfg, s, c, id);
      case OpRelease(id, d, e) => SaneRelease(cfg, s, c, id, d, e);
      case OpDelete(id) => SaneDelete(cfg, s, c, id);
      case OpMove(id, target) => SaneMove(cfg, s, c, id, target);
      case OpTransfer(id, owner) => SaneTransfer(cfg, s, c, id, owner);
      case OpPromote(id, req) => SanePromote(cfg, s, c, id, req);
      case OpAllocate(id, b, q) => SaneAllocate(cfg, s, c, id, b, q);
      case OpRewrite(w) => SaneRewrite(cfg, s, w);
      case OpGrantRoot(r) => SaneGrantRoot(cfg, s, r);
      case OpReport(w) => SaneReport(cfg, s, w);
    }
  }

  // ── Cascades ────────────────────────────────────────────────────────────────

  /** n is m but for when it ends. */
  predicate SameButBounds(m: Node, n: Node) {
    && n == m.(end := n.end, maxTerm := n.maxTerm, pending := n.pending, log := n.log)
    && (n.pending.Some? <==> m.pending.Some?)
    && (n.pending.Some? ==> n.pending.value.limit == m.pending.value.limit)
  }

  ghost predicate OnlyBounds(s: Store, t: Store) {
    t.Keys == s.Keys && forall id {:trigger t[id]} :: id in s ==> SameButBounds(s[id], t[id])
  }

  lemma OnlyBoundsByCascades(s: Store, top: Id, end: Time, days: int, now: Time)
    ensures OnlyBounds(s, CascadeEnds(s, top, end)) && OnlyBounds(s, CascadeTerms(s, top, days, now))
  {
    forall id | id in s
      ensures SameButBounds(s[id], CascadeEnds(s, top, end)[id])
      ensures SameButBounds(s[id], CascadeTerms(s, top, days, now)[id])
    {
      ShortenedButBounds(s[id], end);
      ShortenedButBounds(s[id], TermEnd(now, days));
      TermButBounds(s[id], days);
    }
  }

  lemma ShortenedButBounds(n: Node, end: Time)
    ensures SameButBounds(n, ShortenEnd(n, end))
  {
  }

  lemma TermButBounds(n: Node, days: int)
    ensures SameButBounds(n, ShortenTerm(n, days))
  {
  }

  lemma OnlyBoundsOn(s: Store, t: Store, u: Store)
    requires OnlyBounds(s, t) && OnlyBounds(t, u)
    ensures OnlyBounds(s, u)
  {
    forall id | id in s ensures SameButBounds(s[id], u[id]) {
      assert SameButBounds(s[id], t[id]) && SameButBounds(t[id], u[id]);
    }
  }

  lemma OnlyBoundsCarriedDown(s: Store, id: Id, req: UpdateRequest, now: Time)
    ensures OnlyBounds(s, CarriedDown(s, id, req, now))
  {
    if !PanicsEarly(req) {
      var t := s;
      if req.end.Some? {
        OnlyBoundsByCascades(s, id, req.end.value, 0, now);
        t := CascadeEnds(s, id, req.end.value);
      }
      if req.maxTerm.Some? && !req.clearMaxTerm {
        OnlyBoundsByCascades(t, id, 0, req.maxTerm.value, now);
        OnlyBoundsOn(s, t, CascadeTerms(t, id, req.maxTerm.value, now));
      }
    }
  }

  lemma OnlyBoundsCarried(s: Store, id: Id, bound: Option<Time>, now: Time)
    requires id in s
    ensures OnlyBounds(s, MoveCarried(s, id, bound, now))
  {
    if s[id].kind == Budget {
      var t := s;
      if bound.Some? {
        OnlyBoundsByCascades(s, id, bound.value, 0, now);
        t := CascadeEnds(s, id, bound.value);
      }
      if s[id].maxTerm.Some? {
        OnlyBoundsByCascades(t, id, 0, s[id].maxTerm.value, now);
        OnlyBoundsOn(s, t, CascadeTerms(t, id, s[id].maxTerm.value, now));
      }
    }
  }
}
