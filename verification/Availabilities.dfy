/** An availability comes from one place: what a project holds of one in total is 0 or 1
    (internal/core/tree/op_allocations.go, EffectiveLimit in internal/core/model/model.go). */
module Availabilities {
  import opened Model
  import opened Chains
  import opened Charges
  import opened Rules
  import opened Steps
  import opened Reports
  import opened Runs
  import opened Shape
  import opened Values
  import opened Sources

  /** Availabilities are 0 or 1 wherever they are stored, and 0 or 1 altogether. */
  predicate OnceNode(cfg: Config, n: Node) {
    n.kind == Project ==>
      if n.status == Imported then n.allocations == [] && (n.side.promote ==> ZeroOrOne(cfg, n.limit))
      else OnceHeld(cfg, n.limit, n.allocations)
  }

  predicate OnceHeld(cfg: Config, limit: Quota, allocs: seq<Allocation>) {
    && ZeroOrOne(cfg, limit)
    && (forall a :: a in allocs ==> ZeroOrOne(cfg, a.limit))
    && (forall r :: r in cfg.bools ==> Q(limit, r) + AllocationsOf(allocs, r) <= 1)
  }

  ghost predicate Once(cfg: Config, s: Store) {
    forall id {:trigger OnceNode(cfg, s[id])} :: id in s ==> OnceNode(cfg, s[id])
  }

  lemma {:induction false} AllocationsNonNegative(cfg: Config, allocs: seq<Allocation>, r: Rid)
    requires r in cfg.bools && forall a :: a in allocs ==> ZeroOrOne(cfg, a.limit)
    ensures AllocationsOf(allocs, r) >= 0
  {
    if allocs != [] {
      assert allocs[|allocs| - 1] in allocs;
      AllocationsNonNegative(cfg, allocs[..|allocs| - 1], r);
    }
  }

  /** Altogether a project holds an availability or it does not. */
  lemma EffectivelyOnce(cfg: Config, s: Store, id: Id, r: Rid)
    requires Once(cfg, s) && id in s && s[id].kind == Project && s[id].status != Imported && r in cfg.bools
    ensures EffectiveLimit(s[id], r) == 0 || EffectiveLimit(s[id], r) == 1
  {
    assert OnceNode(cfg, s[id]);
    AllocationsNonNegative(cfg, s[id].allocations, r);
  }

  /** A limit that asking accepts next to the allocations keeps every availability at one place. */
  lemma {:induction false} ClearHolds(cfg: Config, limit: Quota, allocs: seq<Allocation>, r: Rid)
    requires forall a :: a in allocs ==> ZeroOrOne(cfg, a.limit)
    requires r in cfg.bools && ClearOf(cfg, allocs, limit) && Q(limit, r) == 1
    ensures AllocationsOf(allocs, r) == 0
  {
    if allocs != [] {
      assert allocs[|allocs| - 1] in allocs;
      ClearHolds(cfg, limit, allocs[..|allocs| - 1], r);
    }
  }

  lemma LimitOnce(cfg: Config, n: Node, limit: Quota)
    requires n.kind == Project && n.status != Imported && OnceNode(cfg, n)
    requires ZeroOrOne(cfg, limit) && ClearOf(cfg, n.allocations, limit)
    ensures OnceHeld(cfg, limit, n.allocations)
  {
    forall r | r in cfg.bools ensures Q(limit, r) + AllocationsOf(n.allocations, r) <= 1 {
      if Q(limit, r) == 1 { ClearHolds(cfg, limit, n.allocations, r); }
    }
  }

  // ── Keeping it ──────────────────────────────────────────────────────────────

  lemma OncePut(cfg: Config, s: Store, id: Id, n: Node)
    requires Once(cfg, s) && OnceNode(cfg, n)
    ensures Once(cfg, Put(s, id, n)) && Once(cfg, s[id := n])
  {
    assert OnceNode(cfg, CapHistory(n));
    forall x | x in s[id := n] ensures OnceNode(cfg, s[id := n][x]) && OnceNode(cfg, Put(s, id, n)[x]) {
      if x != id { assert OnceNode(cfg, s[x]); }
    }
  }

  /** n holds what m holds and is as much an import. */
  predicate SameOnce(m: Node, n: Node) {
    SameHoldings(m, n) && n.side.promote == m.side.promote
  }

  lemma OnceSame(cfg: Config, s: Store, t: Store)
    requires Once(cfg, s) && t.Keys <= s.Keys && forall id :: id in t ==> SameOnce(s[id], t[id])
    ensures Once(cfg, t)
  {
    forall id | id in t ensures OnceNode(cfg, t[id]) {
      assert OnceNode(cfg, s[id]);
    }
  }

  lemma OnceCascades(cfg: Config, s: Store, top: Id, end: Time, days: int, now: Time)
    requires Once(cfg, s)
    ensures Once(cfg, CascadeEnds(s, top, end)) && Once(cfg, CascadeTerms(s, top, days, now))
  {
    OnceSame(cfg, s, CascadeEnds(s, top, end));
    OnceSame(cfg, s, CascadeTerms(s, top, days, now));
  }

  lemma OnceCreate(cfg: Config, s: Store, c: Caller, id: Id, req: CreateRequest)
    requires Once(cfg, s) && Create(cfg, s, c, id, req).Ok?
    ensures Once(cfg, Create(cfg, s, c, id, req).value)
  {
    var n := CreatedNode(cfg, s, c, id, req);
    OncePut(cfg, s, id, n);
  }

  lemma LeafEditOnce(cfg: Config, s: Store, n: Node, chain: seq<Id>, req: UpdateRequest)
    requires OnceNode(cfg, n) && (n.kind == Project ==> LeafDirectEdit(req))
    ensures OnceNode(cfg, Edited(s, n, chain, req))
  {
  }

  lemma OnceUpdate(cfg: Config, s: Store, c: Caller, id: Id, req: UpdateRequest)
    requires Once(cfg, s) && Update(cfg, s, c, id, req).Ok?
    ensures Once(cfg, Update(cfg, s, c, id, req).value)
  {
    UpdateFacts(cfg, s, c, id, req);
    assert OnceNode(cfg, s[id]);
    var e := Edited(s, s[id], Above(s, s[id]), req);
    LeafEditOnce(cfg, s, s[id], Above(s, s[id]), req);
    OncePut(cfg, s, id, e);
    OnceCarriedDown(cfg, Put(s, id, e), id, req, c.now);
  }

  lemma OnceCarriedDown(cfg: Config, s: Store, id: Id, req: UpdateRequest, now: Time)
    requires Once(cfg, s)
    ensures Once(cfg, CarriedDown(s, id, req, now))
  {
    var t := s;
    if !PanicsEarly(req) && req.end.Some? {
      OnceCascades(cfg, s, id, req.end.value, 0, now);
      t := CascadeEnds(s, id, req.end.value);
    }
    if !PanicsEarly(req) && req.maxTerm.Some? && !req.clearMaxTerm {
      OnceCascades(cfg, t, id, 0, req.maxTerm.value, now);
    }
  }

  lemma OnceChange(cfg: Config, s: Store, c: Caller, id: Id, req: ChangeRequest)
    requires Once(cfg, s) && RequestChange(cfg, s, c, id, req).Ok?
    ensures Once(cfg, RequestChange(cfg, s, c, id, req).value)
  {
    var n := ChangedNode(cfg, s, c, id, req);
    assert OnceNode(cfg, s[id]);
    if s[id].kind == Project && req.limit.Some? { LimitOnce(cfg, s[id], req.limit.value); }
    ChangedOnce(cfg, s[id], req);
    OncePut(cfg, s, id, n);
  }

  lemma ChangedOnce(cfg: Config, n: Node, req: ChangeRequest)
    requires OnceNode(cfg, n) && Live(n.status)
    requires n.kind == Project && req.limit.Some? ==> OnceHeld(cfg, req.limit.value, n.allocations)
    ensures OnceNode(cfg, Amended(n, req)) && OnceNode(cfg, AppliedDirectly(n, req)) && OnceNode(cfg, Proposed(n, req))
  {
  }

  lemma OnceApprove(cfg: Config, s: Store, c: Caller, id: Id, req: ApproveRequest)
    requires Once(cfg, s) && Approve(cfg, s, c, id, req).Ok?
    ensures Once(cfg, Approve(cfg, s, c, id, req).value)
  {
    ApproveFacts(cfg, s, c, id, req);
    assert OnceNode(cfg, s[id]);
    var d := Decided(s, s[id], req, c.now);
    if s[id].kind == Project { LimitOnce(cfg, s[id], FinalLimit(s[id], req)); }
    OncePut(cfg, s, id, d);
    if d.end.Some? { OnceCascades(cfg, Put(s, id, d), id, d.end.value, 0, c.now); }
  }

  lemma OnceReject(cfg: Config, s: Store, c: Caller, id: Id)
    requires Once(cfg, s) && Reject(s, c, id).Ok?
    ensures Once(cfg, Reject(s, c, id).value)
  {
    assert OnceNode(cfg, s[id]);
    OncePut(cfg, s, id, Refused(s[id]));
  }

  lemma OnceRelease(cfg: Config, s: Store, c: Caller, id: Id, delete: bool, deletable: bool)
    requires Once(cfg, s) && Release(s, c, id, delete, deletable).Ok?
    ensures Once(cfg, Release(s, c, id, delete, deletable).value)
  {
    assert OnceNode(cfg, s[id]);
    OncePut(cfg, s, id, ReleasedNode(s[id], delete));
  }

  lemma OnceDelete(cfg: Config, s: Store, c: Caller, id: Id)
    requires Once(cfg, s) && Delete(s, c, id).Ok?
    ensures Once(cfg, Delete(s, c, id).value)
  {
    OnceSame(cfg, s, Delete(s, c, id).value);
  }

  lemma OnceTransfer(cfg: Config, s: Store, c: Caller, id: Id, owner: Token)
    requires Once(cfg, s) && Transfer(s, c, id, owner).Ok?
    ensures Once(cfg, Transfer(s, c, id, owner).value)
  {
    assert OnceNode(cfg, s[id]);
    OncePut(cfg, s, id, HandedOver(s[id], owner));
  }

  lemma OnceMove(cfg: Config, s: Store, c: Caller, id: Id, target: Id)
    requires Once(cfg, s) && Move(cfg, s, c, id, target).Ok?
    ensures Once(cfg, Move(cfg, s, c, id, target).value)
  {
    MoveFacts(cfg, s, c, id, target);
    assert OnceNode(cfg, s[id]);
    MovedNodeKeeps(s, s[id], target, c.now);
    OncePut(cfg, s, id, MovedNode(s, s[id], target, c.now));
    OnceCarried(cfg, MoveWritten(s, id, target, c.now), id, MoveBound(s, s[id], target, c.now), c.now);
  }

  lemma OnceCarried(cfg: Config, s: Store, id: Id, bound: Option<Time>, now: Time)
    requires Once(cfg, s) && id in s
    ensures Once(cfg, MoveCarried(s, id, bound, now))
  {
    var t := s;
    if s[id].kind == Budget && bound.Some? {
      OnceCascades(cfg, s, id, bound.value, 0, now);
      t := CascadeEnds(s, id, bound.value);
    }
    if s[id].kind == Budget && s[id].maxTerm.Some? { OnceCascades(cfg, t, id, 0, s[id].maxTerm.value, now); }
  }

  lemma OncePromote(cfg: Config, s: Store, c: Caller, id: Id, req: PromoteRequest)
    requires Once(cfg, s) && Promote(cfg, s, c, id, req).Ok?
    ensures Once(cfg, Promote(cfg, s, c, id, req).value)
  {
    PromoteFacts(cfg, s, c, id, req);
    assert OnceNode(cfg, s[id]);
    OncePut(cfg, s, id, PromotedNode(s, s[id], req, c.now));
  }

  // ── Drawing from above ──────────────────────────────────────────────────────

  lemma {:induction false} AllocationsWithout(allocs: seq<Allocation>, b: Id, r: Rid)
    requires Distinct(allocs)
    ensures AllocationsOf(Without(allocs, b), r) == AllocationsOf(allocs, r) - Q(HeldFrom(allocs, b), r)
  {
    if allocs != [] {
      var h, l := allocs[..|allocs| - 1], allocs[|allocs| - 1];
      if l.budget == b {
        WithoutAbsent(h, b);
      } else {
        AllocationsWithout(h, b, r);
        assert (Without(h, b) + [l])[..|Without(h, b)|] == Without(h, b);
      }
    }
  }

  lemma {:induction false} WithoutFrom(allocs: seq<Allocation>, b: Id)
    ensures forall a :: a in Without(allocs, b) ==> a in allocs
  {
    if allocs != [] { WithoutFrom(allocs[..|allocs| - 1], b); }
  }

  /** What the project holds of r once it draws limit from b. */
  lemma AllocatedAmount(n: Node, b: Id, limit: Quota, r: Rid)
    requires Distinct(n.allocations)
    ensures EffectiveLimit(Allocated(n, b, limit), r)
            == EffectiveLimit(n, r) - Q(HeldFrom(n.allocations, b), r) + Q(limit, r)
  {
    AllocationsWithout(n.allocations, b, r);
    var w := Without(n.allocations, b);
    if limit != map[] {
      assert (w + [Allocation(b, limit)])[..|w|] == w;
    }
  }

  /** A project that draws from one budget only holds what it draws there. */
  lemma {:induction false} OnlyThere(cfg: Config, allocs: seq<Allocation>, except: Id, r: Rid)
    requires r in cfg.bools && Distinct(allocs) && forall a :: a in allocs ==> ZeroOrOne(cfg, a.limit)
    requires forall a :: a in allocs && a.budget != except ==> Q(a.limit, r) != 1
    ensures AllocationsOf(allocs, r) == Q(HeldFrom(allocs, except), r)
  {
    if allocs != [] {
      var h, l := allocs[..|allocs| - 1], allocs[|allocs| - 1];
      assert l in allocs;
      OnlyThere(cfg, h, except, r);
      if l.budget == except { NotHeld(h, except); }
    }
  }

  lemma {:induction false} NotHeld(allocs: seq<Allocation>, b: Id)
    requires forall i :: 0 <= i < |allocs| ==> allocs[i].budget != b
    ensures HeldFrom(allocs, b) == map[]
  {
    if allocs != [] { NotHeld(allocs[..|allocs| - 1], b); }
  }

  lemma {:induction false} HeldZeroOrOne(cfg: Config, allocs: seq<Allocation>, b: Id)
    requires forall a :: a in allocs ==> ZeroOrOne(cfg, a.limit)
    ensures ZeroOrOne(cfg, HeldFrom(allocs, b))
  {
    if allocs != [] {
      assert allocs[|allocs| - 1] in allocs;
      HeldZeroOrOne(cfg, allocs[..|allocs| - 1], b);
    }
  }

  /** The budget that binds at b grants the project an availability already, by an allocation of its
      own, that it is now to draw from b as well. */
  ghost predicate DrawnTwice(cfg: Config, s: Store, n: Node, b: Id, limit: Quota) {
    var source := Binding(s, Chain(Budgets(s), b));
    source.Some? && source.value != b
    && exists r :: r in cfg.bools && Q(limit, r) == 1 && Q(HeldFrom(n.allocations, b), r) == 0
                   && Q(HeldFrom(n.allocations, source.value), r) == 1
  }

  /** The check of an allocation looks past the allocation of the budget that binds, not past that of the
      allocating one. Where the two differ - the allocating budget inherits its limit - an availability
      can come from both; it does exactly when the binding one grants it already. */
  lemma AllocateOnceExact(cfg: Config, s: Store, c: Caller, id: Id, b: Id, amount: Quota)
    requires cfg.Valid() && Shaped(s) && Sourced(s) && Once(cfg, s) && Allocate(cfg, s, c, id, b, amount).Ok?
    ensures id in s
    ensures OnceNode(cfg, Allocate(cfg, s, c, id, b, amount).value[id])
            <==> !DrawnTwice(cfg, s, s[id], b, NonZero(amount))
  {
    AllocateFacts(cfg, s, c, id, b, amount);
    var n, limit := s[id], NonZero(amount);
    assert OnceNode(cfg, n) && SourcedNode(Budgets(s), n) && Hangs(s, n);
    var m := Allocated(n, b, limit);
    AllocatedParts(cfg, n, b, limit);
    forall r | r in cfg.bools
      ensures EffectiveLimit(m, r) <= 1 <==>
        !(Q(limit, r) == 1 && Q(HeldFrom(n.allocations, b), r) == 0 && EffectiveLimit(n, r) == 1)
    {
      AllocatedOnceAt(cfg, n, b, limit, r);
    }
    forall r | r in cfg.bools && Q(limit, r) == 1 && Q(HeldFrom(n.allocations, b), r) == 0
      ensures EffectiveLimit(n, r) == 1 <==> DrawnTwiceAt(cfg, s, n, b, r)
    {
      RaisedFrom(cfg, s, n, b, limit, r);
    }
  }

  ghost predicate DrawnTwiceAt(cfg: Config, s: Store, n: Node, b: Id, r: Rid) {
    var source := Binding(s, Chain(Budgets(s), b));
    source.Some? && source.value != b && Q(HeldFrom(n.allocations, source.value), r) == 1
  }

  lemma AllocatedParts(cfg: Config, n: Node, b: Id, limit: Quota)
    requires cfg.Valid() && ValidLeafLimit(cfg, limit) && n.kind == Project && Live(n.status) && OnceNode(cfg, n)
    ensures OnceNode(cfg, Allocated(n, b, limit))
            <==> forall r :: r in cfg.bools ==> EffectiveLimit(Allocated(n, b, limit), r) <= 1
  {
    WithoutFrom(n.allocations, b);
  }

  lemma AllocatedOnceAt(cfg: Config, n: Node, b: Id, limit: Quota, r: Rid)
    requires n.kind == Project && Live(n.status) && OnceNode(cfg, n) && Distinct(n.allocations)
    requires r in cfg.bools && ZeroOrOne(cfg, limit)
    ensures EffectiveLimit(Allocated(n, b, limit), r) <= 1 <==>
      !(Q(limit, r) == 1 && Q(HeldFrom(n.allocations, b), r) == 0 && EffectiveLimit(n, r) == 1)
  {
    AllocatedAmount(n, b, limit, r);
    HeldZeroOrOne(cfg, n.allocations, b);
    AllocationsNonNegative(cfg, n.allocations, r);
  }

  /** A raise was checked: the availability comes from nowhere but what binds at b. */
  lemma RaisedFrom(cfg: Config, s: Store, n: Node, b: Id, limit: Quota, r: Rid)
    requires n.kind == Project && Live(n.status) && OnceNode(cfg, n) && Distinct(n.allocations) && r in cfg.bools
    requires Q(limit, r) == 1 && Q(HeldFrom(n.allocations, b), r) == 0
    requires RaiseOk(cfg, s, n, b, limit, HeldFrom(n.allocations, b))
    ensures EffectiveLimit(n, r) == 1 <==> DrawnTwiceAt(cfg, s, n, b, r)
  {
    var source := Binding(s, Chain(Budgets(s), b)).value;
    assert r in limit && limit[r] == 1 && OnlyFrom(n, r, source);
    OnlyThere(cfg, n.allocations, source, r);
  }

  lemma OnceAllocate(cfg: Config, s: Store, c: Caller, id: Id, b: Id, amount: Quota)
    requires cfg.Valid() && Shaped(s) && Sourced(s) && Once(cfg, s) && Allocate(cfg, s, c, id, b, amount).Ok?
    requires id in s && !DrawnTwice(cfg, s, s[id], b, NonZero(amount))
    ensures Once(cfg, Allocate(cfg, s, c, id, b, amount).value)
  {
    AllocateOnceExact(cfg, s, c, id, b, amount);
    AllocateFacts(cfg, s, c, id, b, amount);
    CappedOnce(cfg, Allocated(s[id], b, NonZero(amount)));
    OncePut(cfg, s, id, Allocated(s[id], b, NonZero(amount)));
  }

  lemma CappedOnce(cfg: Config, n: Node)
    ensures OnceNode(cfg, CapHistory(n)) <==> OnceNode(cfg, n)
  {
  }

  /** A budget with a limit of its own binds at itself. */
  lemma OwnLimitDrawsOnce(cfg: Config, s: Store, n: Node, b: Id, limit: Quota)
    requires Rooted(Budgets(s), b) && b in s && !s[b].inherits
    ensures !DrawnTwice(cfg, s, n, b, limit)
  {
    assert Chain(Budgets(s), b)[0] == b;
  }

  // ── Rewrites and reports ────────────────────────────────────────────────────

  lemma {:induction false} RewrittenOnce(cfg: Config, w: Rewrite, allocs: seq<Allocation>, r: Rid)
    requires r in cfg.bools && forall a :: a in allocs ==> ZeroOrOne(cfg, a.limit)
    ensures AllocationsOf(RewrittenAllocations(w, allocs), r) <= AllocationsOf(allocs, r)
    ensures forall a :: a in RewrittenAllocations(w, allocs) ==> ZeroOrOne(cfg, a.limit)
  {
    if allocs != [] {
      var h, l := allocs[..|allocs| - 1], allocs[|allocs| - 1];
      assert l in allocs;
      RewrittenOnce(cfg, w, h, r);
      var t, q := RewrittenAllocations(w, h), Rewritten(w, l.limit);
      assert ZeroOrOne(cfg, q) && Q(q, r) <= Q(l.limit, r) && Q(l.limit, r) >= 0;
      assert (t + [l.(limit := q)])[..|t|] == t;
    }
  }

  lemma RewrittenNodeOnce(cfg: Config, w: Rewrite, n: Node)
    requires OnceNode(cfg, n)
    ensures OnceNode(cfg, RewrittenNode(w, n))
  {
    if n.kind == Project && n.status != Imported {
      forall r | r in cfg.bools
        ensures Q(Rewritten(w, n.limit), r) + AllocationsOf(RewrittenAllocations(w, n.allocations), r) <= 1
        ensures forall a :: a in RewrittenAllocations(w, n.allocations) ==> ZeroOrOne(cfg, a.limit)
      {
        RewrittenOnce(cfg, w, n.allocations, r);
      }
      RewrittenAll(cfg, w, n.allocations);
    }
  }

  lemma {:induction false} RewrittenAll(cfg: Config, w: Rewrite, allocs: seq<Allocation>)
    requires forall a :: a in allocs ==> ZeroOrOne(cfg, a.limit)
    ensures forall a :: a in RewrittenAllocations(w, allocs) ==> ZeroOrOne(cfg, a.limit)
  {
    if allocs != [] {
      assert allocs[|allocs| - 1] in allocs;
      RewrittenAll(cfg, w, allocs[..|allocs| - 1]);
    }
  }

  lemma OnceRewrite(cfg: Config, s: Store, w: Rewrite)
    requires Once(cfg, s)
    ensures Once(cfg, RewriteAll(s, w))
  {
    forall id | id in s ensures OnceNode(cfg, RewriteAll(s, w)[id]) {
      assert OnceNode(cfg, s[id]);
      RewrittenNodeOnce(cfg, w, s[id]);
    }
  }

  lemma OnceGrantRoot(cfg: Config, s: Store, r: Rid)
    requires Shaped(s) && Once(cfg, s)
    ensures Once(cfg, AdoptAvailability(s, r))
  {
    OncePut(cfg, s, ROOT, s[ROOT].(limit := s[ROOT].limit[r := 1]));
  }

  lemma ReportedOnce(cfg: Config, n: Node, w: Report)
    requires OnceNode(cfg, n) && OwnShape(n) && Reported(n, w).Some?
    ensures OnceNode(cfg, Reported(n, w).value)
  {
    if w.Adopt? && n.status == Imported && n.side.promote {
      assert forall r :: r in cfg.bools ==> Q(n.limit, r) <= 1;
    }
  }

  lemma OnceReport(cfg: Config, s: Store, w: Report)
    requires Shaped(s) && Once(cfg, s)
    ensures Once(cfg, ApplyReport(s, w))
  {
    if w.AddImport? {
      OncePut(cfg, s, w.id, ImportedNode(w.limit, w.members));
    } else if w.id in s {
      assert OnceNode(cfg, s[w.id]) && OwnShape(s[w.id]);
      if Reported(s[w.id], w).Some? {
        ReportedOnce(cfg, s[w.id], w);
        OncePut(cfg, s, w.id, Reported(s[w.id], w).value);
      } else {
        OnceSame(cfg, s, s - {w.id});
      }
    }
  }

  // ── Every step ──────────────────────────────────────────────────────────────

  /** No allocation doubles what the binding budget grants. */
  ghost predicate SingleSource(cfg: Config, s: Store, op: Op) {
    op.OpAllocate? && op.id in s ==> !DrawnTwice(cfg, s, s[op.id], op.budget, NonZero(op.amount))
  }

  /** Whatever happens, as long as no allocation doubles what the binding budget grants: every
      availability comes from one place. */
  lemma OnceNext(cfg: Config, s: Store, c: Caller, op: Op)
    requires cfg.Valid() && Shaped(s) && Sourced(s) && Once(cfg, s) && SingleSource(cfg, s, op)
    ensures Once(cfg, Next(cfg, s, c, op))
  {
    if OutcomeOf(cfg, s, c, op).Ok? {
      match op
      case OpCreate(id, req) => OnceCreate(cfg, s, c, id, req);
      case OpUpdate(id, req) => OnceUpdate(cfg, s, c, id, req);
      case OpChange(id, req) => OnceChange(cfg, s, c, id, req);
      case OpApprove(id, req) => OnceApprove(cfg, s, c, id, req);
      case OpReject(id) => OnceReject(cfg, s, c, id);
      case OpRelease(id, d, e) => OnceRelease(cfg, s, c, id, d, e);
      case OpDelete(id) => OnceDelete(cfg, s, c, id);
      case OpMove(id, target) => OnceMove(cfg, s, c, id, target);
      case OpTransfer(id, owner) => OnceTransfer(cfg, s, c, id, owner);
      case OpPromote(id, req) => OncePromote(cfg, s, c, id, req);
      case OpAllocate(id, b, q) =>
        AllocateFacts(cfg, s, c, id, b, q);
        OnceAllocate(cfg, s, c, id, b, q);
      case OpRewrite(w) => OnceRewrite(cfg, s, w);
      case OpGrantRoot(r) => OnceGrantRoot(cfg, s, r);
      case OpReport(w) => OnceReport(cfg, s, w);
    }
  }

  // ── A case of two ───────────────────────────────────────────────────────────

  const NET: Rid := "network"

  function PlainBudget(parent: Option<Id>, limit: Quota, inherits: bool): Node {
    Node(Budget, parent, Approved, limit, inherits, [], None, None, None, "", {},
         Policy({"admin"}, {}, None, true, true, true, NO_HOUSE), Log(1, 0), NO_SIDE)
  }

  /** A project three budgets below the root; the one in the middle inherits, and the one above it grants
      the project the network already. */
  const TWO_SOURCES: Store := map[
    ROOT := PlainBudget(None, ONE_NET, false),
    UNASSIGNED := PlainBudget(Some(ROOT), map[], false),
    "upper" := PlainBudget(Some(ROOT), ONE_NET, false),
    "middle" := PlainBudget(Some("upper"), map[], true),
    "lower" := PlainBudget(Some("middle"), map[], false),
    "project" := Node(Project, Some("lower"), Approved, map[], false, [Allocation("upper", ONE_NET)], None, None,
                      None, "owner", {}, Policy({}, {}, None, true, true, true, NO_HOUSE), Log(1, 0), NO_SIDE)]

  const ONE_NET: Quota := map[NET := 1]

  const NET_ONLY := Config([], [NET], {}, map[], {}, map[], {}, ALL_OFF)

  lemma TwoSourcesChains()
    ensures Chain(Budgets(TWO_SOURCES), "lower") == ["lower", "middle", "upper", ROOT]
    ensures Chain(Budgets(TWO_SOURCES), "middle") == ["middle", "upper", ROOT]
  {
    var c := ["lower", "middle", "upper", ROOT];
    assert IsChain(Budgets(TWO_SOURCES), c);
    ChainIs(Budgets(TWO_SOURCES), c);
    ChainSuffix(Budgets(TWO_SOURCES), "lower", 1);
  }

  /** The allocation from the middle budget is accepted, and the project has the network twice. */
  lemma NetworkTwice(c: Caller)
    requires "admin" in c.tokens
    ensures var o := Allocate(NET_ONLY, TWO_SOURCES, c, "project", "middle", ONE_NET);
            o.Ok? && EffectiveLimit(o.value["project"], NET) == 2
  {
    NetworkAllocated(c);
    ProjectThere();
    AllocatedAmount(TWO_SOURCES["project"], "middle", ONE_NET, NET);
  }

  lemma AcceptedAllocation(cfg: Config, s: Store, c: Caller, id: Id, b: Id, limit: Quota)
    requires id in s && s[id].kind == Project && Live(s[id].status) && b in Above(s, s[id]) && Above(s, s[id])[0] != b
    requires NonZero(limit) == limit && limit != map[] && ValidLeafLimit(cfg, limit)
    requires AllocationError(cfg, s, c, s[id], b, limit, HeldFrom(s[id].allocations, b)).None?
    ensures Allocate(cfg, s, c, id, b, limit) == Ok(Put(s, id, Allocated(s[id], b, limit)))
  {
  }

  lemma NetworkAllocated(c: Caller)
    requires "admin" in c.tokens
    ensures Allocate(NET_ONLY, TWO_SOURCES, c, "project", "middle", ONE_NET)
            == Ok(Put(TWO_SOURCES, "project", Allocated(TWO_SOURCES["project"], "middle", ONE_NET)))
  {
    ProjectThere();
    NetworkRaised(c);
    AcceptedAllocation(NET_ONLY, TWO_SOURCES, c, "project", "middle", ONE_NET);
  }

  lemma ProjectThere()
    ensures "project" in TWO_SOURCES && TWO_SOURCES["project"].kind == Project && Live(TWO_SOURCES["project"].status)
    ensures "middle" in Above(TWO_SOURCES, TWO_SOURCES["project"])
        && Above(TWO_SOURCES, TWO_SOURCES["project"])[0] == "lower"
    ensures HeldFrom(TWO_SOURCES["project"].allocations, "middle") == map[]
    ensures Distinct(TWO_SOURCES["project"].allocations) && EffectiveLimit(TWO_SOURCES["project"], NET) == 1
    ensures NonZero(ONE_NET) == ONE_NET && ONE_NET != map[] && Q(ONE_NET, NET) == 1
  {
    TwoSourcesChains();
    var allocs := TWO_SOURCES["project"].allocations;
    assert allocs == [Allocation("upper", ONE_NET)] && allocs[..0] == [];
    assert AllocationsOf([], NET) == 0 && AllocationsOf(allocs, NET) == 1;
    assert HeldFrom([], "middle") == map[] && HeldFrom(allocs, "middle") == HeldFrom(allocs[..0], "middle");
    assert Chain(Budgets(TWO_SOURCES), "lower")[1] == "middle";
    assert NET in ONE_NET;
  }

  lemma NetworkRaised(c: Caller)
    requires "admin" in c.tokens
    ensures AllocationError(NET_ONLY, TWO_SOURCES, c, TWO_SOURCES["project"], "middle", ONE_NET, map[]).None?
  {
    var s, n := TWO_SOURCES, TWO_SOURCES["project"];
    TwoSourcesChains();
    var from := Chain(Budgets(s), "middle");
    assert from[1..] == ["upper", ROOT] && from[0] == "middle";
    assert Binding(s, from) == Some("upper");
    assert "admin" in s["middle"].policy.admins * c.tokens;
    assert ManagesChain(s, c.tokens, from);
    assert RaiseOk(NET_ONLY, s, n, "middle", ONE_NET, map[]);
  }
}
