/** Availabilities leaving the catalogue: what a withdrawal and a removal leave in the tree
    (internal/core/tree/op_catalog.go). */
module Catalogue {
  import opened Model
  import opened Chains
  import opened Charges
  import opened Rules
  import opened Steps
  import opened Reports
  import opened Runs
  import opened Shape
  import opened Values
  import opened Sources
  import opened Lifetimes
  import opened Availabilities
  import opened Safety
  import opened Reachable
  import opened Shares

  // ── Who holds an availability ───────────────────────────────────────────────

  /** Every amount a node stores. */
  ghost predicate Stores(n: Node, q: Quota) {
    || q == n.limit
    || (exists a :: a in n.allocations && q == a.limit)
    || (n.pending.Some? && n.pending.value.limit.Some? && q == n.pending.value.limit.value)
    || (n.policy.auto.Some? && q == n.policy.auto.value)
  }

  /** The ways a node holds availability r: by its limit, an allocation, a change waiting for approval or the
      share of its requesters. */
  predicate Holding(n: Node, r: Rid) {
    || Q(n.limit, r) == 1
    || (exists a :: a in n.allocations && Q(a.limit, r) == 1)
    || (n.pending.Some? && n.pending.value.limit.Some? && Q(n.pending.value.limit.value, r) == 1)
    || (n.policy.auto.Some? && Q(n.policy.auto.value, r) == 1)
  }

  lemma HoldingStored(n: Node, r: Rid)
    ensures Holding(n, r) <==> exists q :: Stores(n, q) && Q(q, r) == 1
  {
    if Holding(n, r) {
      assert Stores(n, n.limit);
      if exists a :: a in n.allocations && Q(a.limit, r) == 1 {
        var a :| a in n.allocations && Q(a.limit, r) == 1;
        assert Stores(n, a.limit);
      }
      if n.pending.Some? && n.pending.value.limit.Some? { assert Stores(n, n.pending.value.limit.value); }
      if n.policy.auto.Some? { assert Stores(n, n.policy.auto.value); }
    }
  }

  ghost predicate Unheld(s: Store, r: Rid) {
    forall id {:trigger Holding(s[id], r)} :: id in s ==> !Holding(s[id], r)
  }

  // ── What a rewrite leaves ───────────────────────────────────────────────────

  lemma {:induction false} KeptAllocations(w: Rewrite, allocs: seq<Allocation>)
    ensures forall b :: b in RewrittenAllocations(w, allocs) ==>
      exists a :: a in allocs && b == a.(limit := Rewritten(w, a.limit))
  {
    if allocs != [] {
      var most, a := allocs[..|allocs| - 1], allocs[|allocs| - 1];
      KeptAllocations(w, most);
      forall b | b in RewrittenAllocations(w, allocs)
        ensures exists d :: d in allocs && b == d.(limit := Rewritten(w, d.limit))
      {
        if b in RewrittenAllocations(w, most) {
          var d :| d in most && b == d.(limit := Rewritten(w, d.limit));
          assert d in allocs;
        } else {
          assert a in allocs;
        }
      }
    }
  }

  /** Whatever a node stores after a rewrite is something it stored, rewritten. */
  lemma StoredRewritten(w: Rewrite, n: Node, q: Quota)
    requires Stores(RewrittenNode(w, n), q)
    ensures exists p :: Stores(n, p) && q == Rewritten(w, p)
  {
    var m := RewrittenNode(w, n);
    if q == m.limit {
      assert Stores(n, n.limit);
    } else if exists b :: b in m.allocations && q == b.limit {
      var b :| b in m.allocations && q == b.limit;
      KeptAllocations(w, n.allocations);
      var a :| a in n.allocations && b == a.(limit := Rewritten(w, a.limit));
      assert Stores(n, a.limit);
    } else if m.pending.Some? && m.pending.value.limit.Some? && q == m.pending.value.limit.value {
      assert Stores(n, n.pending.value.limit.value);
    } else {
      assert Stores(n, n.policy.auto.value);
    }
  }

  /** After a withdrawal nobody holds the availability, the root included, and what is stored of it is 0. */
  lemma WithdrawalLeavesNone(s: Store, r: Rid)
    ensures forall id, q :: id in s && Stores(RewriteAll(s, Withdraw(r))[id], q) ==> Q(q, r) == 0
    ensures Unheld(RewriteAll(s, Withdraw(r)), r)
  {
    var t := RewriteAll(s, Withdraw(r));
    forall id, q | id in s && Stores(t[id], q) ensures Q(q, r) == 0 {
      StoredRewritten(Withdraw(r), s[id], q);
    }
    forall id | id in t ensures !Holding(t[id], r) {
      HoldingStored(t[id], r);
    }
  }

  /** After a removal the id is in no amount anywhere. */
  lemma RemovalLeavesNoKey(s: Store, r: Rid)
    ensures forall id, q :: id in s && Stores(RewriteAll(s, Forget(r))[id], q) ==> r !in q
  {
    forall id, q | id in s && Stores(RewriteAll(s, Forget(r))[id], q) ensures r !in q {
      StoredRewritten(Forget(r), s[id], q);
    }
  }

  lemma NothingToRewrite(w: Rewrite, n: Node)
    requires forall q :: Stores(n, q) ==> !Touches(w, q)
    ensures RewrittenNode(w, n) == n && !TouchesNode(w, n)
  {
    assert Stores(n, n.limit);
    forall a | a in n.allocations ensures !Touches(w, a.limit) { assert Stores(n, a.limit); }
    if n.pending.Some? && n.pending.value.limit.Some? { assert Stores(n, n.pending.value.limit.value); }
    if n.policy.auto.Some? { assert Stores(n, n.policy.auto.value); }
    UntouchedNode(w, n);
  }

  /** Nobody stores anything a rewrite would change. */
  ghost predicate NothingLeft(s: Store, w: Rewrite) {
    forall id :: id in s ==> !TouchesNode(w, s[id])
  }

  /** Repeating either changes no node. */
  lemma RewriteIdempotent(s: Store, w: Rewrite)
    ensures RewriteAll(RewriteAll(s, w), w) == RewriteAll(s, w)
    ensures NothingLeft(RewriteAll(s, w), w)
  {
    var t := RewriteAll(s, w);
    forall id | id in t ensures RewrittenNode(w, t[id]) == t[id] && !TouchesNode(w, t[id]) {
      forall q | Stores(t[id], q) ensures !Touches(w, q) {
        StoredRewritten(w, s[id], q);
      }
      NothingToRewrite(w, t[id]);
    }
  }

  /** Of everything else a node holds what it held. */
  lemma OthersKept(w: Rewrite, n: Node, r: Rid)
    requires r != w.r
    ensures Q(RewrittenNode(w, n).limit, r) == Q(n.limit, r)
    ensures EffectiveLimit(RewrittenNode(w, n), r) == EffectiveLimit(n, r)
  {
    OthersDrawn(w, n.allocations, r);
  }

  lemma {:induction false} OthersDrawn(w: Rewrite, allocs: seq<Allocation>, r: Rid)
    requires r != w.r
    ensures AllocationsOf(RewrittenAllocations(w, allocs), r) == AllocationsOf(allocs, r)
  {
    if allocs != [] {
      var most, a := allocs[..|allocs| - 1], allocs[|allocs| - 1];
      OthersDrawn(w, most, r);
      var q, rest := Rewritten(w, a.limit), RewrittenAllocations(w, most);
      assert Q(q, r) == Q(a.limit, r);
      var b := a.(limit := q);
      assert (rest + [b])[..|rest|] == rest;
    }
  }

  // ── Nothing withdrawn is granted again ──────────────────────────────────────

  lemma UnheldPut(s: Store, id: Id, n: Node, r: Rid)
    requires Unheld(s, r) && !Holding(n, r)
    ensures Unheld(Put(s, id, n), r) && Unheld(s[id := n], r)
  {
    assert !Holding(CapHistory(n), r);
    forall x | x in s[id := n] ensures !Holding(Put(s, id, n)[x], r) && !Holding(s[id := n][x], r) {
      if x != id { assert !Holding(s[x], r); }
    }
  }

  lemma UnheldBounds(s: Store, t: Store, r: Rid)
    requires Unheld(s, r) && OnlyBounds(s, t)
    ensures Unheld(t, r)
  {
    forall id | id in t ensures !Holding(t[id], r) {
      assert SameButBounds(s[id], t[id]) && !Holding(s[id], r);
    }
  }

  /** A limit that passed a check grants nothing withdrawn. */
  lemma KnownGrantsNone(cfg: Config, q: Quota, r: Rid)
    requires r in cfg.withdrawn && Known(cfg, q)
    ensures Q(q, r) == 0
  {
  }

  /** What grants availability r although it is withdrawn: a manager's modified limit for a budget that
      inherits, which nobody checks; the root adopting it; and what providers import. */
  ghost predicate Regrants(s: Store, op: Op, r: Rid) {
    || (op.OpApprove? && op.id in s && s[op.id].kind == Budget && s[op.id].inherits
        && op.approve.modified.Some? && Q(op.approve.modified.value, r) == 1)
    || (op.OpGrantRoot? && op.r == r && ROOT in s)
    || (op.OpReport? && op.report.AddImport? && Q(op.report.limit, r) == 1)
    || (op.OpReport? && op.report.RefreshImport? && Refreshes(s, op.report.id) && Q(op.report.limit, r) == 1)
  }

  /** A provider still says what the import may have. */
  predicate Refreshes(s: Store, id: Id) {
    id in s && s[id].status == Imported && !s[id].side.promote
  }

  lemma UnheldCreate(cfg: Config, s: Store, c: Caller, id: Id, req: CreateRequest, r: Rid)
    requires Unheld(s, r) && r in cfg.withdrawn && Create(cfg, s, c, id, req).Ok?
    ensures Unheld(Create(cfg, s, c, id, req).value, r)
  {
    var n := CreatedNode(cfg, s, c, id, req);
    CreatedPlainly(cfg, s, c, id, req, r);
    UnheldPut(s, id, n, r);
  }

  lemma CreatedPlainly(cfg: Config, s: Store, c: Caller, id: Id, req: CreateRequest, r: Rid)
    requires r in cfg.withdrawn && Create(cfg, s, c, id, req).Ok?
    ensures id in Create(cfg, s, c, id, req).value && !Holding(Create(cfg, s, c, id, req).value[id], r)
  {
    var n := Create(cfg, s, c, id, req).value[id];
    CreatedPolicy(cfg, s, c, id, req);
    assert Q(CreateLimit(cfg, s, req), r) == 0;
    var m := CreatedNode(cfg, s, c, id, req);
  }

  lemma CreatedPolicy(cfg: Config, s: Store, c: Caller, id: Id, req: CreateRequest)
    requires Create(cfg, s, c, id, req).Ok?
    ensures id in Create(cfg, s, c, id, req).value
    ensures Create(cfg, s, c, id, req).value[id].policy.auto == if req.kind == Project then None else req.auto
  {
  }

  lemma UnheldUpdate(cfg: Config, s: Store, c: Caller, id: Id, req: UpdateRequest, r: Rid)
    requires Unheld(s, r) && r in cfg.withdrawn && Update(cfg, s, c, id, req).Ok?
    ensures Unheld(Update(cfg, s, c, id, req).value, r)
  {
    UpdateFacts(cfg, s, c, id, req);
    var e := Edited(s, s[id], Above(s, s[id]), req);
    AutoEditChecked(cfg, s, c, id, req);
    assert !Holding(s[id], r);
    EditedHoldsNone(cfg, s, id, req, r);
    UnheldPut(s, id, e, r);
    OnlyBoundsCarriedDown(Put(s, id, e), id, req, c.now);
    UnheldBounds(Put(s, id, e), CarriedDown(Put(s, id, e), id, req, c.now), r);
  }

  lemma AutoEditChecked(cfg: Config, s: Store, c: Caller, id: Id, req: UpdateRequest)
    requires Update(cfg, s, c, id, req).Ok?
    ensures id in s && AutoEditOk(cfg, s[id], req)
  {
  }

  lemma EditedHoldsNone(cfg: Config, s: Store, id: Id, req: UpdateRequest, r: Rid)
    requires id in s && !Holding(s[id], r) && r in cfg.withdrawn
    requires AutoEditOk(cfg, s[id], req) && LimitEditOk(cfg, s, id, Above(s, s[id]), req)
    ensures !Holding(Edited(s, s[id], Above(s, s[id]), req), r)
  {
    var limit := EditedLimit(s, s[id], Above(s, s[id]), req);
    if limit.Some? { KnownGrantsNone(cfg, limit.value, r); }
  }

  lemma UnheldChange(cfg: Config, s: Store, c: Caller, id: Id, req: ChangeRequest, r: Rid)
    requires Unheld(s, r) && r in cfg.withdrawn && RequestChange(cfg, s, c, id, req).Ok?
    ensures Unheld(RequestChange(cfg, s, c, id, req).value, r)
  {
    var n := ChangedNode(cfg, s, c, id, req);
    assert !Holding(s[id], r);
    if req.limit.Some? { KnownGrantsNone(cfg, req.limit.value, r); }
    UnheldPut(s, id, n, r);
  }

  lemma UnheldApprove(cfg: Config, s: Store, c: Caller, id: Id, req: ApproveRequest, r: Rid)
    requires Unheld(s, r) && r in cfg.withdrawn && Approve(cfg, s, c, id, req).Ok?
        && !Regrants(s, OpApprove(id, req), r)
    ensures Unheld(Approve(cfg, s, c, id, req).value, r)
  {
    ApproveFacts(cfg, s, c, id, req);
    var d := Decided(s, s[id], req, c.now);
    assert !Holding(s[id], r);
    if s[id].kind == Project || !s[id].inherits { KnownGrantsNone(cfg, FinalLimit(s[id], req), r); }
    UnheldPut(s, id, d, r);
    if d.end.Some? {
      OnlyBoundsByCascades(Put(s, id, d), id, d.end.value, 0, c.now);
      UnheldBounds(Put(s, id, d), CascadeEnds(Put(s, id, d), id, d.end.value), r);
    }
  }

  lemma UnheldMove(cfg: Config, s: Store, c: Caller, id: Id, target: Id, r: Rid)
    requires Unheld(s, r) && Move(cfg, s, c, id, target).Ok?
    ensures Unheld(Move(cfg, s, c, id, target).value, r)
  {
    MoveFacts(cfg, s, c, id, target);
    assert !Holding(s[id], r);
    MovedHoldsNone(s, s[id], target, c.now, r);
    UnheldPut(s, id, MovedNode(s, s[id], target, c.now), r);
    var t := MoveWritten(s, id, target, c.now);
    OnlyBoundsCarried(t, id, MoveBound(s, s[id], target, c.now), c.now);
    UnheldBounds(t, MoveCarried(t, id, MoveBound(s, s[id], target, c.now), c.now), r);
  }

  lemma MovedHoldsNone(s: Store, n: Node, target: Id, now: Time, r: Rid)
    requires !Holding(n, r)
    ensures !Holding(MovedNode(s, n, target, now), r)
  {
  }

  lemma UnheldPlain(s: Store, cfg: Config, c: Caller, op: Op, r: Rid)
    requires Unheld(s, r) && OutcomeOf(cfg, s, c, op).Ok?
        && (op.OpReject? || op.OpRelease? || op.OpDelete? || op.OpTransfer?)
    ensures Unheld(Next(cfg, s, c, op), r)
  {
    match op
    case OpReject(id) =>
      assert !Holding(s[id], r);
      UnheldPut(s, id, Refused(s[id]), r);
    case OpRelease(id, d, e) =>
      assert !Holding(s[id], r);
      UnheldPut(s, id, ReleasedNode(s[id], d), r);
    case OpTransfer(id, owner) =>
      assert !Holding(s[id], r);
      UnheldPut(s, id, HandedOver(s[id], owner), r);
    case OpDelete(id) =>
  }

  lemma UnheldAllocate(cfg: Config, s: Store, c: Caller, id: Id, b: Id, amount: Quota, r: Rid)
    requires Unheld(s, r) && r in cfg.withdrawn && Allocate(cfg, s, c, id, b, amount).Ok?
    ensures Unheld(Allocate(cfg, s, c, id, b, amount).value, r)
  {
    AllocateFacts(cfg, s, c, id, b, amount);
    KnownGrantsNone(cfg, NonZero(amount), r);
    assert !Holding(s[id], r);
    WithoutFrom(s[id].allocations, b);
    UnheldPut(s, id, Allocated(s[id], b, NonZero(amount)), r);
  }

  lemma UnheldPromote(cfg: Config, s: Store, c: Caller, id: Id, req: PromoteRequest, r: Rid)
    requires Unheld(s, r) && r in cfg.withdrawn && Promote(cfg, s, c, id, req).Ok?
    ensures Unheld(Promote(cfg, s, c, id, req).value, r)
  {
    PromoteFacts(cfg, s, c, id, req);
    PromotionKnown(cfg, s, c, id, req);
    KnownGrantsNone(cfg, PromotedLimit(s[id], req), r);
    assert !Holding(s[id], r);
    UnheldPut(s, id, PromotedNode(s, s[id], req, c.now), r);
  }

  lemma PromotionKnown(cfg: Config, s: Store, c: Caller, id: Id, req: PromoteRequest)
    requires Promote(cfg, s, c, id, req).Ok?
    ensures id in s && ValidLeafLimit(cfg, PromotedLimit(s[id], req))
  {
  }

  lemma UnheldRewrite(s: Store, w: Rewrite, r: Rid)
    requires Unheld(s, r)
    ensures Unheld(RewriteAll(s, w), r)
  {
    var t := RewriteAll(s, w);
    forall id | id in t ensures !Holding(t[id], r) {
      assert !Holding(s[id], r);
      HoldingStored(s[id], r);
      HoldingStored(t[id], r);
      forall q | Stores(t[id], q) ensures Q(q, r) != 1 {
        StoredRewritten(w, s[id], q);
      }
    }
  }

  lemma UnheldReport(s: Store, w: Report, r: Rid)
    requires Unheld(s, r) && !Regrants(s, OpReport(w), r)
    ensures Unheld(ApplyReport(s, w), r)
  {
    if w.AddImport? {
      UnheldPut(s, w.id, ImportedNode(w.limit, w.members), r);
    } else if w.id in s && Reported(s[w.id], w).Some? {
      assert !Holding(s[w.id], r);
      ReportedHoldsNone(s, w, r);
      UnheldPut(s, w.id, Reported(s[w.id], w).value, r);
    }
  }

  lemma ReportedHoldsNone(s: Store, w: Report, r: Rid)
    requires w.id in s && !Holding(s[w.id], r) && !Regrants(s, OpReport(w), r) && Reported(s[w.id], w).Some?
    ensures !Holding(Reported(s[w.id], w).value, r)
  {
  }

  /** Nothing that is withdrawn and held by nobody is granted again, but for what Regrants names. */
  lemma UnheldNext(cfg: Config, s: Store, c: Caller, op: Op, r: Rid)
    requires Unheld(s, r) && r in cfg.withdrawn && !Regrants(s, op, r)
    ensures Unheld(Next(cfg, s, c, op), r)
  {
    if OutcomeOf(cfg, s, c, op).Ok? {
      if op.OpCreate? { UnheldCreate(cfg, s, c, op.id, op.create, r); }
      else if op.OpUpdate? { UnheldUpdate(cfg, s, c, op.id, op.update, r); }
      else if op.OpChange? { UnheldChange(cfg, s, c, op.id, op.change, r); }
      else if op.OpApprove? { UnheldApprove(cfg, s, c, op.id, op.approve, r); }
      else if op.OpMove? { UnheldMove(cfg, s, c, op.id, op.target, r); }
      else if op.OpAllocate? { UnheldAllocate(cfg, s, c, op.id, op.budget, op.amount, r); }
      else if op.OpPromote? { UnheldPromote(cfg, s, c, op.id, op.promote, r); }
      else if op.OpRewrite? { UnheldRewrite(s, op.rewrite, r); }
      else if op.OpGrantRoot? { UnheldGrantRoot(s, op.r, r); }
      else if op.OpReport? { UnheldReport(s, op.report, r); }
      else { UnheldPlain(s, cfg, c, op, r); }
    }
  }

  lemma UnheldGrantRoot(s: Store, other: Rid, r: Rid)
    requires Unheld(s, r) && (ROOT in s ==> other != r)
    ensures Unheld(AdoptAvailability(s, other), r)
  {
    if ROOT in s {
      assert !Holding(s[ROOT], r);
      UnheldPut(s, ROOT, s[ROOT].(limit := s[ROOT].limit[other := 1]), r);
    }
  }

  // ── And those do grant it ───────────────────────────────────────────────────

  lemma RegrantedByApproval(cfg: Config, s: Store, c: Caller, id: Id, req: ApproveRequest, r: Rid)
    requires Approve(cfg, s, c, id, req).Ok? && Regrants(s, OpApprove(id, req), r)
    ensures !Unheld(Approve(cfg, s, c, id, req).value, r)
  {
    ApproveFacts(cfg, s, c, id, req);
    var d := Decided(s, s[id], req, c.now);
    var t := Approve(cfg, s, c, id, req).value;
    if d.end.Some? {
      OnlyBoundsByCascades(Put(s, id, d), id, d.end.value, 0, c.now);
      assert SameButBounds(Put(s, id, d)[id], t[id]);
    }
    assert t[id].limit == req.modified.value;
    assert Holding(t[id], r);
  }

  lemma RegrantedByImport(s: Store, w: Report, r: Rid)
    requires Regrants(s, OpReport(w), r)
    ensures !Unheld(ApplyReport(s, w), r)
  {
    var t := ApplyReport(s, w);
    assert w.id in t && t[w.id].limit == w.limit;
    assert Holding(t[w.id], r);
  }

  /** An accepted step grants what is withdrawn and held by nobody exactly if it is one of those. */
  lemma UnheldNextExact(cfg: Config, s: Store, c: Caller, op: Op, r: Rid)
    requires Unheld(s, r) && r in cfg.withdrawn && OutcomeOf(cfg, s, c, op).Ok?
    ensures Unheld(Next(cfg, s, c, op), r) <==> !Regrants(s, op, r)
  {
    if !Regrants(s, op, r) {
      UnheldNext(cfg, s, c, op, r);
    } else if op.OpApprove? {
      RegrantedByApproval(cfg, s, c, op.id, op.approve, r);
    } else if op.OpReport? {
      RegrantedByImport(s, op.report, r);
    } else {
      assert Holding(AdoptAvailability(s, op.r)[ROOT], r);
    }
  }

  ghost function NobodyHolds(r: Rid): Store -> bool {
    t => Unheld(t, r)
  }

  /** An accepted request of that kind. */
  ghost function Regranter(r: Rid): (Store, Event) -> bool {
    (t, e) => Accepted(t, e) && Regrants(t, e.op, r)
  }

  lemma UnheldStep(s: Store, e: Event, r: Rid)
    requires r in e.cfg.withdrawn && Unheld(s, r)
    ensures Unheld(Next(e.cfg, s, e.caller, e.op), r) <==> !Regranter(r)(s, e)
  {
    if Accepted(s, e) { UnheldNextExact(e.cfg, s, e.caller, e.op, r); }
  }

  /** Once withdrawn everywhere, and as long as it is: an availability is held by nobody, all along a run, exactly
      if the run has no such request - whatever was asked for before the withdrawal and is decided after it
      included. */
  lemma WithdrawnForGood(s: Store, run: seq<Event>, r: Rid)
    requires forall e :: e in run ==> r in e.cfg.withdrawn
    ensures var t := RewriteAll(s, Withdraw(r)); Throughout(NobodyHolds(r), t, run) <==> Never(Regranter(r), t, run)
  {
    var t := RewriteAll(s, Withdraw(r));
    WithdrawalLeavesNone(s, r);
    forall k | 0 <= k < |run| ensures ExactAt(NobodyHolds(r), Regranter(r), t, run, k) {
      FinalOn(t, run, k);
      assert run[k] in run;
      if Unheld(Final(t, run[..k]), r) { UnheldStep(Final(t, run[..k]), run[k], r); }
    }
    ThroughoutExact(NobodyHolds(r), Regranter(r), t, run);
  }

  lemma FinalOn(s: Store, run: seq<Event>, k: nat)
    requires k < |run|
    ensures Final(s, run[..k + 1]) == Next(run[k].cfg, Final(s, run[..k]), run[k].caller, run[k].op)
  {
    assert run[..k + 1][..k] == run[..k];
  }
}
