/** What the methods of the service keep, taken together: a service that starts safe and is called in any
    order, with the providers reporting in between, is safe after every call. */
module Assurance {
  import opened Model
  import opened Chains
  import opened Charges
  import opened Rules
  import opened Steps
  import opened Reports
  import opened Runs
  import opened Shape
  import opened Values
  import opened Locality
  import opened Rollup
  import opened Nodes
  import opened Capacity
  import opened Lifetimes
  import opened Safety
  import opened Reachable
  import opened TreeChecks
  import opened TreeService

  // ── Histories stay within the cap ───────────────────────────────────────────

  lemma NeatPut(s: Store, id: Id, n: Node)
    requires Neat(s)
    ensures Neat(Put(s, id, n))
  {
  }

  lemma NeatCascades(s: Store, top: Id, end: Time, days: int, now: Time)
    requires Neat(s)
    ensures Neat(CascadeEnds(s, top, end)) && Neat(CascadeTerms(s, top, days, now))
  {
    forall id | id in s
      ensures CapHistory(CascadeEnds(s, top, end)[id]) == CascadeEnds(s, top, end)[id]
      ensures CapHistory(CascadeTerms(s, top, days, now)[id]) == CascadeTerms(s, top, days, now)[id]
    {
      NeatShortened(s[id], end);
      NeatShortened(s[id], TermEnd(now, days));
      NeatTerm(s[id], days);
    }
  }

  lemma NeatShortened(n: Node, end: Time)
    requires CapHistory(n) == n
    ensures CapHistory(ShortenEnd(n, end)) == ShortenEnd(n, end)
  {
  }

  lemma NeatTerm(n: Node, days: int)
    requires CapHistory(n) == n
    ensures CapHistory(ShortenTerm(n, days)) == ShortenTerm(n, days)
  {
  }

  lemma NeatCarriedDown(s: Store, id: Id, req: UpdateRequest, now: Time)
    requires Neat(s)
    ensures Neat(CarriedDown(s, id, req, now))
  {
    var t := s;
    if !PanicsEarly(req) && req.end.Some? {
      NeatCascades(s, id, req.end.value, 0, now);
      t := CascadeEnds(s, id, req.end.value);
    }
    if !PanicsEarly(req) && req.maxTerm.Some? && !req.clearMaxTerm {
      NeatCascades(t, id, 0, req.maxTerm.value, now);
    }
  }

  lemma NeatCarried(s: Store, id: Id, bound: Option<Time>, now: Time)
    requires id in s && Neat(s)
    ensures Neat(MoveCarried(s, id, bound, now))
  {
    var t := s;
    if s[id].kind == Budget && bound.Some? {
      NeatCascades(s, id, bound.value, 0, now);
      t := CascadeEnds(s, id, bound.value);
    }
    if s[id].kind == Budget && s[id].maxTerm.Some? {
      NeatCascades(t, id, 0, s[id].maxTerm.value, now);
    }
  }

  lemma NeatReport(s: Store, w: Report)
    requires Neat(s)
    ensures Neat(ApplyReport(s, w))
  {
    if w.id in s {
      NeatReported(s[w.id], w);
    }
  }

  lemma NeatReported(n: Node, w: Report)
    requires CapHistory(n) == n
    ensures Reported(n, w).Some? ==> CapHistory(Reported(n, w).value) == Reported(n, w).value
  {
  }

  lemma NeatAsks(cfg: Config, s: Store, c: Caller, op: Op)
    requires OutcomeOf(cfg, s, c, op).Ok? && Asks(op) && Neat(s)
    ensures Neat(Next(cfg, s, c, op))
  {
    match op
    case OpCreate(id, req) =>
      var n := CreatedNode(cfg, s, c, id, req);
      NeatPut(s, id, n);
    case OpChange(id, req) =>
      var n := ChangedNode(cfg, s, c, id, req);
      NeatPut(s, id, n);
    case OpUpdate(id, req) =>
      UpdateFacts(cfg, s, c, id, req);
      var t := Put(s, id, Edited(s, s[id], Above(s, s[id]), req));
      NeatCarriedDown(t, id, req, c.now);
  }

  lemma NeatDecides(cfg: Config, s: Store, c: Caller, op: Op)
    requires OutcomeOf(cfg, s, c, op).Ok? && Decides(op) && Neat(s)
    ensures Neat(Next(cfg, s, c, op))
  {
    match op
    case OpReject(id) => NeatPut(s, id, Refused(s[id]));
    case OpRelease(id, d, e) => NeatPut(s, id, ReleasedNode(s[id], d));
    case OpDelete(id) =>
    case OpApprove(id, req) =>
      ApproveFacts(cfg, s, c, id, req);
      NeatPut(s, id, Decided(s, s[id], req, c.now));
      var end := FinalEnd(s, s[id], c.now);
      if end.Some? { NeatCascades(Put(s, id, Decided(s, s[id], req, c.now)), id, end.value, 0, c.now); }
  }

  lemma NeatMoves(cfg: Config, s: Store, c: Caller, op: Op)
    requires OutcomeOf(cfg, s, c, op).Ok? && (Moves(op) || Draws(op)) && Neat(s)
    ensures Neat(Next(cfg, s, c, op))
  {
    match op
    case OpTransfer(id, owner) => NeatPut(s, id, HandedOver(s[id], owner));
    case OpMove(id, target) =>
      MoveFacts(cfg, s, c, id, target);
      NeatPut(s, id, MovedNode(s, s[id], target, c.now));
      NeatCarried(MoveWritten(s, id, target, c.now), id, MoveBound(s, s[id], target, c.now), c.now);
    case OpPromote(id, req) =>
      PromoteFacts(cfg, s, c, id, req);
      NeatPut(s, id, PromotedNode(s, s[id], req, c.now));
    case OpAllocate(id, b, q) =>
      AllocateFacts(cfg, s, c, id, b, q);
      NeatPut(s, id, Allocated(s[id], b, NonZero(q)));
  }

  /** No step leaves a history longer than the store keeps. */
  lemma NeatNext(cfg: Config, s: Store, c: Caller, op: Op)
    requires Neat(s)
    ensures Neat(Next(cfg, s, c, op))
  {
    if OutcomeOf(cfg, s, c, op).Ok? {
      if Asks(op) { NeatAsks(cfg, s, c, op); }
      else if Decides(op) { NeatDecides(cfg, s, c, op); }
      else if Moves(op) || Draws(op) { NeatMoves(cfg, s, c, op); }
      else if op.OpReport? { NeatReport(s, op.report); }
    }
  }

  // ── Calls ───────────────────────────────────────────────────────────────────

  /** Where only active projects are charged, the amounts the rollup sums are those a 64-bit int holds. */
  lemma BilledWhenOff(cfg: Config, s: Store)
    requires Off(cfg) && Sane(cfg, s)
    ensures Billed(cfg, s)
  {
    forall id | id in s && s[id].kind == Project && ChargedStatus(cfg.acc, s[id].status) ensures Billable(cfg, s[id]) {
      assert SaneNode(cfg, s[id]);
    }
  }

  /** What every call of the service needs and leaves behind. */
  ghost predicate Secure(cfg: Config, s: Store) {
    Off(cfg) && Safe(cfg, s) && Neat(s) && Billed(cfg, s)
  }

  lemma SecureNext(cfg: Config, s: Store, c: Caller, op: Op)
    requires Secure(cfg, s) && Enabled(cfg, s, op) && Careful(s, op)
    ensures Secure(cfg, Next(cfg, s, c, op))
  {
    SafeNext(cfg, s, c, op);
    NeatNext(cfg, s, c, op);
    BilledWhenOff(cfg, Next(cfg, s, c, op));
  }

  lemma BootstrapSecure(cfg: Config, admins: set<Token>)
    requires Off(cfg)
    ensures Secure(cfg, Bootstrapped(cfg, admins))
  {
    BootstrapSafe(cfg, admins);
    BilledWhenOff(cfg, Bootstrapped(cfg, admins));
    assert |ROOT| != |UNASSIGNED|;
  }

  /** A call, whichever it is, does what the step says and nothing else: either it is accepted and the
      store is the next one, or it is refused and the store is as it was. */
  method Perform(service: Service, c: Caller, op: Op) returns (err: Option<Error>)
    requires service.Valid() && Secure(service.cfg, service.S()) && Enabled(service.cfg, service.S(), op)
    modifies service.nodes
    ensures service.nodes.Valid() && service.S() == Next(service.cfg, old(service.S()), c, op)
    ensures Did(old(service.S()), service.S(), err, OutcomeOf(service.cfg, old(service.S()), c, op))
  {
    if Asks(op) || Decides(op) {
      err := PerformRequest(service, c, op);
    } else if Moves(op) || Draws(op) {
      err := PerformTransfer(service, c, op);
    } else {
      err := None;
      match op
      case OpRewrite(w) => var changed := service.RewriteEverything(w);
      case OpGrantRoot(r) => service.GrantRoot(r);
      case OpReport(w) => service.Record(w);
    }
  }

  method PerformRequest(service: Service, c: Caller, op: Op) returns (err: Option<Error>)
    requires service.Valid() && Billed(service.cfg, service.S()) && Enabled(service.cfg, service.S(), op)
    requires Asks(op) || Decides(op)
    modifies service.nodes
    ensures service.nodes.Valid()
    ensures Did(old(service.S()), service.S(), err, OutcomeOf(service.cfg, old(service.S()), c, op))
  {
    match op
    case OpCreate(id, req) => err := service.CreateNode(c, id, req);
    case OpUpdate(id, req) => var panicked; err, panicked := service.UpdateNode(c, id, req);
    case OpChange(id, req) => err := service.RequestChangeOf(c, id, req);
    case OpApprove(id, req) => err := service.ApproveNode(c, id, req);
    case OpReject(id) => err := service.RejectNode(c, id);
    case OpRelease(id, delete, deletable) => err := service.ReleaseNode(c, id, delete, deletable);
    case OpDelete(id) => err := service.DeleteNode(c, id);
  }

  method PerformTransfer(service: Service, c: Caller, op: Op) returns (err: Option<Error>)
    requires service.Valid() && Billed(service.cfg, service.S())
    requires Moves(op) || Draws(op)
    modifies service.nodes
    ensures service.nodes.Valid()
    ensures Did(old(service.S()), service.S(), err, OutcomeOf(service.cfg, old(service.S()), c, op))
  {
    match op
    case OpMove(id, target) => err := service.ReparentNode(c, id, target);
    case OpTransfer(id, owner) => err := service.TransferOwner(c, id, owner);
    case OpPromote(id, req) => err := service.PromoteNode(c, id, req);
    case OpAllocate(id, b, amount) => err := service.SetAllocation(c, id, b, amount);
  }

  /** Served any sequence of calls that allocates to active projects only, the service ends in the state
      of the run, and within every limit. */
  method Serve(service: Service, run: seq<Event>)
    requires service.Wired() && service.nodes.Valid() && Secure(service.cfg, service.S())
    requires Legal(service.cfg, service.S(), run, Careful)
    requires forall e :: e in run ==> e.cfg == service.cfg
    modifies service.nodes
    ensures service.nodes.Valid() && service.S() == Final(old(service.S()), run)
    ensures Secure(service.cfg, service.S())
  {
    ghost var s := service.S();
    for i := 0 to |run|
      invariant service.nodes.Valid() && service.S() == Final(s, run[..i])
      invariant Secure(service.cfg, service.S())
    {
      SecureSoFar(service.cfg, s, run, i);
      var err := Perform(service, run[i].caller, run[i].op);
    }
    assert run[..|run|] == run;
  }

  lemma SecureSoFar(cfg: Config, s: Store, run: seq<Event>, i: nat)
    requires Legal(cfg, s, run, Careful) && i < |run| && run[i].cfg == cfg && Secure(cfg, Final(s, run[..i]))
    ensures Enabled(cfg, Final(s, run[..i]), run[i].op)
    ensures Final(s, run[..i + 1]) == Next(cfg, Final(s, run[..i]), run[i].caller, run[i].op)
    ensures Secure(cfg, Final(s, run[..i + 1]))
  {
    LegalAt(cfg, s, run, Careful, i);
    SecureNext(cfg, Final(s, run[..i]), run[i].caller, run[i].op);
  }
}
