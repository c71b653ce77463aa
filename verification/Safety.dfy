/** Capacity safety over every run from a bootstrapped store. */
module Safety {
  import opened Model
  import opened Chains
  import opened Charges
  import opened Rules
  import opened Steps
  import opened Reports
  import opened Runs
  import opened Shape
  import opened Values
  import opened Sources
  import opened Locality
  import opened Capacity
  import opened CapacityTree

  /** Allocations go to projects whose limit is in force. The code also takes them for requests that
      still wait (see ApproveExact for what then goes wrong). */
  predicate Careful(s: Store, op: Op) {
    op.OpAllocate? && op.id in s ==> Active(s[op.id].status)
  }

  lemma BoundedNext(cfg: Config, s: Store, c: Caller, op: Op)
    requires Off(cfg) && Safe(cfg, s) && Enabled(cfg, s, op)
    ensures Bounded(cfg, Next(cfg, s, c, op))
  {
    if OutcomeOf(cfg, s, c, op).Ok? {
      match op
      case OpCreate(id, req) =>
        if req.kind == Project { BoundedCreateProject(cfg, s, c, id, req); }
        else { BoundedCreateBudget(cfg, s, c, id, req); }
      case OpUpdate(id, req) => BoundedUpdate(cfg, s, c, id, req);
      case OpChange(id, req) => BoundedChange(cfg, s, c, id, req);
      case OpApprove(id, req) =>
        if s[id].kind == Project { BoundedApproveProject(cfg, s, c, id, req); }
        else { BoundedApproveBudget(cfg, s, c, id, req); }
      case OpReject(id) => BoundedReject(cfg, s, c, id);
      case OpRelease(id, d, e) => BoundedRelease(cfg, s, c, id, d, e);
      case OpDelete(id) => BoundedDelete(cfg, s, c, id);
      case OpMove(id, target) => BoundedMove(cfg, s, c, id, target);
      case OpTransfer(id, owner) => BoundedTransfer(cfg, s, c, id, owner);
      case OpPromote(id, req) => BoundedPromote(cfg, s, c, id, req);
      case OpAllocate(id, b, q) => BoundedAllocate(cfg, s, c, id, b, q);
      case OpRewrite(w) => BoundedRewrite(cfg, s, w);
      case OpGrantRoot(r) => BoundedGrantRoot(cfg, s, r);
      case OpReport(w) => BoundedReport(cfg, s, w);
    }
  }

  // ── Requests that wait draw nothing ─────────────────────────────────────────

  predicate Plain(n: Node) {
    n.status == Pending ==> n.allocations == []
  }

  lemma PlainSame(s: Store, t: Store)
    requires PlainRequests(s) && t.Keys <= s.Keys && forall id :: id in t ==> SameHoldings(s[id], t[id])
    ensures PlainRequests(t)
  {
  }

  lemma PlainCascade(s: Store, top: Id, end: Time, days: int, now: Time)
    requires PlainRequests(s)
    ensures PlainRequests(CascadeEnds(s, top, end)) && PlainRequests(CascadeTerms(s, top, days, now))
  {
    CascadeEndsHoldings(s, top, end);
    CascadeTermsHoldings(s, top, days, now);
    PlainSame(s, CascadeEnds(s, top, end));
    PlainSame(s, CascadeTerms(s, top, days, now));
  }

  lemma PlainUpdate(cfg: Config, s: Store, c: Caller, id: Id, req: UpdateRequest)
    requires PlainRequests(s) && Update(cfg, s, c, id, req).Ok?
    ensures PlainRequests(Update(cfg, s, c, id, req).value)
  {
    var e := Edited(s, s[id], Above(s, s[id]), req);
    PlainPut(s, id, e);
    CarriedDownHoldings(Put(s, id, e), id, req, c.now);
    PlainSame(Put(s, id, e), CarriedDown(Put(s, id, e), id, req, c.now));
  }

  lemma PlainChange(cfg: Config, s: Store, c: Caller, id: Id, req: ChangeRequest)
    requires PlainRequests(s) && RequestChange(cfg, s, c, id, req).Ok?
    ensures PlainRequests(RequestChange(cfg, s, c, id, req).value)
  {
    var n := ChangedNode(cfg, s, c, id, req);
    PlainPut(s, id, n);
  }

  lemma PlainApprove(cfg: Config, s: Store, c: Caller, id: Id, req: ApproveRequest)
    requires PlainRequests(s) && Approve(cfg, s, c, id, req).Ok?
    ensures PlainRequests(Approve(cfg, s, c, id, req).value)
  {
    var d := Decided(s, s[id], req, c.now);
    PlainPut(s, id, d);
    if FinalEnd(s, s[id], c.now).Some? {
      PlainCascade(Put(s, id, d), id, FinalEnd(s, s[id], c.now).value, 0, c.now);
    }
  }

  lemma PlainMove(cfg: Config, s: Store, c: Caller, id: Id, target: Id)
    requires PlainRequests(s) && Move(cfg, s, c, id, target).Ok?
    ensures PlainRequests(Move(cfg, s, c, id, target).value)
  {
    MoveFacts(cfg, s, c, id, target);
    MovedNodeKeeps(s, s[id], target, c.now);
    PlainPut(s, id, MovedNode(s, s[id], target, c.now));
    var t := MoveWritten(s, id, target, c.now);
    CarriedHoldings(t, id, MoveBound(s, s[id], target, c.now), c.now);
    PlainSame(t, Move(cfg, s, c, id, target).value);
  }

  lemma PlainReport(cfg: Config, s: Store, w: Report)
    requires PlainRequests(s) && Sane(cfg, s)
    ensures PlainRequests(ApplyReport(s, w))
  {
    if !w.AddImport? && w.id in s && Reported(s[w.id], w).Some? {
      assert SaneNode(cfg, s[w.id]);
      ReportedPlain(cfg, s[w.id], w);
      PlainPut(s, w.id, Reported(s[w.id], w).value);
    }
  }

  lemma ReportedPlain(cfg: Config, n: Node, w: Report)
    requires SaneNode(cfg, n) && Plain(n) && Reported(n, w).Some?
    ensures Plain(Reported(n, w).value)
  {
  }

  lemma PlainTransfer(s: Store, c: Caller, id: Id, owner: Token)
    requires PlainRequests(s) && Transfer(s, c, id, owner).Ok?
    ensures PlainRequests(Transfer(s, c, id, owner).value)
  {
    PlainPut(s, id, HandedOver(s[id], owner));
  }

  lemma PlainCreate(cfg: Config, s: Store, c: Caller, id: Id, req: CreateRequest)
    requires PlainRequests(s) && Create(cfg, s, c, id, req).Ok?
    ensures PlainRequests(Create(cfg, s, c, id, req).value)
  {
    var n := CreatedNode(cfg, s, c, id, req);
    PlainPut(s, id, n);
  }

  lemma PlainRewrite(s: Store, w: Rewrite)
    requires PlainRequests(s)
    ensures PlainRequests(RewriteAll(s, w))
  {
  }

  lemma PlainNext(cfg: Config, s: Store, c: Caller, op: Op)
    requires Sane(cfg, s) && PlainRequests(s) && Enabled(cfg, s, op) && Careful(s, op)
    ensures PlainRequests(Next(cfg, s, c, op))
  {
    if OutcomeOf(cfg, s, c, op).Ok? {
      match op
      case OpCreate(id, req) => PlainCreate(cfg, s, c, id, req);
      case OpUpdate(id, req) => PlainUpdate(cfg, s, c, id, req);
      case OpChange(id, req) => PlainChange(cfg, s, c, id, req);
      case OpApprove(id, req) => PlainApprove(cfg, s, c, id, req);
      case OpReject(id) => PlainPut(s, id, Refused(s[id]));
      case OpRelease(id, d, e) => PlainPut(s, id, ReleasedNode(s[id], d));
      case OpDelete(id) =>
      case OpMove(id, target) => PlainMove(cfg, s, c, id, target);
      case OpTransfer(id, owner) => PlainTransfer(s, c, id, owner);
      case OpPromote(id, req) =>
        PromoteFacts(cfg, s, c, id, req);
        PlainPut(s, id, PromotedNode(s, s[id], req, c.now));
      case OpAllocate(id, b, q) => PlainPut(s, id, Allocated(s[id], b, NonZero(q)));
      case OpRewrite(w) => PlainRewrite(s, w);
      case OpGrantRoot(r) => if ROOT in s { PlainPut(s, ROOT, Next(cfg, s, c, op)[ROOT]); }
      case OpReport(w) => PlainReport(cfg, s, w);
    }
  }

  /** Every step keeps every budget within its limit. */
  lemma SafeNext(cfg: Config, s: Store, c: Caller, op: Op)
    requires Off(cfg) && Safe(cfg, s) && Enabled(cfg, s, op) && Careful(s, op)
    ensures Safe(cfg, Next(cfg, s, c, op))
  {
    ShapeNext(cfg, s, c, op);
    SaneNext(cfg, s, c, op);
    SourcedNext(cfg, s, c, op);
    PlainNext(cfg, s, c, op);
    BoundedNext(cfg, s, c, op);
  }

  // ── Runs ────────────────────────────────────────────────────────────────────

  /** One operation of a run, with the catalogue as it is then. */
  datatype Event = Event(cfg: Config, caller: Caller, op: Op)

  /** The same kinds of resources; what is withdrawn, at most allowed or on by default may differ. */
  predicate SameKinds(cfg: Config, other: Config) {
    other.counts == cfg.counts && other.bools == cfg.bools && other.acc == cfg.acc
  }

  ghost function Final(s: Store, run: seq<Event>): Store {
    if run == [] then s
    else
      var e := run[|run| - 1];
      Next(e.cfg, Final(s, run[..|run| - 1]), e.caller, e.op)
  }

  /** A run of the deployment cfg: identifiers are new where nodes are, and step further restricts
      the operations. */
  ghost predicate Legal(cfg: Config, s: Store, run: seq<Event>, step: (Store, Op) -> bool) {
    run == [] ||
    var e, t := run[|run| - 1], Final(s, run[..|run| - 1]);
    && Legal(cfg, s, run[..|run| - 1], step)
    && SameKinds(cfg, e.cfg) && Enabled(e.cfg, t, e.op) && step(t, e.op)
  }

  /** What is safe under one catalogue is under another of the same kinds. */
  lemma SafeElsewhere(cfg: Config, other: Config, s: Store)
    requires Off(cfg) && Safe(cfg, s) && SameKinds(cfg, other)
    ensures Off(other) && Safe(other, s)
  {
    assert Sane(other, s) by {
      forall id | id in s ensures SaneNode(other, s[id]) { assert SaneNode(cfg, s[id]); }
    }
    forall b, r | b in s && s[b].kind == Budget && r in other.counts
      ensures Within(other, s, b, r)
    {
      assert Within(cfg, s, b, r);
      UsageElsewhere(cfg, other, s, b, r);
    }
  }

  lemma UsageElsewhere(cfg: Config, other: Config, s: Store, b: Id, r: Rid)
    requires Off(cfg) && Off(other)
    ensures Usage(other, s, b, r) == Usage(cfg, s, b, r)
  {
    var pm := Budgets(s);
    TotalSame(s, Below(other, pm, pm.Keys, None, b, r), s, Below(cfg, pm, pm.Keys, None, b, r));
  }

  /** Capacity safety: in every run that allocates to active projects only, after every operation each
      budget with a limit of its own hands out no more of any quantity than that limit. */
  lemma {:induction false} CapacitySafety(cfg: Config, s: Store, run: seq<Event>)
    requires Off(cfg) && Safe(cfg, s) && Legal(cfg, s, run, Careful)
    ensures Safe(cfg, Final(s, run))
  {
    if run != [] {
      var e, before := run[|run| - 1], run[..|run| - 1];
      CapacitySafety(cfg, s, before);
      SafeElsewhere(cfg, e.cfg, Final(s, before));
      SafeNext(e.cfg, Final(s, before), e.caller, e.op);
      SafeElsewhere(e.cfg, cfg, Final(s, run));
    }
  }

  /** And in every run at all the tree stays a tree. */
  lemma {:induction false} ShapedRun(cfg: Config, s: Store, run: seq<Event>, step: (Store, Op) -> bool)
    requires Shaped(s) && Legal(cfg, s, run, step)
    ensures Shaped(Final(s, run))
  {
    if run != [] {
      var e, before := run[|run| - 1], run[..|run| - 1];
      ShapedRun(cfg, s, before, step);
      ShapeNext(e.cfg, Final(s, before), e.caller, e.op);
    }
  }

  // ── The start ───────────────────────────────────────────────────────────────

  const NOBODY := Policy({}, {}, None, true, true, true, NO_HOUSE)

  /** The two structural nodes of a new deployment: the root holds everything, the collection of
      imports nothing. */
  function RootNode(cfg: Config, admins: set<Token>): Node {
    Node(Budget, None, Approved,
         map r | r in cfg.counts + cfg.bools && (r in cfg.bools ==> r !in cfg.withdrawn)
           :: if r in cfg.bools then 1 else UNLIMITED,
         false, [], None, None, None, "", {}, NOBODY.(admins := admins), Log(0, 0), NO_SIDE)
  }

  function UnassignedNode(cfg: Config): Node {
    Node(Budget, Some(ROOT), Approved, map r | r in cfg.counts + cfg.bools :: 0, false, [], None, None, None, "", {},
         NOBODY, Log(0, 0), NO_SIDE)
  }

  function Bootstrapped(cfg: Config, admins: set<Token>): Store {
    map[ROOT := RootNode(cfg, admins), UNASSIGNED := UnassignedNode(cfg)]
  }

  lemma BootstrapShaped(cfg: Config, admins: set<Token>)
    ensures Shaped(Bootstrapped(cfg, admins))
  {
    var s := Bootstrapped(cfg, admins);
    var pm := Budgets(s);
    assert |ROOT| != |UNASSIGNED|;
    assert pm == map[ROOT := None, UNASSIGNED := Some(ROOT)];
    assert IsChain(pm, [ROOT]);
    assert [ROOT][0] == ROOT;
    assert Rooted(pm, ROOT);
    ConsChain(pm, UNASSIGNED, ROOT);
  }

  lemma BootstrapSafe(cfg: Config, admins: set<Token>)
    requires Off(cfg)
    ensures Safe(cfg, Bootstrapped(cfg, admins))
  {
    var s := Bootstrapped(cfg, admins);
    BootstrapShaped(cfg, admins);
    assert |ROOT| != |UNASSIGNED|;
    assert SaneNode(cfg, s[ROOT]) && SaneNode(cfg, s[UNASSIGNED]);
    forall b, r | b in s && r in cfg.counts
      ensures Usage(cfg, s, b, r) == 0
    {
      TotalZero(s, Below(cfg, Budgets(s), Budgets(s).Keys, None, b, r));
    }
    forall b, r | b in s && s[b].kind == Budget && r in cfg.counts
      ensures Within(cfg, s, b, r)
    {
      assert Usage(cfg, s, b, r) == 0;
    }
  }

  /** From the first start on: what the active projects below a budget hold and draw of a quantity
      never exceeds the budget's own limit of it. */
  lemma NoBudgetOverrun(cfg: Config, admins: set<Token>, run: seq<Event>, b: Id, r: Rid)
    requires Off(cfg) && Legal(cfg, Bootstrapped(cfg, admins), run, Careful)
    requires var s := Final(Bootstrapped(cfg, admins), run);
             b in s && s[b].kind == Budget && !s[b].inherits && r in cfg.counts && Q(s[b].limit, r) != UNLIMITED
    ensures var s := Final(Bootstrapped(cfg, admins), run); Usage(cfg, s, b, r) <= Q(s[b].limit, r)
  {
    BootstrapSafe(cfg, admins);
    CapacitySafety(cfg, Bootstrapped(cfg, admins), run);
    assert Within(cfg, Final(Bootstrapped(cfg, admins), run), b, r);
  }
}
