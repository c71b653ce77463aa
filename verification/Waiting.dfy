/** What goes wrong, and exactly when, where a request that still waits draws from above: nobody is
    charged for it until it is approved, and approval looks at its own limit only
    (internal/core/tree/op_allocations.go, op_lifecycle.go, calc_rollup.go). */
module Waiting {
  import opened Model
  import opened Chains
  import opened Charges
  import opened Rules
  import opened Steps
  import opened Shape
  import opened Values
  import opened Sources
  import opened Locality
  import opened Capacity
  import opened CapacityTree
  import opened Availabilities

  /** Whatever a waiting project draws, no budget is charged for it. */
  lemma WaitingDrawsFree(cfg: Config, s: Store, c: Caller, id: Id, from: Id, amount: Quota, b: Id, r: Rid)
    requires Off(cfg) && Shaped(s) && Allocate(cfg, s, c, id, from, amount).Ok? && s[id].status == Pending
    ensures Usage(cfg, Allocate(cfg, s, c, id, from, amount).value, b, r) == Usage(cfg, s, b, r)
  {
    AllocateFacts(cfg, s, c, id, from, amount);
    var m := Allocated(s[id], from, NonZero(amount));
    assert Hangs(s, s[id]);
    InPlaceBudgets(s, Put(s, id, m));
    LoadOf(cfg, Budgets(s), s[id], b, r);
    LoadOf(cfg, Budgets(s), m, b, r);
    UsagePut(cfg, s, id, m, b, r);
  }

  /** Every budget with a limit of its own has room for what the project is granted and for what it draws
      already. */
  ghost predicate FitsWithDraws(cfg: Config, s: Store, n: Node, limit: Quota) {
    forall b, r :: b in s && s[b].kind == Budget && r in cfg.counts ==> FitsAt(cfg, s, n, limit, b, r)
  }

  ghost predicate FitsAt(cfg: Config, s: Store, n: Node, limit: Quota, b: Id, r: Rid)
    requires b in s
  {
    s[b].inherits || Q(s[b].limit, r) == UNLIMITED
    || Usage(cfg, s, b, r) + (if b in Above(s, n) then Q(limit, r) else 0)
       + AllocationCharge(Budgets(s), n.allocations, b, r)
       <= Q(s[b].limit, r)
  }

  /** An accepted approval of a waiting project keeps every budget within its limit exactly when there is
      room for its limit and its allocations together. Approval itself checks the limit alone. */
  lemma ApproveExact(cfg: Config, s: Store, c: Caller, id: Id, req: ApproveRequest)
    requires Off(cfg) && Shaped(s) && Sane(cfg, s) && Bounded(cfg, s)
    requires Approve(cfg, s, c, id, req).Ok? && s[id].kind == Project && s[id].status == Pending
    ensures Bounded(cfg, Approve(cfg, s, c, id, req).value) <==> FitsWithDraws(cfg, s, s[id], FinalLimit(s[id], req))
  {
    ApproveFacts(cfg, s, c, id, req);
    var d := Decided(s, s[id], req, c.now);
    var t := Put(s, id, d);
    InPlaceBudgets(s, t);
    forall b, r | b in s && s[b].kind == Budget && r in cfg.counts
      ensures Within(cfg, t, b, r) <==> FitsAt(cfg, s, s[id], FinalLimit(s[id], req), b, r)
    {
      ApprovedUsage(cfg, s, id, req, c.now, b, r);
      assert b in Budgets(t) && t[b].limit == s[b].limit && t[b].inherits == s[b].inherits;
    }
    BoundedAlike(cfg, s, t, s[id], FinalLimit(s[id], req));
  }

  lemma BoundedAlike(cfg: Config, s: Store, t: Store, n: Node, limit: Quota)
    requires Budgets(t) == Budgets(s)
    requires forall b, r :: b in s && s[b].kind == Budget && r in cfg.counts ==>
      b in t && (Within(cfg, t, b, r) <==> FitsAt(cfg, s, n, limit, b, r))
    ensures Bounded(cfg, t) <==> FitsWithDraws(cfg, s, n, limit)
  {
    forall b | b in t && t[b].kind == Budget ensures b in s && s[b].kind == Budget { assert b in Budgets(t); }
    forall b | b in s && s[b].kind == Budget ensures b in t && t[b].kind == Budget { assert b in Budgets(s); }
  }

  lemma ApprovedUsage(cfg: Config, s: Store, id: Id, req: ApproveRequest, now: Time, b: Id, r: Rid)
    requires Off(cfg) && Shaped(s) && id in s && s[id].kind == Project && s[id].status == Pending
    ensures Usage(cfg, Put(s, id, Decided(s, s[id], req, now)), b, r)
            == Usage(cfg, s, b, r) + (if b in Above(s, s[id]) then Q(FinalLimit(s[id], req), r) else 0)
               + AllocationCharge(Budgets(s), s[id].allocations, b, r)
  {
    var d := Decided(s, s[id], req, now);
    assert Hangs(s, s[id]);
    InPlaceBudgets(s, Put(s, id, d));
    LoadOf(cfg, Budgets(s), s[id], b, r);
    LoadOf(cfg, Budgets(s), d, b, r);
    UsagePut(cfg, s, id, d, b, r);
  }

  // ── A case of two requests ──────────────────────────────────────────────────

  const CORES: Rid := "cores"

  const CORES_ONLY := Config([CORES], [], {}, map[], {}, map[], {}, ALL_OFF)

  const TEN: Quota := map[CORES := 10]
  const FIVE: Quota := map[CORES := 5]

  /** A request for five cores waits under a team's budget of ten. */
  const WAITING: Store := map[
    ROOT := PlainBudget(None, map[CORES := UNLIMITED], false),
    UNASSIGNED := PlainBudget(Some(ROOT), map[], false),
    "team" := PlainBudget(Some(ROOT), TEN, false),
    "group" := PlainBudget(Some("team"), TEN, false),
    "project" := Node(Project, Some("group"), Pending, FIVE, false, [], None, None, None, "owner", {},
                      Policy({}, {}, None, true, true, true, NO_HOUSE), Log(1, 0), NO_SIDE)]

  lemma WaitingChains()
    ensures Chain(Budgets(WAITING), "group") == ["group", "team", ROOT]
    ensures Chain(Budgets(WAITING), "team") == ["team", ROOT]
  {
    var c := ["group", "team", ROOT];
    assert IsChain(Budgets(WAITING), c);
    ChainIs(Budgets(WAITING), c);
    ChainSuffix(Budgets(WAITING), "group", 1);
  }

  predicate Idle(n: Node) {
    n.kind == Budget || !Active(n.status)
  }

  lemma NobodyActive(s: Store, b: Id)
    requires forall x :: x in s ==> Idle(s[x])
    ensures Usage(CORES_ONLY, s, b, CORES) == 0
  {
    TotalZero(s, Below(CORES_ONLY, Budgets(s), Budgets(s).Keys, None, b, CORES));
  }

  /** The project draws all ten cores of the team while it waits. */
  lemma WaitingAllocated(c: Caller)
    requires "admin" in c.tokens
    ensures Allocate(CORES_ONLY, WAITING, c, "project", "team", TEN)
            == Ok(Put(WAITING, "project", Allocated(WAITING["project"], "team", TEN)))
  {
    WaitingProject();
    WaitingRaised(c);
    AcceptedAllocation(CORES_ONLY, WAITING, c, "project", "team", TEN);
  }

  lemma WaitingProject()
    ensures "project" in WAITING && WAITING["project"].kind == Project && Live(WAITING["project"].status)
    ensures "team" in Above(WAITING, WAITING["project"]) && Above(WAITING, WAITING["project"])[0] == "group"
    ensures HeldFrom(WAITING["project"].allocations, "team") == map[]
    ensures NonZero(TEN) == TEN && TEN != map[] && Q(TEN, CORES) == 10
  {
    WaitingChains();
    assert Chain(Budgets(WAITING), "group")[1] == "team";
    assert CORES in TEN;
  }

  lemma WaitingRaised(c: Caller)
    requires "admin" in c.tokens
    ensures AllocationError(CORES_ONLY, WAITING, c, WAITING["project"], "team", TEN, map[]).None?
  {
    WaitingChains();
    var from := Chain(Budgets(WAITING), "team");
    assert "admin" in WAITING["team"].policy.admins * c.tokens && from[0] == "team";
    assert ManagesChain(WAITING, c.tokens, from);
    TeamHasRoom(WAITING);
    assert Binding(WAITING, from) == Some("team");
  }

  /** While nobody uses it, the team has room for all it has. */
  lemma TeamHasRoom(s: Store)
    requires Budgets(s) == Budgets(WAITING) && "team" in s && ROOT in s
    requires s["team"] == WAITING["team"] && s[ROOT] == WAITING[ROOT] && forall x :: x in s ==> Idle(s[x])
    ensures HasRoom(CORES_ONLY, s, Chain(Budgets(s), "team"), TEN, map[])
  {
    WaitingChains();
    NobodyActive(s, "team");
    NobodyActive(s, ROOT);
  }

  /** The same request once it draws. */
  function Drawing(): Node {
    CapHistory(Allocated(WAITING["project"], "team", TEN))
  }

  lemma DrawingIs()
    ensures Drawing() == WAITING["project"].(allocations := [Allocation("team", TEN)], log := Log(2, 0))
    ensures Budgets(WAITING["project" := Drawing()]) == Budgets(WAITING)
  {
    assert WAITING["project"].allocations == [];
    assert TEN != map[] by { assert CORES in TEN; }
  }

  lemma DrawingUnused(b: Id)
    ensures Usage(CORES_ONLY, WAITING["project" := Drawing()], b, CORES) == 0
  {
    DrawingIs();
    NobodyActive(WAITING["project" := Drawing()], b);
  }

  /** Its approval is accepted: five cores fit the team, whose ten nobody uses yet. */
  lemma DrawingApproved(c: Caller)
    requires "admin" in c.tokens
    ensures var s := WAITING["project" := Drawing()];
            Approve(CORES_ONLY, s, c, "project", ApproveRequest(Some(2), None)).Ok?
  {
    var s, n := WAITING["project" := Drawing()], Drawing();
    DrawingIs();
    WaitingChains();
    var chain := Above(s, n);
    assert chain == ["group", "team", ROOT] && chain[0] == "group";
    assert "admin" in s["group"].policy.admins * c.tokens;
    assert ManagesAbove(s, c.tokens, n);
    DrawingGrantable();
  }

  lemma DrawingGrantable()
    ensures "project" in WAITING["project" := Drawing()]
    ensures GrantOk(CORES_ONLY, WAITING["project" := Drawing()], "project", FIVE)
  {
    var s := WAITING["project" := Drawing()];
    DrawingIs();
    WaitingChains();
    DrawingUnused("group");
    DrawingUnused("team");
    DrawingUnused(ROOT);
    var chain := Chain(Budgets(s), "group");
    assert HasRoom(CORES_ONLY, s, chain, FIVE, map[]);
    assert Binding(s, chain) == Some("group");
  }

  /** Two accepted operations, and a team of ten cores carries fifteen. */
  lemma TeamOverrun(c: Caller)
    requires "admin" in c.tokens
    ensures var o := Allocate(CORES_ONLY, WAITING, c, "project", "team", TEN);
            && o.Ok?
            && var p := Approve(CORES_ONLY, o.value, c, "project", ApproveRequest(Some(2), None));
               && p.Ok? && "team" in p.value && Q(p.value["team"].limit, CORES) == 10
               && Usage(CORES_ONLY, p.value, "team", CORES) == 15
  {
    WaitingAllocated(c);
    DrawingApproved(c);
    DrawnCharge(c);
  }

  lemma DrawnCharge(c: Caller)
    requires Approve(CORES_ONLY, WAITING["project" := Drawing()], c, "project", ApproveRequest(Some(2), None)).Ok?
    ensures var s, req := WAITING["project" := Drawing()], ApproveRequest(Some(2), None);
            var t := Approve(CORES_ONLY, s, c, "project", req).value;
            "team" in t && Q(t["team"].limit, CORES) == 10 && Usage(CORES_ONLY, t, "team", CORES) == 15
  {
    var s, req := WAITING["project" := Drawing()], ApproveRequest(Some(2), None);
    ApproveFacts(CORES_ONLY, s, c, "project", req);
    var d := Decided(s, s["project"], req, c.now);
    DrawingIs();
    WaitingChains();
    DrawingUnused("team");
    InPlaceBudgets(s, Put(s, "project", d));
    UsagePut(CORES_ONLY, s, "project", d, "team", CORES);
    LoadOf(CORES_ONLY, Budgets(s), s["project"], "team", CORES);
    LoadOf(CORES_ONLY, Budgets(s), d, "team", CORES);
    assert d.allocations[..0] == [];
    assert AllocationCharge(Budgets(s), [], "team", CORES) == 0;
    assert "team" in Chain(Budgets(s), "team") && "team" in Chain(Budgets(s), "group");
  }
}
