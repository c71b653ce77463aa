/** Changes of limits that pass their checks and leave something below that would not pass now
    (internal/core/tree/rule_limits.go, op_lifecycle.go, op_move.go). */
module Edges {
  import opened Model
  import opened Chains
  import opened Charges
  import opened Rules
  import opened Steps
  import opened Shape
  import opened Values
  import opened Locality
  import opened Lifetimes
  import opened Availabilities
  import opened Waiting

  const BOTH := Config([CORES], [NET], {}, map[], {}, map[], {}, ALL_OFF)

  const ALL: Quota := map[NET := 1, CORES := UNLIMITED]
  const UPPER: Quota := map[NET := 1, CORES := 10]
  const EIGHT: Quota := map[CORES := 8]

  /** Under one of two budgets, a budget of eight cores and one that inherits; the project in the latter has
      the network. */
  const LIMITS: Store := map[
    ROOT := PlainBudget(None, ALL, false),
    UNASSIGNED := PlainBudget(Some(ROOT), map[], false),
    "upper" := PlainBudget(Some(ROOT), UPPER, false),
    "other" := PlainBudget(Some(ROOT), map[], false),
    "small" := PlainBudget(Some("upper"), EIGHT, false),
    "middle" := PlainBudget(Some("upper"), map[], true),
    "project" := Node(Project, Some("middle"), Approved, ONE_NET, false, [], None, None, None, "owner", {},
                      Policy({}, {}, None, true, true, true, NO_HOUSE), Log(1, 0), NO_SIDE)]

  /** The budgets of it. */
  const TREE: Parents := map[
    ROOT := None, UNASSIGNED := Some(ROOT), "upper" := Some(ROOT), "other" := Some(ROOT),
    "small" := Some("upper"), "middle" := Some("upper")]

  lemma LimitsTree()
    ensures Budgets(LIMITS) == TREE
  {
  }

  lemma LimitsAbove()
    ensures Above(LIMITS, LIMITS["upper"]) == [ROOT] && Above(LIMITS, LIMITS["middle"]) == ["upper", ROOT]
    ensures Above(LIMITS, LIMITS["other"]) == [ROOT] && Chain(Budgets(LIMITS), "other") == ["other", ROOT]
  {
    LimitsChains();
  }

  lemma LimitsChains()
    ensures Chain(Budgets(LIMITS), "middle") == ["middle", "upper", ROOT]
    ensures Chain(Budgets(LIMITS), "upper") == ["upper", ROOT]
    ensures Chain(Budgets(LIMITS), "other") == ["other", ROOT]
    ensures Chain(Budgets(LIMITS), ROOT) == [ROOT]
  {
    LimitsTree();
    var pm := TREE;
    assert IsChain(pm, ["middle", "upper", ROOT]) && IsChain(pm, ["other", ROOT]);
    ChainIs(pm, ["middle", "upper", ROOT]);
    ChainIs(pm, ["other", ROOT]);
    ChainSuffix(pm, "middle", 1);
    ChainSuffix(pm, "middle", 2);
  }

  /** Nobody uses a core. */
  lemma NoCores(b: Id)
    ensures Usage(BOTH, LIMITS, b, CORES) == 0 && LocalUsage(BOTH, LIMITS, b, CORES) == 0
  {
    var pm := Budgets(LIMITS);
    NoCoresIn(Below(BOTH, pm, pm.Keys, None, b, CORES));
    NoCoresIn(Below(BOTH, pm, Subtree(LIMITS, b), None, b, CORES));
  }

  lemma NoCoresIn(m: Meter)
    requires m.Below? && m.cfg == BOTH && m.r == CORES
    ensures Total(LIMITS, m) == 0
  {
    forall x | x in LIMITS ensures LIMITS[x].kind == Budget || LIMITS[x] == LIMITS["project"] {
    }
    assert Q(ONE_NET, CORES) == 0;
    TotalZero(LIMITS, m);
  }

  lemma NoFloor(x: Id, limit: Quota)
    requires Q(limit, CORES) >= 0
    ensures FloorOk(BOTH, LIMITS, x, limit)
  {
    NoCores(x);
  }

  lemma NothingGivenUp(x: Id, limit: Quota)
    requires x in LIMITS && (Q(LIMITS[x].limit, NET) == 1 ==> Q(limit, NET) == 1)
    ensures WithdrawalOk(BOTH, LIMITS, x, limit)
  {
  }

  lemma RootManages(c: Caller, n: Node)
    requires "admin" in c.tokens && ROOT in Above(LIMITS, n)
    ensures ManagesAbove(LIMITS, c.tokens, n)
  {
    assert "admin" in LIMITS[ROOT].policy.admins * c.tokens;
  }

  function LimitEdit(limit: Quota, inherits: Option<bool>): UpdateRequest {
    UpdateRequest(false, None, None, None, false, None, None, None, None, false, Some(limit), None, false, inherits)
  }

  lemma EditAccepted(c: Caller, id: Id, limit: Quota, inherits: Option<bool>)
    requires id in LIMITS && LIMITS[id].kind == Budget && Live(LIMITS[id].status)
    requires ManagesAbove(LIMITS, c.tokens, LIMITS[id])
    requires LimitEditOk(BOTH, LIMITS, id, Above(LIMITS, LIMITS[id]), LimitEdit(limit, inherits))
    ensures var o := Update(BOTH, LIMITS, c, id, LimitEdit(limit, inherits));
            && o.Ok? && o.value.Keys == LIMITS.Keys
            && o.value[id].limit == limit && o.value[id].inherits == Or(inherits, LIMITS[id].inherits)
            && forall x :: x in LIMITS && x != id ==> o.value[x] == LIMITS[x]
  {
  }

  // ── A parent below its child ────────────────────────────────────────────────

  const LOWERED: Quota := map[NET := 1, CORES := 5]

  lemma LoweringOk()
    ensures LimitEditOk(BOTH, LIMITS, "upper", [ROOT], LimitEdit(LOWERED, None))
  {
    NoFloor("upper", LOWERED);
    assert Binding(LIMITS, [ROOT]) == Some(ROOT);
    LoweredFits();
    NothingGivenUp("upper", LOWERED);
  }

  lemma LoweredFits()
    ensures ValidBudgetLimit(BOTH, LOWERED) && ChildFits(BOTH, ALL, LOWERED)
  {
    assert Q(LOWERED, CORES) == 5 && Q(LOWERED, NET) == 1;
  }

  /** A budget is lowered to five cores, and the one below keeps its eight. */
  lemma ParentLowered(c: Caller)
    requires "admin" in c.tokens
    ensures var o := Update(BOTH, LIMITS, c, "upper", LimitEdit(LOWERED, None));
            && o.Ok? && "upper" in o.value && "small" in o.value
            && o.value["small"].parent == Some("upper")
            && Q(o.value["upper"].limit, CORES) == 5 && Q(o.value["small"].limit, CORES) == 8
  {
    UpperLowered(c);
    SmallThere();
  }

  lemma UpperLowered(c: Caller)
    requires "admin" in c.tokens
    ensures var o := Update(BOTH, LIMITS, c, "upper", LimitEdit(LOWERED, None));
            && o.Ok? && o.value.Keys == LIMITS.Keys && o.value["upper"].limit == LOWERED
            && o.value["small"] == LIMITS["small"]
  {
    LimitsAbove();
    RootManages(c, LIMITS["upper"]);
    LoweringOk();
    EditAccepted(c, "upper", LOWERED, None);
  }

  lemma SmallThere()
    ensures "small" in LIMITS && "upper" in LIMITS && LIMITS["small"].parent == Some("upper")
    ensures Q(LIMITS["small"].limit, CORES) == 8 && Q(LOWERED, CORES) == 5
  {
  }

  /** The same asked for by a change request that waits. */
  const ASKED_UPPER := PlainBudget(Some(ROOT), UPPER, false).(
    status := ChangePending, pending := Some(Proposal(Some(LOWERED), None, None)))

  const ASKED: Store := LIMITS["upper" := ASKED_UPPER]

  lemma AskedTree()
    ensures Budgets(ASKED) == TREE && Above(ASKED, ASKED_UPPER) == [ROOT] && ASKED["upper"] == ASKED_UPPER
    ensures "upper" in ASKED && "small" in ASKED && ASKED["small"] == LIMITS["small"] && ROOT in ASKED
    ensures ASKED[ROOT] == LIMITS[ROOT]
  {
    LimitsTree();
    LimitsChains();
  }

  lemma AskedFloor()
    ensures FloorOk(BOTH, ASKED, "upper", LOWERED)
  {
    var m := Below(BOTH, Budgets(ASKED), Subtree(ASKED, "upper"), None, "upper", CORES);
    forall x | x in ASKED ensures ASKED[x].kind == Budget || ASKED[x] == LIMITS["project"] {
    }
    assert Q(ONE_NET, CORES) == 0;
    TotalZero(ASKED, m);
  }

  lemma AskedOk()
    ensures "upper" in ASKED && GrantOk(BOTH, ASKED, "upper", LOWERED)
  {
    AskedTree();
    AskedFloor();
    LoweredFits();
    assert Binding(ASKED, [ROOT]) == Some(ROOT);
    assert WithdrawalOk(BOTH, ASKED, "upper", LOWERED);
  }

  /** Its approval is accepted as well: five cores, and the one below keeps its eight. */
  lemma ParentApprovedLower(c: Caller)
    requires "admin" in c.tokens
    ensures var o := Approve(BOTH, ASKED, c, "upper", ApproveRequest(Some(1), None));
            && o.Ok? && "upper" in o.value && "small" in o.value
            && o.value["small"].parent == Some("upper")
            && Q(o.value["upper"].limit, CORES) == 5 && Q(o.value["small"].limit, CORES) == 8
  {
    AskedTree();
    AskedOk();
    SmallThere();
    assert "admin" in ASKED[ROOT].policy.admins * c.tokens;
    assert ManagesAbove(ASKED, c.tokens, ASKED_UPPER);
    AskedUnbound(c.now);
  }

  lemma AskedUnbound(now: Time)
    ensures FinalEnd(ASKED, ASKED_UPPER, now) == None
  {
    AskedTree();
    assert [ROOT][..0] == [];
    assert ChainEnd(ASKED, []) == None;
  }

  // ── A budget stops inheriting ───────────────────────────────────────────────

  lemma SwitchingOk()
    ensures LimitEditOk(BOTH, LIMITS, "middle", ["upper", ROOT], LimitEdit(map[], Some(false)))
  {
    NoFloor("middle", map[]);
    NothingGivenUp("middle", map[]);
    assert Binding(LIMITS, ["upper", ROOT]) == Some("upper");
  }

  /** A budget stops inheriting and gets a limit of nothing; the project in it keeps the network. */
  lemma StoppedInheriting(c: Caller)
    requires "admin" in c.tokens
    ensures var o := Update(BOTH, LIMITS, c, "middle", LimitEdit(map[], Some(false)));
            && o.Ok? && "middle" in o.value && "project" in o.value
            && !o.value["middle"].inherits && Q(o.value["middle"].limit, NET) == 0
            && o.value["project"].parent == Some("middle") && Q(o.value["project"].limit, NET) == 1
  {
    LimitsAbove();
    RootManages(c, LIMITS["middle"]);
    SwitchingOk();
    EditAccepted(c, "middle", map[], Some(false));
  }

  // ── An inheriting budget moves ──────────────────────────────────────────────

  lemma MiddleFits()
    ensures MoveFits(BOTH, LIMITS, "middle", "other")
  {
    NothingInMiddle();
    OtherHasRoom();
  }

  lemma OtherHasRoom()
    ensures HasRoom(BOTH, LIMITS, Chain(Budgets(LIMITS), "other"), MovedUsage(BOTH, LIMITS, "middle"), map[])
  {
    LimitsAbove();
    RoomForNothing("other");
    RoomForNothing(ROOT);
  }

  lemma NothingInMiddle()
    ensures Subtree(LIMITS, "middle") <= {"middle"}
  {
    LimitsTree();
    assert forall y :: y in TREE ==> TREE[y] != Some("middle");
    forall b | b in Subtree(LIMITS, "middle") ensures b == "middle" {
      if b != "middle" { ChildlessChain(TREE, "middle", b); }
    }
  }

  lemma RoomForNothing(b: Id)
    requires b in LIMITS
    ensures Q(LIMITS[b].limit, CORES) in {0, UNLIMITED} ==>
        Room(BOTH, LIMITS, b, MovedUsage(BOTH, LIMITS, "middle"), map[])
  {
    NoCores(b);
    NoCores("middle");
  }

  /** A move that passes the checks. */
  lemma MoveAccepted(cfg: Config, s: Store, c: Caller, id: Id, target: Id)
    requires id in s && Live(s[id].status) && id != ROOT && id != UNASSIGNED && s[id].parent != Some(target)
    requires TargetError(s, c, s[id], target).None? && id !in Chain(Budgets(s), target)
    requires MoveFits(cfg, s, id, target) && AllocationsAfterMoveOk(s, id, target)
    ensures Move(cfg, s, c, id, target)
            == Ok(MoveCarried(MoveWritten(s, id, target, c.now), id, MoveBound(s, s[id], target, c.now), c.now))
  {
  }

  /** Where nothing ends and nothing is capped, a move changes the parent alone. */
  lemma MovedUnbound(s: Store, id: Id, target: Id, now: Time)
    requires id in s && s[id].kind == Budget && s[id].maxTerm.None?
    requires MoveBound(s, s[id], target, now).None? && ChainMaxTerm(s, Chain(Budgets(s), target)).None?
    ensures MoveCarried(MoveWritten(s, id, target, now), id, MoveBound(s, s[id], target, now), now)
            == Put(s, id, s[id].(parent := Some(target), log := More(s[id].log, 1)))
  {
  }

  lemma NobodyDraws()
    ensures AllocationsAfterMoveOk(LIMITS, "middle", "other")
  {
    assert forall id :: id in LIMITS ==> LIMITS[id].allocations == [];
  }

  lemma MiddleMayMove(c: Caller)
    requires "admin" in c.tokens
    ensures TargetError(LIMITS, c, LIMITS["middle"], "other").None?
    ensures "middle" !in Chain(Budgets(LIMITS), "other")
  {
    LimitsAbove();
    RootManages(c, LIMITS["middle"]);
    RootManages(c, LIMITS["other"]);
  }

  /** A budget that inherits moves to where there is no network; its project keeps it. */
  lemma InheritingMoved(c: Caller)
    requires "admin" in c.tokens
    ensures var o := Move(BOTH, LIMITS, c, "middle", "other");
            && o.Ok? && "middle" in o.value && "other" in o.value && "project" in o.value
            && o.value["middle"].parent == Some("other") && o.value["middle"].inherits
            && Q(o.value["other"].limit, NET) == 0 && Q(o.value["project"].limit, NET) == 1
  {
    MiddleMayMove(c);
    NobodyDraws();
    MiddleFits();
    MiddleUnbound(c.now);
    MoveAccepted(BOTH, LIMITS, c, "middle", "other");
    MovedUnbound(LIMITS, "middle", "other", c.now);
  }

  lemma MiddleUnbound(now: Time)
    ensures MoveBound(LIMITS, LIMITS["middle"], "other", now) == None
    ensures ChainMaxTerm(LIMITS, Chain(Budgets(LIMITS), "other")) == None
  {
    LimitsChains();
    assert ["other", ROOT][..1] == ["other"] && ["other"][..0] == [];
    assert ChainEnd(LIMITS, ["other"]) == None && ChainMaxTerm(LIMITS, ["other"]) == None;
  }

  // ── A released project stays behind ─────────────────────────────────────────

  /** Released projects are charged. */
  const CHARGING := CORES_ONLY.(acc := Accounting(false, true, false))

  /** A released project that draws five cores from two budgets up. */
  const LENT_NODE := Node(Project, Some("group"), Released, map[], false, [Allocation("source", FIVE)], None, None,
                          None, "owner", {}, Policy({}, {}, None, true, true, true, NO_HOUSE), Log(1, 0), NO_SIDE)

  const LENT: Store := map[
    ROOT := PlainBudget(None, map[CORES := UNLIMITED], false),
    UNASSIGNED := PlainBudget(Some(ROOT), map[], false),
    "source" := PlainBudget(Some(ROOT), TEN, false),
    "group" := PlainBudget(Some("source"), map[], false),
    "other" := PlainBudget(Some(ROOT), TEN, false),
    "project" := LENT_NODE]

  const LENT_TREE: Parents := map[
    ROOT := None, UNASSIGNED := Some(ROOT), "source" := Some(ROOT), "group" := Some("source"), "other" := Some(ROOT)]

  lemma LentChains()
    ensures Budgets(LENT) == LENT_TREE && Chain(LENT_TREE, "group") == ["group", "source", ROOT]
    ensures Chain(LENT_TREE, "source") == ["source", ROOT] && Chain(LENT_TREE, "other") == ["other", ROOT]
  {
    assert IsChain(LENT_TREE, ["group", "source", ROOT]) && IsChain(LENT_TREE, ["other", ROOT]);
    ChainIs(LENT_TREE, ["group", "source", ROOT]);
    ChainIs(LENT_TREE, ["other", ROOT]);
    ChainSuffix(LENT_TREE, "group", 1);
  }

  /** Where nothing else is a project, it alone weighs. */
  lemma OnlyProject(s: Store, m: Meter)
    requires "project" in s && forall x :: x in s && s[x].kind == Project ==> x == "project"
    ensures Total(s, m) == Weight(m, s["project"])
  {
    TotalSplit(s, m, "project");
    TotalZero(s - {"project"}, m);
  }

  /** What it charges a budget: what it draws, from the source upward. */
  lemma LentWeight(m: Meter)
    requires m.Below? && m.cfg == CHARGING && m.only.None? && m.r == CORES
    ensures Weight(m, LENT_NODE) == if "group" in m.tracked && m.b in Chain(m.pm, "source") then 5 else 0
  {
    var allocs := [Allocation("source", FIVE)];
    assert LENT_NODE.allocations == allocs && allocs[..0] == [];
    assert AllocationCharge(m.pm, [], m.b, CORES) == 0;
    assert Q(FIVE, CORES) == 5 && Q(map[], CORES) == 0;
  }

  /** What budget b is charged of the cores in the tree pm, looking at the budgets tracked. */
  function CoresBelow(pm: Parents, tracked: set<Id>, b: Id): Meter {
    Below(CHARGING, pm, tracked, None, b, CORES)
  }

  lemma LentCharges()
    ensures Usage(CHARGING, LENT, ROOT, CORES) == 5 && Usage(CHARGING, LENT, "other", CORES) == 0
    ensures LocalUsage(CHARGING, LENT, "group", CORES) == 0
  {
    LentChains();
    var pm := LENT_TREE;
    LentWeighs(CoresBelow(pm, pm.Keys, ROOT));
    LentWeighs(CoresBelow(pm, pm.Keys, "other"));
    LentWeighs(CoresBelow(pm, Subtree(LENT, "group"), "group"));
  }

  lemma LentWeighs(m: Meter)
    requires m.Below? && m.cfg == CHARGING && m.only.None? && m.r == CORES
    ensures Total(LENT, m) == if "group" in m.tracked && m.b in Chain(m.pm, "source") then 5 else 0
  {
    OnlyProject(LENT, m);
    LentWeight(m);
  }

  lemma GroupFits()
    ensures MoveFits(CHARGING, LENT, "group", "other")
  {
    LentChains();
    LentCharges();
    var chain := Chain(Budgets(LENT), "other");
    assert Binding(LENT, chain) == Some("other") && ChildFits(CHARGING, TEN, map[]);
    assert Room(CHARGING, LENT, "other", MovedUsage(CHARGING, LENT, "group"), map[]);
    assert Room(CHARGING, LENT, ROOT, MovedUsage(CHARGING, LENT, "group"), map[]);
  }

  lemma GroupMayMove(c: Caller)
    requires "admin" in c.tokens
    ensures TargetError(LENT, c, LENT["group"], "other").None? && "group" !in Chain(Budgets(LENT), "other")
    ensures AllocationsAfterMoveOk(LENT, "group", "other")
  {
    LentChains();
    assert Above(LENT, LENT["group"])[0] == "source" && "admin" in LENT["source"].policy.admins * c.tokens;
    assert "admin" in LENT["other"].policy.admins * c.tokens;
    OneProject();
  }

  lemma GroupUnbound(now: Time)
    ensures MoveBound(LENT, LENT["group"], "other", now) == None
    ensures ChainMaxTerm(LENT, Chain(Budgets(LENT), "other")) == None
  {
    LentChains();
    assert ["other", ROOT][..1] == ["other"] && ["other"][..0] == [];
    assert ChainEnd(LENT, ["other"]) == None && ChainMaxTerm(LENT, ["other"]) == None;
  }

  const MOVED_TREE: Parents := LENT_TREE["group" := Some("other")]

  lemma MovedChains(t: Store)
    requires Budgets(t) == MOVED_TREE
    ensures Chain(MOVED_TREE, "source") == ["source", ROOT] && Chain(MOVED_TREE, "group") == ["group", "other", ROOT]
    ensures "group" !in Subtree(t, "source")
  {
    assert IsChain(MOVED_TREE, ["group", "other", ROOT]) && IsChain(MOVED_TREE, ["source", ROOT]);
    ChainIs(MOVED_TREE, ["group", "other", ROOT]);
    ChainIs(MOVED_TREE, ["source", ROOT]);
  }

  /** With the group elsewhere the source is still charged five cores, which a look at its own subtree does not
      find. */
  lemma MovedCharges(t: Store)
    requires t.Keys == LENT.Keys && Budgets(t) == MOVED_TREE && t["project"] == LENT_NODE
    requires forall x :: x in t && t[x].kind == Project ==> x == "project"
    ensures Usage(CHARGING, t, "source", CORES) == 5 && LocalUsage(CHARGING, t, "source", CORES) == 0
  {
    MovedChains(t);
    OnlyProject(t, CoresBelow(MOVED_TREE, MOVED_TREE.Keys, "source"));
    OnlyProject(t, CoresBelow(MOVED_TREE, Subtree(t, "source"), "source"));
    LentWeight(CoresBelow(MOVED_TREE, MOVED_TREE.Keys, "source"));
    LentWeight(CoresBelow(MOVED_TREE, Subtree(t, "source"), "source"));
  }

  /** The move is accepted, as nobody asks what released projects draw: afterwards the two ways to compute what
      the source is charged differ, and its limit may be lowered to nothing. */
  lemma LenderLeftBehind(c: Caller)
    requires "admin" in c.tokens
    ensures var o := Move(CHARGING, LENT, c, "group", "other");
            && o.Ok? && "source" in o.value
            && Usage(CHARGING, o.value, "source", CORES) == 5 && LocalUsage(CHARGING, o.value, "source", CORES) == 0
            && FloorOk(CHARGING, o.value, "source", map[])
  {
    GroupMoved(c);
    MovedCharges(Move(CHARGING, LENT, c, "group", "other").value);
  }

  lemma GroupMoved(c: Caller)
    requires "admin" in c.tokens
    ensures var o := Move(CHARGING, LENT, c, "group", "other");
            && o.Ok? && o.value.Keys == LENT.Keys && Budgets(o.value) == MOVED_TREE && o.value["project"] == LENT_NODE
            && forall x :: x in o.value && o.value[x].kind == Project ==> x == "project"
  {
    GroupFits();
    GroupMayMove(c);
    GroupUnbound(c.now);
    MoveAccepted(CHARGING, LENT, c, "group", "other");
    MovedUnbound(LENT, "group", "other", c.now);
    GroupPut();
  }

  lemma OneProject()
    ensures "group" in LENT && LENT["group"].kind == Budget && LENT["project"] == LENT_NODE
    ensures forall x :: x in LENT && LENT[x].kind == Project ==> x == "project"
  {
  }

  lemma BudgetsPut(s: Store, id: Id, n: Node)
    requires id in s && s[id].kind == Budget && n.kind == Budget
    ensures Put(s, id, n).Keys == s.Keys && Budgets(Put(s, id, n)) == Budgets(s)[id := n.parent]
    ensures forall x :: x in s && x != id ==> Put(s, id, n)[x] == s[x]
  {
  }

  lemma GroupPut()
    ensures "group" in LENT && LENT["group"].kind == Budget
    ensures var t := Put(LENT, "group", LENT["group"].(parent := Some("other"), log := More(LENT["group"].log, 1)));
            && t.Keys == LENT.Keys && Budgets(t) == MOVED_TREE && t["project"] == LENT_NODE
            && forall x :: x in t && t[x].kind == Project ==> x == "project"
  {
    LentChains();
    OneProject();
    BudgetsPut(LENT, "group", LENT["group"].(parent := Some("other"), log := More(LENT["group"].log, 1)));
  }
}
