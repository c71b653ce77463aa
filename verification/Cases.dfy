/** Requests the service accepts and what they leave behind, on a small tree. */
module Cases {
  import opened Model
  import opened Chains
  import opened Charges
  import opened Rules
  import opened Steps
  import opened Reports
  import opened Runs
  import opened Shape
  import opened Lifetimes
  import opened Terms
  import opened Statuses
  import opened Availabilities
  import opened Catalogue

  const NOTHING_ON := Config([], [], {}, map[], {}, map[], {}, ALL_OFF)

  /** A budget whose projects may run a hundred days, and one that was asked for and is to inherit, under a
      third. */
  const SMALL: Store := map[
    ROOT := PlainBudget(None, map[], false),
    UNASSIGNED := PlainBudget(Some(ROOT), map[], false),
    "upper" := PlainBudget(Some(ROOT), map[], false),
    "lower" := PlainBudget(Some("upper"), map[], false).(maxTerm := Some(100)),
    "asked" := PlainBudget(Some("upper"), map[], true).(status := Pending)]

  lemma SmallChains()
    ensures Chain(Budgets(SMALL), "lower") == ["lower", "upper", ROOT]
    ensures Chain(Budgets(SMALL), "asked") == ["asked", "upper", ROOT]
    ensures Chain(Budgets(SMALL), "upper") == ["upper", ROOT]
    ensures Chain(Budgets(SMALL), UNASSIGNED) == [UNASSIGNED, ROOT]
    ensures Chain(Budgets(SMALL), ROOT) == [ROOT]
  {
    var pm := Budgets(SMALL);
    assert IsChain(pm, ["lower", "upper", ROOT]) && IsChain(pm, ["asked", "upper", ROOT]);
    assert IsChain(pm, [UNASSIGNED, ROOT]);
    ChainIs(pm, ["lower", "upper", ROOT]);
    ChainIs(pm, ["asked", "upper", ROOT]);
    ChainIs(pm, [UNASSIGNED, ROOT]);
    ChainSuffix(pm, "lower", 1);
    ChainSuffix(pm, "lower", 2);
  }

  lemma SmallShaped()
    ensures Shaped(SMALL)
  {
    SmallChains();
    forall id | id in SMALL ensures Hangs(SMALL, SMALL[id]) && OwnShape(SMALL[id]) {
    }
  }

  lemma SmallInLine()
    ensures InLine(SMALL)
  {
    forall id | id in SMALL ensures TermInLine(SMALL, id) {
    }
  }

  // ── A term is cut above and not below ───────────────────────────────────────

  /** Ten days at most from now on, with the end both cleared and set. */
  const CLEAR_AND_SET := UpdateRequest(false, None, None, None, false, None, None, None,
                                       Some(10), false, None, Some(50), true, None)

  lemma NoBounds()
    ensures ChainMaxTerm(SMALL, [ROOT]) == None && ChainEnd(SMALL, [ROOT]) == None
  {
    assert [ROOT][..0] == [];
    assert TermAt(SMALL, ROOT) == None && EndAt(SMALL, ROOT) == None;
    assert ChainMaxTerm(SMALL, []) == None && ChainEnd(SMALL, []) == None;
  }

  /** The edit is accepted and panics before the term is carried down: the budget below keeps its hundred
      days, under one that allows ten. */
  lemma LongerTermBelow(c: Caller)
    requires "admin" in c.tokens
    ensures InLine(SMALL)
    ensures var o := Update(NOTHING_ON, SMALL, c, "upper", CLEAR_AND_SET);
            && o.Ok? && "upper" in o.value && "lower" in o.value && o.value["upper"].maxTerm == Some(10)
            && o.value["lower"].maxTerm == Some(100) && !InLine(o.value)
  {
    SmallChains();
    var n, chain := SMALL["upper"], Above(SMALL, SMALL["upper"]);
    assert chain == [ROOT];
    assert "admin" in SMALL[ROOT].policy.admins * c.tokens;
    assert ManagesAbove(SMALL, c.tokens, n);
    NoBounds();
    SmallInLine();
    var t := Put(SMALL, "upper", Edited(SMALL, n, chain, CLEAR_AND_SET));
    assert !TermInLine(t, "lower");
  }

  // ── A request is deleted undecided ──────────────────────────────────────────

  /** The request for a budget is deleted, though nobody decided on it. */
  lemma PendingDeleted(c: Caller)
    requires "admin" in c.tokens
    ensures BlocksDeletion(SMALL["asked"])
    ensures var o := Delete(SMALL, c, "asked"); o.Ok? && "asked" !in o.value
  {
    NothingBelowAsked();
    AskedManaged(c);
  }

  lemma NothingBelowAsked()
    ensures forall d :: !StrictlyBelow(SMALL, "asked", d)
  {
    forall d ensures !StrictlyBelow(SMALL, "asked", d) {
      Childless(SMALL, "asked", d);
    }
  }

  /** Nothing is below what is nobody's parent. */
  lemma Childless(s: Store, x: Id, d: Id)
    requires forall id :: id in s ==> s[id].parent != Some(x)
    ensures !StrictlyBelow(s, x, d)
  {
    if d != x { ChildlessChain(Budgets(s), x, d); }
    if d in s && s[d].parent.Some? { ChildlessChain(Budgets(s), x, s[d].parent.value); }
  }

  // ── The root asks ───────────────────────────────────────────────────────────

  const ANOTHER_LIMIT := ChangeRequest(Some(map[]), None, None)

  /** The root's request is accepted, and from then on nobody can decide on it. */
  lemma RootAsks(c: Caller, d: Caller, req: ApproveRequest)
    requires "admin" in c.tokens
    ensures var o := RequestChange(NOTHING_ON, SMALL, c, ROOT, ANOTHER_LIMIT);
            && o.Ok? && ROOT in o.value && o.value[ROOT].status == ChangePending
            && Approve(NOTHING_ON, o.value, d, ROOT, req) == Err(Forbidden)
            && Reject(o.value, d, ROOT) == Err(Forbidden)
  {
    SmallShaped();
    assert "admin" in SMALL[ROOT].policy.admins * c.tokens;
    ShapeNext(NOTHING_ON, SMALL, c, OpChange(ROOT, ANOTHER_LIMIT));
    RootUndecided(NOTHING_ON, RequestChange(NOTHING_ON, SMALL, c, ROOT, ANOTHER_LIMIT).value, d, req);
  }

  // ── What is withdrawn is granted ────────────────────────────────────────────

  const NET_GONE := Config([], [NET], {NET}, map[], {}, map[], {}, ALL_OFF)

  /** A manager may approve the inheriting budget with any limit, one of an availability nobody holds and
      nobody is to get included. */
  lemma WithdrawnGranted(c: Caller)
    requires "admin" in c.tokens
    ensures Unheld(SMALL, NET) && NET in NET_GONE.withdrawn
    ensures var o := Approve(NET_GONE, SMALL, c, "asked", ApproveRequest(Some(1), Some(ONE_NET)));
            o.Ok? && "asked" in o.value && Holding(o.value["asked"], NET)
  {
    NobodyHoldsIt();
    AskedApproved(c);
  }

  lemma NobodyHoldsIt()
    ensures Unheld(SMALL, NET)
  {
  }

  lemma AskedApproved(c: Caller)
    requires "admin" in c.tokens
    ensures var o := Approve(NET_GONE, SMALL, c, "asked", ApproveRequest(Some(1), Some(ONE_NET)));
            o.Ok? && "asked" in o.value && o.value["asked"].limit == ONE_NET
  {
    SmallChains();
    AskedManaged(c);
    assert Revision(SMALL["asked"]) == 1;
    assert GrantOk(NET_GONE, SMALL, "asked", ONE_NET);
  }

  lemma AskedManaged(c: Caller)
    requires "admin" in c.tokens
    ensures ManagesAbove(SMALL, c.tokens, SMALL["asked"])
  {
    SmallChains();
    assert Chain(Budgets(SMALL), "upper")[0] == "upper";
    assert "admin" in SMALL["upper"].policy.admins * c.tokens;
  }

  // ── A share of nothing left ─────────────────────────────────────────────────

  /** Requesters get a project with the network granted at once, and may ask for no budgets. */
  const NET_SHARE := UpdateRequest(false, None, None, Some(ONE_NET), false, Some(false), None, None, None, false,
                                   None, None, false, None)

  /** The share is accepted; once the network leaves the catalogue it is one of the whole budget. */
  lemma ShareForgotten(c: Caller)
    requires "admin" in c.tokens
    ensures var o := Update(NET_ONLY, SMALL, c, "upper", NET_SHARE);
            && o.Ok? && "upper" in o.value && o.value["upper"].policy.auto == Some(ONE_NET)
            && !IsPool(o.value["upper"].policy.auto)
            && IsPool(RewriteAll(RewriteAll(o.value, Withdraw(NET)), Forget(NET))["upper"].policy.auto)
  {
    ShareGranted(c);
    ShareRewritten();
  }

  lemma ShareGranted(c: Caller)
    requires "admin" in c.tokens
    ensures var o := Update(NET_ONLY, SMALL, c, "upper", NET_SHARE);
            o.Ok? && "upper" in o.value && o.value["upper"].policy.auto == Some(ONE_NET)
  {
    SmallChains();
    assert ValidAutoApprove(NET_ONLY, Some(ONE_NET));
    assert "admin" in SMALL["upper"].policy.admins * c.tokens;
    assert Manages(SMALL, c.tokens, SMALL["upper"]);
  }

  lemma ShareRewritten()
    ensures NET in ONE_NET && Rewritten(Forget(NET), Rewritten(Withdraw(NET), ONE_NET)) == map[]
  {
  }
}
