/** The shape of the tree: every reachable store is a tree rooted at the root, its inner nodes
    live budgets. */
module Shape {
  import opened Model
  import opened Chains
  import opened Charges
  import opened Rules
  import opened Steps
  import opened Reports
  import opened Runs

  predicate BudgetStatus(st: Status) {
    st == Pending || st == Approved || st == ChangePending || st == Rejected
  }

  /** A node hangs under an active budget; a project always hangs somewhere. */
  ghost predicate Hangs(s: Store, n: Node) {
    && (n.kind == Project ==> n.parent.Some?)
    && (n.parent.Some? ==>
          n.parent.value in s && s[n.parent.value].kind == Budget && Active(s[n.parent.value].status))
  }

  predicate OwnShape(n: Node) {
    n.kind == Budget ==> BudgetStatus(n.status) && n.allocations == []
  }

  ghost predicate Structural(s: Store, b: Id) {
    b in s && s[b].kind == Budget && Active(s[b].status)
  }

  ghost predicate Shaped(s: Store) {
    && Tree(Budgets(s))
    && (forall id {:trigger Hangs(s, s[id])} {:trigger OwnShape(s[id])} ::
        id in s ==> Hangs(s, s[id]) && OwnShape(s[id]))
    && Structural(s, ROOT) && !s[ROOT].inherits
    && Structural(s, UNASSIGNED) && s[UNASSIGNED].parent == Some(ROOT)
  }

  /** Nothing hangs under itself. */
  lemma NotOwnParent(s: Store, id: Id)
    requires Shaped(s) && id in s
    ensures s[id].parent != Some(id)
  {
    assert Hangs(s, s[id]);
    if s[id].parent == Some(id) { ChainStep(Budgets(s), id); }
  }

  // ── The ways a store changes ────────────────────────────────────────────────

  /** n stands where m stood. */
  ghost predicate SamePlace(m: Node, n: Node) {
    n.kind == m.kind && n.parent == m.parent
  }

  /** A node may take the place of another without disturbing what hangs below. */
  ghost predicate Replaces(m: Node, n: Node) {
    && OwnShape(n)
    && (m.kind == Budget && Active(m.status) ==> Active(n.status))
  }

  /** Every node stays where it is, and active budgets stay active. */
  ghost predicate InPlace(s: Store, t: Store) {
    && t.Keys == s.Keys
    && (forall id :: id in s ==> SamePlace(s[id], t[id]) && Replaces(s[id], t[id]))
    && (ROOT in s ==> t[ROOT].inherits == s[ROOT].inherits)
  }

  lemma InPlaceBudgets(s: Store, t: Store)
    requires t.Keys == s.Keys && forall id :: id in s ==> SamePlace(s[id], t[id])
    ensures Budgets(t) == Budgets(s)
  {
  }

  lemma InPlaceTransitive(s: Store, t: Store, u: Store)
    requires InPlace(s, t) && InPlace(t, u)
    ensures InPlace(s, u)
  {
  }

  lemma ShapeInPlace(s: Store, t: Store)
    requires Shaped(s) && InPlace(s, t)
    ensures Shaped(t) && Budgets(t) == Budgets(s)
  {
    InPlaceBudgets(s, t);
    forall id | id in t
      ensures Hangs(t, t[id]) && OwnShape(t[id])
    {
      assert Hangs(s, s[id]);
    }
  }

  lemma ShapeAdd(s: Store, x: Id, n: Node)
    requires Shaped(s) && x !in s && n.parent.Some? && Hangs(s, n) && OwnShape(n)
    ensures Shaped(s[x := n])
    ensures Budgets(s[x := n]) == if n.kind == Budget then Budgets(s)[x := n.parent] else Budgets(s)
  {
    var t := s[x := n];
    if n.kind == Budget {
      assert Budgets(t) == Budgets(s)[x := n.parent];
      AddBudget(Budgets(s), x, n.parent.value);
    } else {
      assert Budgets(t) == Budgets(s);
    }
    forall id | id in t
      ensures Hangs(t, t[id]) && OwnShape(t[id])
    {
      if id in s { assert Hangs(s, s[id]); }
    }
  }

  lemma ShapeRemove(s: Store, gone: set<Id>)
    requires Shaped(s) && ROOT !in gone && UNASSIGNED !in gone
    requires forall id :: id in s && s[id].parent.Some? && s[id].parent.value in gone ==> id in gone
    ensures Shaped(s - gone) && Budgets(s - gone) == Budgets(s) - gone
  {
    var t := s - gone;
    assert Budgets(t) == Budgets(s) - gone;
    RemoveBudgets(Budgets(s), gone);
    forall id | id in t
      ensures Hangs(t, t[id]) && OwnShape(t[id])
    {
      assert Hangs(s, s[id]);
    }
  }

  /** x hangs under target, everything else stays. */
  ghost predicate Relocated(s: Store, t: Store, x: Id, target: Id) {
    && t.Keys == s.Keys && x in s
    && (forall id :: id in s ==> Replaces(s[id], t[id]) && t[id].kind == s[id].kind)
    && (forall id :: id in s && id != x ==> t[id].parent == s[id].parent)
    && t[x].parent == Some(target)
    && (ROOT in s ==> t[ROOT].inherits == s[ROOT].inherits)
  }

  lemma ShapeRelocate(s: Store, t: Store, x: Id, target: Id)
    requires Shaped(s) && Relocated(s, t, x, target) && x != ROOT && x != UNASSIGNED
    requires target in s && s[target].kind == Budget && Active(s[target].status)
    requires x !in Chain(Budgets(s), target)
    ensures Shaped(t)
    ensures Budgets(t) == if s[x].kind == Budget then Budgets(s)[x := Some(target)] else Budgets(s)
  {
    RelocatedBudgets(s, t, x, target);
    if s[x].kind == Budget {
      MoveBudget(Budgets(s), x, target);
    }
    RelocatedHangs(s, t, x, target);
  }

  lemma RelocatedBudgets(s: Store, t: Store, x: Id, target: Id)
    requires Relocated(s, t, x, target)
    ensures Budgets(t) == if s[x].kind == Budget then Budgets(s)[x := Some(target)] else Budgets(s)
  {
  }

  lemma RelocatedHangs(s: Store, t: Store, x: Id, target: Id)
    requires forall id :: id in s ==> Hangs(s, s[id]) && OwnShape(s[id])
    requires Relocated(s, t, x, target)
    requires target in s && s[target].kind == Budget && Active(s[target].status)
    ensures forall id :: id in t ==> Hangs(t, t[id]) && OwnShape(t[id])
  {
    forall id | id in t
      ensures Hangs(t, t[id]) && OwnShape(t[id])
    {
      assert Hangs(s, s[id]);
    }
  }

  // ── Every operation ─────────────────────────────────────────────────────────

  /** What a cascade writes keeps a node's place and standing. */
  lemma ShortenedKeeps(n: Node, end: Time, days: int)
    requires OwnShape(n)
    ensures SamePlace(n, ShortenEnd(n, end)) && Replaces(n, ShortenEnd(n, end))
    ensures SamePlace(n, ShortenTerm(n, days)) && Replaces(n, ShortenTerm(n, days))
    ensures ShortenEnd(n, end).inherits == n.inherits
    ensures ShortenTerm(n, days).inherits == n.inherits
  {
  }

  lemma CascadeEndsInPlace(s: Store, top: Id, end: Time)
    requires forall id :: id in s ==> OwnShape(s[id])
    ensures InPlace(s, CascadeEnds(s, top, end))
  {
    var t := CascadeEnds(s, top, end);
    forall id | id in s
      ensures SamePlace(s[id], t[id]) && Replaces(s[id], t[id]) && t[id].inherits == s[id].inherits
    {
      ShortenedKeeps(s[id], end, 0);
    }
  }

  lemma CascadeTermsInPlace(s: Store, top: Id, days: int, now: Time)
    requires forall id :: id in s ==> OwnShape(s[id])
    ensures InPlace(s, CascadeTerms(s, top, days, now))
  {
    var t := CascadeTerms(s, top, days, now);
    forall id | id in s
      ensures SamePlace(s[id], t[id]) && Replaces(s[id], t[id]) && t[id].inherits == s[id].inherits
    {
      ShortenedKeeps(s[id], TermEnd(now, days), days);
    }
  }

  // What each operation wrote when it was not refused.

  lemma ApproveFacts(cfg: Config, s: Store, c: Caller, id: Id, req: ApproveRequest)
    requires Approve(cfg, s, c, id, req).Ok?
    ensures id in s && (s[id].status == Pending || s[id].status == ChangePending)
    ensures req.expected == Some(Revision(s[id])) && GrantOk(cfg, s, id, FinalLimit(s[id], req))
    ensures var t, end := Put(s, id, Decided(s, s[id], req, c.now)), FinalEnd(s, s[id], c.now);
            Approve(cfg, s, c, id, req).value
            == if s[id].kind == Budget && end.Some? then CascadeEnds(t, id, end.value) else t
  {
  }

  lemma PromoteFacts(cfg: Config, s: Store, c: Caller, id: Id, req: PromoteRequest)
    requires Promote(cfg, s, c, id, req).Ok?
    ensures id in s && s[id].status == Imported
    ensures req.parent in s && s[req.parent].kind == Budget && s[req.parent].status == Approved
    ensures Promote(cfg, s, c, id, req).value == Put(s, id, PromotedNode(s, s[id], req, c.now))
    ensures PromotedNode(s, s[id], req, c.now).kind == s[id].kind
    ensures PromotedNode(s, s[id], req, c.now).status == Imported
  {
  }

  lemma AllocateFacts(cfg: Config, s: Store, c: Caller, id: Id, b: Id, amount: Quota)
    requires Allocate(cfg, s, c, id, b, amount).Ok?
    ensures id in s && s[id].kind == Project && Live(s[id].status) && ValidLeafLimit(cfg, NonZero(amount))
    ensures Raises(HeldFrom(s[id].allocations, b), NonZero(amount)) ==>
              HasRoom(cfg, s, Chain(Budgets(s), b), NonZero(amount), HeldFrom(s[id].allocations, b))
    ensures Allocate(cfg, s, c, id, b, amount).value == Put(s, id, Allocated(s[id], b, NonZero(amount)))
    ensures b in Above(s, s[id]) && Above(s, s[id])[0] != b
  {
  }

  /** A new node as it was asked for, with the status the decision gave it. */
  lemma CreatedNode(cfg: Config, s: Store, c: Caller, id: Id, req: CreateRequest) returns (n: Node)
    requires Create(cfg, s, c, id, req).Ok?
    ensures Create(cfg, s, c, id, req).value == s[id := n] && CapHistory(n) == n
    ensures req.parent in s && s[req.parent].kind == Budget && s[req.parent].status == Approved
    ensures n.kind == req.kind && n.parent == Some(req.parent) && n.allocations == []
    ensures n.status == Pending || n.status == Approved
    ensures n.limit == CreateLimit(cfg, s, req) && n.inherits == (req.kind == Budget && req.inherits)
    ensures CreateEnd(s, req, c.now) == Ok(n.end) && CreateTerm(s, req) == Ok(n.maxTerm)
    ensures n.pending == None && n.owner == (if req.kind == Project then c.self else "")
    ensures req.kind == Project ==> LeafLimitOk(cfg, s, [], Chain(Budgets(s), req.parent), n.limit)
    ensures req.kind == Project && n.status == Approved ==>
              HasRoom(cfg, s, Chain(Budgets(s), req.parent), n.limit, map[])
    ensures req.kind == Budget && n.status == Approved && !n.inherits ==>
              BudgetLimitOk(cfg, s, id, Chain(Budgets(s), req.parent), n.limit, false)
  {
    var limit := CreateLimit(cfg, s, req);
    var m := NewNode(req, limit, CreateEnd(s, req, c.now).value, CreateTerm(s, req).value, c.self);
    var manager := Manages(s, c.tokens, s[req.parent]);
    n := CapHistory(CreateDecision(cfg, s, id, m, manager).value);
  }

  lemma ShapeCreate(cfg: Config, s: Store, c: Caller, id: Id, req: CreateRequest)
    requires Shaped(s) && id !in s && Create(cfg, s, c, id, req).Ok?
    ensures Shaped(Create(cfg, s, c, id, req).value)
  {
    var n := CreatedNode(cfg, s, c, id, req);
    ShapeAdd(s, id, n);
  }

  lemma CarriedDownInPlace(s: Store, id: Id, req: UpdateRequest, now: Time)
    requires forall x :: x in s ==> OwnShape(s[x])
    ensures InPlace(s, CarriedDown(s, id, req, now))
  {
    if !PanicsEarly(req) {
      var t := s;
      if req.end.Some? {
        CascadeEndsInPlace(s, id, req.end.value);
        t := CascadeEnds(s, id, req.end.value);
      }
      if req.maxTerm.Some? && !req.clearMaxTerm {
        CascadeTermsInPlace(t, id, req.maxTerm.value, now);
        InPlaceTransitive(s, t, CascadeTerms(t, id, req.maxTerm.value, now));
      }
    }
  }

  /** The root cannot be made to inherit: nothing above it has a limit. */
  lemma RootKeepsItsLimit(cfg: Config, s: Store, req: UpdateRequest)
    requires Shaped(s) && LimitEditOk(cfg, s, ROOT, Above(s, s[ROOT]), req)
    ensures !Inherits(s[ROOT], req)
  {
    assert Budgets(s)[ROOT] == None;
    assert Binding(s, Above(s, s[ROOT])).None?;
  }

  lemma UpdateFacts(cfg: Config, s: Store, c: Caller, id: Id, req: UpdateRequest)
    requires Update(cfg, s, c, id, req).Ok?
    ensures id in s && Live(s[id].status)
    ensures EndEditOk(s, Above(s, s[id]), req) && TermEditOk(s, Above(s, s[id]), req)
    ensures LimitEditOk(cfg, s, id, Above(s, s[id]), req)
    ensures s[id].kind == Project ==> LeafDirectEdit(req)
    ensures Update(cfg, s, c, id, req).value
            == CarriedDown(Put(s, id, Edited(s, s[id], Above(s, s[id]), req)), id, req, c.now)
  {
  }

  lemma EditedInPlace(cfg: Config, s: Store, id: Id, req: UpdateRequest)
    requires Shaped(s) && id in s && LimitEditOk(cfg, s, id, Above(s, s[id]), req)
    ensures InPlace(s, Put(s, id, Edited(s, s[id], Above(s, s[id]), req)))
  {
    if id == ROOT { RootKeepsItsLimit(cfg, s, req); }
    WrittenInPlace(s, id, Edited(s, s[id], Above(s, s[id]), req));
  }

  lemma WrittenInPlace(s: Store, id: Id, n: Node)
    requires forall x :: x in s ==> OwnShape(s[x])
    requires id in s && SamePlace(s[id], n) && Replaces(s[id], n) && (id == ROOT ==> n.inherits == s[id].inherits)
    ensures InPlace(s, Put(s, id, n)) && InPlace(s, s[id := n])
  {
  }

  lemma UpdateInPlace(cfg: Config, s: Store, c: Caller, id: Id, req: UpdateRequest)
    requires Shaped(s) && Update(cfg, s, c, id, req).Ok?
    ensures id in s && InPlace(s, Put(s, id, Edited(s, s[id], Above(s, s[id]), req)))
    ensures InPlace(s, Update(cfg, s, c, id, req).value)
  {
    UpdateFacts(cfg, s, c, id, req);
    EditedInPlace(cfg, s, id, req);
    var t := Put(s, id, Edited(s, s[id], Above(s, s[id]), req));
    CarriedDownInPlace(t, id, req, c.now);
    InPlaceTransitive(s, t, CarriedDown(t, id, req, c.now));
  }

  /** The three ways a change request ends: the request amended, the change applied, or a proposal. */
  lemma ChangedNode(cfg: Config, s: Store, c: Caller, id: Id, req: ChangeRequest) returns (n: Node)
    requires RequestChange(cfg, s, c, id, req).Ok?
    ensures id in s && Live(s[id].status) && RequestChange(cfg, s, c, id, req).value == Put(s, id, n)
    ensures AskedEndOk(s, s[id], req, c.now) && AskedLimitOk(cfg, s, s[id], req)
    ensures
      || (n == Amended(s[id], req) && s[id].status == Pending)
      || (n == AppliedDirectly(s[id], req) && Active(s[id].status) && s[id].kind == Project
          && LeafVerdict(cfg, s, s[id], req) == Direct)
      || (n == Proposed(s[id], req) && Active(s[id].status))
  {
    if s[id].status == Pending {
      n := Amended(s[id], req);
    } else if s[id].kind == Project && LeafVerdict(cfg, s, s[id], req) == Direct {
      n := AppliedDirectly(s[id], req);
    } else {
      n := Proposed(s[id], req);
    }
  }

  lemma ChangeInPlace(cfg: Config, s: Store, c: Caller, id: Id, req: ChangeRequest)
    requires Shaped(s) && RequestChange(cfg, s, c, id, req).Ok?
    ensures InPlace(s, RequestChange(cfg, s, c, id, req).value)
  {
    var n := ChangedNode(cfg, s, c, id, req);
    assert forall x :: x in s ==> OwnShape(s[x]);
    ChangedInPlace(s, id, n, req);
  }

  lemma ChangedInPlace(s: Store, id: Id, n: Node, req: ChangeRequest)
    requires id in s && forall x :: x in s ==> OwnShape(s[x])
    requires n == Amended(s[id], req) || n == AppliedDirectly(s[id], req) || n == Proposed(s[id], req)
    ensures InPlace(s, Put(s, id, n))
  {
  }

  lemma ApproveInPlace(cfg: Config, s: Store, c: Caller, id: Id, req: ApproveRequest)
    requires Shaped(s) && Approve(cfg, s, c, id, req).Ok?
    ensures id in s && InPlace(s, Put(s, id, Decided(s, s[id], req, c.now)))
    ensures InPlace(s, Approve(cfg, s, c, id, req).value)
  {
    ApproveFacts(cfg, s, c, id, req);
    DecidedInPlace(s, id, req, c.now);
  }

  lemma DecidedInPlace(s: Store, id: Id, req: ApproveRequest, now: Time)
    requires id in s && (s[id].status == Pending || s[id].status == ChangePending)
    requires forall x :: x in s ==> OwnShape(s[x])
    ensures var t, end := Put(s, id, Decided(s, s[id], req, now)), FinalEnd(s, s[id], now);
            InPlace(s, t) && (end.Some? ==> InPlace(s, CascadeEnds(t, id, end.value)))
  {
    var t, end := Put(s, id, Decided(s, s[id], req, now)), FinalEnd(s, s[id], now);
    WrittenInPlace(s, id, Decided(s, s[id], req, now));
    if end.Some? {
      CascadeEndsInPlace(t, id, end.value);
      InPlaceTransitive(s, t, CascadeEnds(t, id, end.value));
    }
  }

  lemma RejectInPlace(s: Store, c: Caller, id: Id)
    requires Shaped(s) && Reject(s, c, id).Ok?
    ensures InPlace(s, Reject(s, c, id).value)
  {
    assert forall x :: x in s ==> OwnShape(s[x]);
    WrittenInPlace(s, id, Refused(s[id]));
  }

  lemma ReleaseInPlace(s: Store, c: Caller, id: Id, delete: bool, deletable: bool)
    requires Shaped(s) && Release(s, c, id, delete, deletable).Ok?
    ensures InPlace(s, Release(s, c, id, delete, deletable).value)
  {
    assert forall x :: x in s ==> OwnShape(s[x]);
    WrittenInPlace(s, id, ReleasedNode(s[id], delete));
  }

  lemma TransferInPlace(s: Store, c: Caller, id: Id, owner: Token)
    requires Shaped(s) && Transfer(s, c, id, owner).Ok?
    ensures InPlace(s, Transfer(s, c, id, owner).value)
  {
    assert forall x :: x in s ==> OwnShape(s[x]);
    WrittenInPlace(s, id, HandedOver(s[id], owner));
  }

  lemma AllocateInPlace(cfg: Config, s: Store, c: Caller, id: Id, b: Id, amount: Quota)
    requires Shaped(s) && Allocate(cfg, s, c, id, b, amount).Ok?
    ensures InPlace(s, Allocate(cfg, s, c, id, b, amount).value)
  {
    assert forall x :: x in s ==> OwnShape(s[x]);
  }

  /** What a deletion removes is closed under children, and nothing else goes. */
  lemma ClosureClosed(s: Store, x: Id)
    requires Shaped(s) && x in s && s[x].kind == Budget
    ensures forall id :: id in s && s[id].parent.Some? && s[id].parent.value in Closure(s, x) ==> id in Closure(s, x)
  {
    forall id | id in s && s[id].parent.Some? && s[id].parent.value in Closure(s, x)
      ensures id in Closure(s, x)
    {
      var p := s[id].parent.value;
      assert Hangs(s, s[id]);
      ChainOk(Budgets(s), p);
      assert x in Chain(Budgets(s), p);
      if s[id].kind == Budget {
        ChainStep(Budgets(s), id);
      }
    }
  }

  lemma ShapeDelete(s: Store, c: Caller, id: Id)
    requires Shaped(s) && Delete(s, c, id).Ok?
    ensures Shaped(Delete(s, c, id).value)
    ensures Budgets(Delete(s, c, id).value) == Budgets(s) - Closure(s, id)
  {
    ClosureClosed(s, id);
    if id in Chain(Budgets(s), ROOT) { RootNotBelow(Budgets(s), id); }
    if id in Chain(Budgets(s), UNASSIGNED) { UnassignedStays(s, id); }
    ShapeRemove(s, Closure(s, id));
  }

  lemma RootNotBelow(pm: Parents, x: Id)
    requires Tree(pm) && x in Chain(pm, ROOT)
    ensures x == ROOT
  {
    ChainStep(pm, ROOT);
  }

  lemma UnassignedStays(s: Store, x: Id)
    requires Shaped(s) && x in Chain(Budgets(s), UNASSIGNED)
    ensures x == ROOT || x == UNASSIGNED
  {
    ChainStep(Budgets(s), UNASSIGNED);
    ChainStep(Budgets(s), ROOT);
  }

  // ── Moves ───────────────────────────────────────────────────────────────────

  lemma MoveFacts(cfg: Config, s: Store, c: Caller, id: Id, target: Id)
    requires Move(cfg, s, c, id, target).Ok?
    ensures id in s && target in s && id != ROOT && id != UNASSIGNED
    ensures s[target].kind == Budget && s[target].status == Approved
    ensures id !in Chain(Budgets(s), target) && Live(s[id].status)
    ensures MoveFits(cfg, s, id, target) && AllocationsAfterMoveOk(s, id, target)
    ensures Move(cfg, s, c, id, target).value
            == MoveCarried(MoveWritten(s, id, target, c.now), id, MoveBound(s, s[id], target, c.now), c.now)
  {
  }

  lemma MovedNodeKeeps(s: Store, n: Node, target: Id, now: Time)
    ensures var m := MovedNode(s, n, target, now);
            && m.kind == n.kind && m.status == n.status && m.limit == n.limit && m.inherits == n.inherits
            && m.allocations == n.allocations && m.parent == Some(target) && m.side == n.side
            && m.owner == n.owner && m.members == n.members && m.policy == n.policy
  {
  }

  /** The move itself leaves a tree, before anything is carried down. */
  lemma ShapeMoved(s: Store, id: Id, target: Id, now: Time)
    requires Shaped(s) && id in s && target in s && id != ROOT && id != UNASSIGNED
    requires s[target].kind == Budget && s[target].status == Approved && id !in Chain(Budgets(s), target)
    ensures Relocated(s, MoveWritten(s, id, target, now), id, target)
    ensures Shaped(MoveWritten(s, id, target, now))
  {
    MovedNodeKeeps(s, s[id], target, now);
    assert forall x :: x in s ==> OwnShape(s[x]);
    ShapeRelocate(s, MoveWritten(s, id, target, now), id, target);
  }

  lemma ShapeMove(cfg: Config, s: Store, c: Caller, id: Id, target: Id)
    requires Shaped(s) && Move(cfg, s, c, id, target).Ok?
    ensures id in s && Shaped(MoveWritten(s, id, target, c.now))
    ensures InPlace(MoveWritten(s, id, target, c.now), Move(cfg, s, c, id, target).value)
    ensures Shaped(Move(cfg, s, c, id, target).value)
  {
    MoveFacts(cfg, s, c, id, target);
    ShapeMoved(s, id, target, c.now);
    var t := MoveWritten(s, id, target, c.now);
    CarriedInPlace(t, id, MoveBound(s, s[id], target, c.now), c.now);
    ShapeInPlace(t, Move(cfg, s, c, id, target).value);
  }

  lemma CarriedInPlace(s: Store, id: Id, bound: Option<Time>, now: Time)
    requires id in s && forall x :: x in s ==> OwnShape(s[x])
    ensures InPlace(s, MoveCarried(s, id, bound, now))
  {
    if s[id].kind == Budget {
      var t := s;
      if bound.Some? {
        CascadeEndsInPlace(s, id, bound.value);
        t := CascadeEnds(s, id, bound.value);
      }
      if s[id].maxTerm.Some? {
        CascadeTermsInPlace(t, id, s[id].maxTerm.value, now);
        InPlaceTransitive(s, t, CascadeTerms(t, id, s[id].maxTerm.value, now));
      }
    }
  }

  /** A project that waits for its adoption hangs under the budget that is to have it. */
  lemma ShapePromote(cfg: Config, s: Store, c: Caller, id: Id, req: PromoteRequest)
    requires Shaped(s) && Promote(cfg, s, c, id, req).Ok?
    ensures id in s && s[id].kind == Project
    ensures Relocated(s, Promote(cfg, s, c, id, req).value, id, req.parent)
    ensures Shaped(Promote(cfg, s, c, id, req).value)
    ensures Budgets(Promote(cfg, s, c, id, req).value) == Budgets(s)
  {
    PromoteFacts(cfg, s, c, id, req);
    assert OwnShape(s[id]);
    ShapeLeafMoves(s, id, PromotedNode(s, s[id], req, c.now), req.parent);
  }

  lemma ShapeLeafMoves(s: Store, id: Id, n: Node, target: Id)
    requires Shaped(s) && id in s && s[id].kind == Project && n.kind == Project && n.parent == Some(target)
    requires target in s && s[target].kind == Budget && Active(s[target].status)
    ensures Relocated(s, Put(s, id, n), id, target)
    ensures Shaped(Put(s, id, n)) && Budgets(Put(s, id, n)) == Budgets(s)
  {
    assert forall x :: x in s ==> OwnShape(s[x]);
    LeafAboveNothing(s, id, target);
    ShapeRelocate(s, Put(s, id, n), id, target);
  }

  /** No project is on a chain. */
  lemma LeafAboveNothing(s: Store, x: Id, b: Id)
    requires x in s && s[x].kind == Project
    ensures x !in Chain(Budgets(s), b)
  {
    if x in Chain(Budgets(s), b) { ChainIn(Budgets(s), x, b); }
  }

  // ── Reports and rewrites ────────────────────────────────────────────────────

  /** Reports only ever remove projects nobody relies on any more, and keep every other node where
      it is. */
  lemma ReportedNode(n: Node, w: Report)
    requires OwnShape(n)
    ensures Reported(n, w).None? ==> n.kind == Project && !Active(n.status)
    ensures Reported(n, w).Some? ==>
      SamePlace(n, Reported(n, w).value) && Replaces(n, Reported(n, w).value)
      && Reported(n, w).value.inherits == n.inherits
  {
  }

  lemma ShapeReport(s: Store, w: Report)
    requires Shaped(s) && ReportEnabled(s, w)
    ensures Shaped(ApplyReport(s, w)) && Budgets(ApplyReport(s, w)) == Budgets(s)
  {
    if w.AddImport? {
      ShapeAdd(s, w.id, ImportedNode(w.limit, w.members));
    } else if w.id in s {
      assert forall x :: x in s ==> OwnShape(s[x]);
      ReportedNode(s[w.id], w);
      var o := Reported(s[w.id], w);
      if o.None? {
        ShapeRemove(s, {w.id});
        assert Budgets(s) - {w.id} == Budgets(s);
      } else {
        WrittenInPlace(s, w.id, o.value);
        ShapeInPlace(s, s[w.id := o.value]);
      }
    }
  }

  lemma ShapeGrantRoot(s: Store, r: Rid)
    requires Shaped(s)
    ensures InPlace(s, AdoptAvailability(s, r)) && Shaped(AdoptAvailability(s, r))
  {
    assert forall x :: x in s ==> OwnShape(s[x]);
    WrittenInPlace(s, ROOT, s[ROOT].(limit := s[ROOT].limit[r := 1]));
    ShapeInPlace(s, AdoptAvailability(s, r));
  }

  lemma ShapeRewrite(s: Store, w: Rewrite)
    requires Shaped(s)
    ensures InPlace(s, RewriteAll(s, w)) && Shaped(RewriteAll(s, w))
  {
    RewriteInPlace(s, w);
    ShapeInPlace(s, RewriteAll(s, w));
  }

  lemma RewriteInPlace(s: Store, w: Rewrite)
    requires forall x :: x in s ==> OwnShape(s[x])
    ensures InPlace(s, RewriteAll(s, w))
  {
  }

  /** The operations that leave every node where it is. */
  predicate StaysInPlace(op: Op) {
    op.OpUpdate? || op.OpChange? || op.OpApprove? || op.OpReject? || op.OpRelease? || op.OpTransfer? || op.OpAllocate?
  }

  lemma InPlaceNext(cfg: Config, s: Store, c: Caller, op: Op)
    requires Shaped(s) && Enabled(cfg, s, op) && OutcomeOf(cfg, s, c, op).Ok? && StaysInPlace(op)
    ensures InPlace(s, Next(cfg, s, c, op))
  {
    match op
    case OpUpdate(id, req) => UpdateInPlace(cfg, s, c, id, req);
    case OpChange(id, req) => ChangeInPlace(cfg, s, c, id, req);
    case OpApprove(id, req) => ApproveInPlace(cfg, s, c, id, req);
    case OpReject(id) => RejectInPlace(s, c, id);
    case OpRelease(id, d, e) => ReleaseInPlace(s, c, id, d, e);
    case OpTransfer(id, owner) => TransferInPlace(s, c, id, owner);
    case OpAllocate(id, b, q) => AllocateInPlace(cfg, s, c, id, b, q);
  }

  /** Whatever happens, the tree stays a tree: one root, everything reaching it over active budgets. */
  lemma ShapeNext(cfg: Config, s: Store, c: Caller, op: Op)
    requires Shaped(s) && Enabled(cfg, s, op)
    ensures Shaped(Next(cfg, s, c, op))
  {
    if OutcomeOf(cfg, s, c, op).Ok? {
      if StaysInPlace(op) {
        InPlaceNext(cfg, s, c, op);
        ShapeInPlace(s, Next(cfg, s, c, op));
      } else {
        ShapeNextElse(cfg, s, c, op);
      }
    }
  }

  lemma ShapeNextElse(cfg: Config, s: Store, c: Caller, op: Op)
    requires Shaped(s) && Enabled(cfg, s, op) && OutcomeOf(cfg, s, c, op).Ok? && !StaysInPlace(op)
    ensures Shaped(Next(cfg, s, c, op))
  {
    match op
    case OpCreate(id, req) => ShapeCreate(cfg, s, c, id, req);
    case OpDelete(id) => ShapeDelete(s, c, id);
    case OpMove(id, target) => ShapeMove(cfg, s, c, id, target);
    case OpPromote(id, req) => ShapePromote(cfg, s, c, id, req);
    case OpRewrite(w) => assert Next(cfg, s, c, op) == RewriteAll(s, w); ShapeRewrite(s, w);
    case OpGrantRoot(r) => ShapeGrantRoot(s, r);
    case OpReport(w) => ShapeReport(s, w);
  }
}
