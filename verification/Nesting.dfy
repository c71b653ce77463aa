/** No budget allows more than the budget that binds above it - but where a limit is set without a look at
    those below, and exactly then (validateChildBudgetLimit in internal/core/tree/rule_limits.go). */
module Nesting {
  import opened Model
  import opened Chains
  import opened Charges
  import opened Rules
  import opened Steps
  import opened Reports
  import opened Runs
  import opened Shape
  import opened Values
  import opened Sources
  import opened Locality
  import opened Bindings
  import opened Availabilities
  import opened Holdings

  /** limit fits the budget that binds at p. */
  ghost predicate FitsUnder(cfg: Config, s: Store, p: Id, limit: Quota) {
    var b := Binder(s, p);
    b.Some? && b.value in s && ChildFits(cfg, s[b.value].limit, limit)
  }

  /** An active budget with a limit of its own fits the one that binds above it. */
  ghost predicate NestedNode(cfg: Config, s: Store, n: Node) {
    n.kind == Budget && Active(n.status) && !n.inherits ==>
      ZeroOrOne(cfg, n.limit) && (n.parent.Some? ==> FitsUnder(cfg, s, n.parent.value, n.limit))
  }

  ghost predicate Nested(cfg: Config, s: Store) {
    forall id {:trigger NestedNode(cfg, s, s[id])} :: id in s ==> NestedNode(cfg, s, s[id])
  }

  /** An active budget with a limit of its own that x binds, or would bind if it had a limit. */
  ghost predicate BoundThrough(s: Store, n: Node, x: Id) {
    n.kind == Budget && Active(n.status) && !n.inherits && n.parent.Some? && Reaches(s, x, n.parent.value)
  }

  /** What binds at x in t is enough for all budgets bound through x. */
  ghost predicate Covers(cfg: Config, s: Store, t: Store, x: Id) {
    forall y {:trigger BoundThrough(s, s[y], x)} ::
      y in s && BoundThrough(s, s[y], x) ==> FitsUnder(cfg, t, x, s[y].limit)
  }

  // ── Keeping it ──────────────────────────────────────────────────────────────

  /** No budget binds otherwise than before, and none comes into force. */
  lemma NestedSame(cfg: Config, s: Store, t: Store)
    requires Nested(cfg, s) && Shaped(t) && BudgetsWithin(s, t) && t.Keys <= s.Keys
    requires forall b {:trigger t[b]} ::
      b in Budgets(t) ==> s[b].kind == Budget && (Active(t[b].status) ==> Active(s[b].status))
    ensures Nested(cfg, t)
  {
    forall y | y in t ensures NestedNode(cfg, t, t[y]) {
      if y in Budgets(t) {
        assert NestedNode(cfg, s, s[y]) && SameBudget(s[y], t[y]) && Hangs(t, t[y]);
        if t[y].parent.Some? { StillFits(cfg, s, t, t[y].parent.value, t[y].limit); }
      }
    }
  }

  lemma StillFits(cfg: Config, s: Store, t: Store, p: Id, limit: Quota)
    requires BudgetsWithin(s, t) && Shaped(t) && p in Budgets(t)
    ensures FitsUnder(cfg, t, p, limit) <==> FitsUnder(cfg, s, p, limit)
  {
    BindWithin(s, t, p);
    BindSome(t, p);
    assert SameBudget(s[Binder(t, p).value], t[Binder(t, p).value]);
  }

  /** A project is written, added or gone. */
  lemma NestedProjects(cfg: Config, s: Store, t: Store)
    requires Nested(cfg, s) && Shaped(s) && Shaped(t) && Budgets(t).Keys == Budgets(s).Keys
    requires forall b {:trigger t[b]} :: b in Budgets(s) ==>
      SameBudget(s[b], t[b]) && (Active(t[b].status) ==> Active(s[b].status))
    ensures Nested(cfg, t)
  {
    forall y | y in t ensures NestedNode(cfg, t, t[y]) {
      if y in Budgets(t) {
        assert NestedNode(cfg, s, s[y]) && SameBudget(s[y], t[y]) && Hangs(t, t[y]);
        if t[y].parent.Some? { StillFits(cfg, s, t, t[y].parent.value, t[y].limit); }
      }
    }
  }

  /** One budget is written, with another limit, inheriting or not, or elsewhere: every budget fits exactly if
      those bound through it fit what binds there now. */
  lemma NestedOneExact(cfg: Config, s: Store, t: Store, x: Id)
    requires Nested(cfg, s) && Shaped(s) && Shaped(t) && OneBudget(s, t, x) && t.Keys == s.Keys
    requires forall y {:trigger t[y]} :: y in s && y != x ==> t[y] == s[y]
    requires NestedNode(cfg, t, t[x])
    ensures Nested(cfg, t) <==> Covers(cfg, s, t, x)
  {
    if Covers(cfg, s, t, x) {
      forall y | y in t ensures NestedNode(cfg, t, t[y]) {
        if y != x { StillNested(cfg, s, t, x, y); }
      }
    }
    if Nested(cfg, t) {
      forall y | y in s && BoundThrough(s, s[y], x) ensures FitsUnder(cfg, t, x, s[y].limit) {
        NotBoundByItself(s, x, y);
        assert NestedNode(cfg, t, t[y]) && Hangs(s, s[y]);
        BindOnward(s, t, x, s[y].parent.value);
      }
    }
  }

  lemma NotBoundByItself(s: Store, x: Id, y: Id)
    requires Shaped(s) && x in Budgets(s) && y in s && BoundThrough(s, s[y], x)
    ensures y != x && Active(s[x].status)
  {
    var p := s[y].parent.value;
    assert Hangs(s, s[y]);
    ReachesBelow(s, x, p);
    ChainActive(s, p);
    ChainStep(Budgets(s), y);
    assert Budgets(s)[y] == s[y].parent;
    if x == y { ChainAcyclic(Budgets(s), y, p); }
  }

  lemma StillNested(cfg: Config, s: Store, t: Store, x: Id, y: Id)
    requires Nested(cfg, s) && Shaped(s) && Shaped(t) && OneBudget(s, t, x) && Covers(cfg, s, t, x)
    requires y in s && y in t && y != x && t[y] == s[y]
    ensures NestedNode(cfg, t, t[y])
  {
    assert NestedNode(cfg, s, s[y]) && Hangs(s, s[y]);
    if s[y].kind == Budget && Active(s[y].status) && !s[y].inherits && s[y].parent.Some? {
      var p := s[y].parent.value;
      BindOnward(s, t, x, p);
      if Reaches(s, x, p) {
        assert BoundThrough(s, s[y], x);
      } else {
        BindSome(s, p);
        assert SameBudget(s[Binder(s, p).value], t[Binder(s, p).value]);
      }
    }
  }

  // ── A budget in its place ───────────────────────────────────────────────────

  /** A limit that passed the check fits above. */
  lemma CheckedFits(cfg: Config, s: Store, x: Id, p: Id, limit: Quota, inForce: bool)
    requires Shaped(s) && p in Budgets(s) && BudgetLimitOk(cfg, s, x, Chain(Budgets(s), p), limit, inForce)
    ensures FitsUnder(cfg, s, p, limit) && ZeroOrOne(cfg, limit)
  {
    BindSome(s, p);
  }

  lemma WrittenNested(cfg: Config, s: Store, t: Store, x: Id, inForce: bool)
    requires BudgetWritten(s, t, x) && Nested(cfg, s)
    requires t[x].inherits || LimitKept(s[x], t[x]) || BudgetLimitOk(cfg, s, x, Above(s, s[x]), t[x].limit, inForce)
    ensures NestedNode(cfg, t, t[x])
  {
    WrittenInPlaceFacts(s, t, x);
    assert NestedNode(cfg, s, s[x]);
    if !t[x].inherits && Active(t[x].status) && s[x].parent.Some? {
      if BudgetLimitOk(cfg, s, x, Above(s, s[x]), t[x].limit, inForce) {
        CheckedFits(cfg, s, x, s[x].parent.value, t[x].limit, inForce);
      }
      FitsAboveUnchanged(cfg, s, t, x, t[x].limit);
    }
  }

  lemma FitsAboveUnchanged(cfg: Config, s: Store, t: Store, x: Id, limit: Quota)
    requires BudgetWritten(s, t, x) && s[x].parent.Some?
    ensures FitsUnder(cfg, t, s[x].parent.value, limit) <==> FitsUnder(cfg, s, s[x].parent.value, limit)
  {
    WrittenInPlaceFacts(s, t, x);
  }

  /** A budget bound through x is beyond limit. */
  ghost predicate Exceeded(cfg: Config, s: Store, x: Id, limit: Quota) {
    exists y {:trigger BoundThrough(s, s[y], x)} ::
      y in s && BoundThrough(s, s[y], x) && !ChildFits(cfg, limit, s[y].limit)
  }

  /** Written with a limit of its own, a budget covers those below exactly if none is beyond it. */
  lemma OwnLimitCovers(cfg: Config, s: Store, t: Store, x: Id)
    requires BudgetWritten(s, t, x) && !t[x].inherits
    ensures Covers(cfg, s, t, x) <==> !Exceeded(cfg, s, x, t[x].limit)
  {
    WrittenInPlaceFacts(s, t, x);
    BindStep(t, x);
  }

  lemma FitsOn(cfg: Config, a: Quota, b: Quota, c: Quota)
    requires ChildFits(cfg, a, b) && ChildFits(cfg, b, c)
    ensures ChildFits(cfg, a, c)
  {
  }

  /** A budget that inherits passes on what binds above it, which is no less. */
  lemma InheritingCovers(cfg: Config, s: Store, t: Store, x: Id)
    requires BudgetWritten(s, t, x) && Nested(cfg, s) && t[x].inherits
    ensures Covers(cfg, s, t, x)
  {
    WrittenInPlaceFacts(s, t, x);
    assert NestedNode(cfg, s, s[x]);
    assert x != ROOT && Budgets(s)[x] == s[x].parent;
    var p := s[x].parent.value;
    BindStep(s, x);
    BindStep(t, x);
    BindSome(s, p);
    assert SameBudget(s[Binder(s, p).value], t[Binder(s, p).value]);
    forall y | y in s && BoundThrough(s, s[y], x) ensures FitsUnder(cfg, t, x, s[y].limit) {
      NotBoundByItself(s, x, y);
      assert NestedNode(cfg, s, s[y]) && Hangs(s, s[y]);
      BindOnward(s, t, x, s[y].parent.value);
      if !s[x].inherits { FitsOn(cfg, s[Binder(s, p).value].limit, s[x].limit, s[y].limit); }
    }
  }

  // ── Operations ──────────────────────────────────────────────────────────────

  lemma NestedBounds(cfg: Config, s: Store, t: Store)
    requires Shaped(s) && Shaped(t) && OnlyBounds(s, t)
    ensures Nested(cfg, s) <==> Nested(cfg, t)
  {
    forall x | x in s ensures SameBudget(s[x], t[x]) && SameBudget(t[x], s[x]) && t[x].kind == s[x].kind {
      assert SameButBounds(s[x], t[x]);
    }
    forall x | x in s ensures t[x].status == s[x].status { assert SameButBounds(s[x], t[x]); }
    if Nested(cfg, s) { NestedProjects(cfg, s, t); }
    if Nested(cfg, t) { NestedProjects(cfg, t, s); }
  }

  /** The edit sets a limit that a budget bound through it exceeds. */
  ghost predicate ExceededByUpdate(cfg: Config, s: Store, id: Id, req: UpdateRequest) {
    && id in Budgets(s) && !Inherits(s[id], req)
    && Exceeded(cfg, s, id, LimitAfterEdit(s, s[id], Above(s, s[id]), req))
  }

  lemma NestedUpdateExact(cfg: Config, s: Store, c: Caller, id: Id, req: UpdateRequest)
    requires Nested(cfg, s) && Update(cfg, s, c, id, req).Ok? && Trees(s, Update(cfg, s, c, id, req).value)
    ensures Nested(cfg, Update(cfg, s, c, id, req).value) <==> !ExceededByUpdate(cfg, s, id, req)
  {
    UpdateFacts(cfg, s, c, id, req);
    EditedInPlace(cfg, s, id, req);
    var e := Edited(s, s[id], Above(s, s[id]), req);
    var t := Put(s, id, e);
    ShapeInPlace(s, t);
    OnlyBoundsCarriedDown(t, id, req, c.now);
    NestedBounds(cfg, t, CarriedDown(t, id, req, c.now));
    if s[id].kind == Project { NestedProjects(cfg, s, t); } else { NestedEditedExact(cfg, s, id, req); }
  }

  lemma NestedEditedExact(cfg: Config, s: Store, id: Id, req: UpdateRequest)
    requires Nested(cfg, s) && id in Budgets(s) && LimitEditOk(cfg, s, id, Above(s, s[id]), req)
    requires BudgetWritten(s, Put(s, id, Edited(s, s[id], Above(s, s[id]), req)), id)
    ensures Nested(cfg, Put(s, id, Edited(s, s[id], Above(s, s[id]), req))) <==> !ExceededByUpdate(cfg, s, id, req)
  {
    var t := Put(s, id, Edited(s, s[id], Above(s, s[id]), req));
    WrittenInPlaceFacts(s, t, id);
    if s[id].inherits && !t[id].inherits { StopsWithLimit(s, id, req); }
    WrittenNested(cfg, s, t, id, true);
    NestedOneExact(cfg, s, t, id);
    if t[id].inherits { InheritingCovers(cfg, s, t, id); } else { OwnLimitCovers(cfg, s, t, id); }
  }

  /** So does the approval of a change. */
  ghost predicate ExceededByApproval(cfg: Config, s: Store, id: Id, req: ApproveRequest) {
    id in Budgets(s) && !s[id].inherits && Exceeded(cfg, s, id, FinalLimit(s[id], req))
  }

  lemma NestedApproveExact(cfg: Config, s: Store, c: Caller, id: Id, req: ApproveRequest)
    requires Nested(cfg, s) && Approve(cfg, s, c, id, req).Ok? && Trees(s, Approve(cfg, s, c, id, req).value)
    ensures Nested(cfg, Approve(cfg, s, c, id, req).value) <==> !ExceededByApproval(cfg, s, id, req)
  {
    ApproveFacts(cfg, s, c, id, req);
    DecidedTrees(s, id, req, c.now);
    NestedDecidedExact(cfg, s, id, req, c.now);
    var d := Decided(s, s[id], req, c.now);
    var t := Put(s, id, d);
    if s[id].kind == Budget && d.end.Some? {
      OnlyBoundsByCascades(t, id, d.end.value, 0, c.now);
      NestedBounds(cfg, t, CascadeEnds(t, id, d.end.value));
    }
  }

  lemma NestedDecidedExact(cfg: Config, s: Store, id: Id, req: ApproveRequest, now: Time)
    requires Nested(cfg, s) && id in s && GrantOk(cfg, s, id, FinalLimit(s[id], req))
    requires s[id].status == Pending || s[id].status == ChangePending
    requires Trees(s, Put(s, id, Decided(s, s[id], req, now)))
    ensures Nested(cfg, Put(s, id, Decided(s, s[id], req, now))) <==> !ExceededByApproval(cfg, s, id, req)
  {
    var d := Decided(s, s[id], req, now);
    if s[id].kind == Project {
      NestedProjects(cfg, s, Put(s, id, d));
    } else {
      NestedGrantedExact(cfg, s, Put(s, id, d), id);
    }
  }

  lemma NestedGrantedExact(cfg: Config, s: Store, t: Store, id: Id)
    requires Nested(cfg, s) && BudgetWritten(s, t, id) && t[id].inherits == s[id].inherits
    requires !s[id].inherits ==> BudgetLimitOk(cfg, s, id, Above(s, s[id]), t[id].limit, s[id].status == ChangePending)
    ensures Nested(cfg, t) <==> t[id].inherits || !Exceeded(cfg, s, id, t[id].limit)
  {
    WrittenInPlaceFacts(s, t, id);
    WrittenNested(cfg, s, t, id, s[id].status == ChangePending);
    NestedOneExact(cfg, s, t, id);
    if t[id].inherits { InheritingCovers(cfg, s, t, id); } else { OwnLimitCovers(cfg, s, t, id); }
  }

  lemma NestedCreate(cfg: Config, s: Store, c: Caller, id: Id, req: CreateRequest)
    requires Nested(cfg, s) && id !in s && Create(cfg, s, c, id, req).Ok? && Trees(s, Create(cfg, s, c, id, req).value)
    ensures Nested(cfg, Create(cfg, s, c, id, req).value)
  {
    var n := CreatedNode(cfg, s, c, id, req);
    var t := s[id := n];
    if n.kind == Project {
      NestedProjects(cfg, s, t);
    } else {
      if n.status == Approved && !n.inherits { CheckedFits(cfg, s, id, req.parent, n.limit, false); }
      NestedNew(cfg, s, id, n);
    }
  }

  lemma NestedNew(cfg: Config, s: Store, id: Id, n: Node)
    requires Nested(cfg, s) && id !in s && Trees(s, s[id := n])
    requires n.kind == Budget && n.parent.Some? && n.parent.value in s
    requires s[n.parent.value].kind == Budget && NestedNode(cfg, s, n)
    ensures Nested(cfg, s[id := n])
  {
    var t := s[id := n];
    SameBudgetsWithin(t, s);
    forall y | y in t ensures NestedNode(cfg, t, t[y]) {
      if y == id {
        StillFits(cfg, t, s, n.parent.value, n.limit);
      } else {
        assert NestedNode(cfg, s, s[y]) && Hangs(s, s[y]);
        if s[y].kind == Budget && s[y].parent.Some? { StillFits(cfg, t, s, s[y].parent.value, s[y].limit); }
      }
    }
  }

  /** An amended request and a proposal bring no other limit into force. */
  lemma NestedChange(cfg: Config, s: Store, c: Caller, id: Id, req: ChangeRequest)
    requires Nested(cfg, s) && RequestChange(cfg, s, c, id, req).Ok?
    requires Trees(s, RequestChange(cfg, s, c, id, req).value)
    ensures Nested(cfg, RequestChange(cfg, s, c, id, req).value)
  {
    var n := ChangedNode(cfg, s, c, id, req);
    var t := Put(s, id, n);
    if s[id].kind == Budget && s[id].status == Pending { NestedAmended(cfg, s, t, id); }
    else { NestedPut(cfg, s, id, n); }
  }

  lemma NestedAmended(cfg: Config, s: Store, t: Store, id: Id)
    requires Nested(cfg, s) && BudgetWritten(s, t, id) && !Active(s[id].status) && !Active(t[id].status)
    ensures Nested(cfg, t)
  {
    WrittenInPlaceFacts(s, t, id);
    NestedOneExact(cfg, s, t, id);
    forall y {:trigger BoundThrough(s, s[y], id)} | y in s ensures !BoundThrough(s, s[y], id) {
      if BoundThrough(s, s[y], id) {
        NotBoundByItself(s, id, y);
        assert false;
      }
    }
  }

  /** Written in its place, a node that binds as it did and does not come into force. */
  lemma NestedPut(cfg: Config, s: Store, id: Id, n: Node)
    requires Nested(cfg, s) && id in s && Shaped(s) && Shaped(Put(s, id, n)) && n.kind == s[id].kind
    requires n.kind == Budget ==> SameBudget(s[id], n) && (Active(n.status) ==> Active(s[id].status))
    ensures Nested(cfg, Put(s, id, n))
  {
    NestedProjects(cfg, s, Put(s, id, n));
  }

  lemma NestedDelete(cfg: Config, s: Store, c: Caller, id: Id)
    requires Nested(cfg, s) && Delete(s, c, id).Ok? && Trees(s, Delete(s, c, id).value)
    ensures Nested(cfg, Delete(s, c, id).value)
  {
    var t := Delete(s, c, id).value;
    SameBudgetsWithin(s, t);
    NestedSame(cfg, s, t);
  }

  // ── Moves ───────────────────────────────────────────────────────────────────

  lemma NestedMove(cfg: Config, s: Store, c: Caller, id: Id, target: Id)
    requires Nested(cfg, s) && Move(cfg, s, c, id, target).Ok? && Trees(s, Move(cfg, s, c, id, target).value)
    ensures Nested(cfg, Move(cfg, s, c, id, target).value)
  {
    MoveFacts(cfg, s, c, id, target);
    MovedTrees(cfg, s, c, id, target);
    var t := MoveWritten(s, id, target, c.now);
    OnlyBoundsCarried(t, id, MoveBound(s, s[id], target, c.now), c.now);
    NestedBounds(cfg, t, Move(cfg, s, c, id, target).value);
    if s[id].kind == Project { NestedProjects(cfg, s, t); } else { NestedMoved(cfg, s, id, target, t); }
  }

  lemma FitsMoved(cfg: Config, s: Store, t: Store, id: Id, target: Id, limit: Quota)
    requires BudgetMoved(s, t, id, target)
    ensures FitsUnder(cfg, t, target, limit) <==> FitsUnder(cfg, s, target, limit)
    ensures s[id].inherits ==> (FitsUnder(cfg, t, id, limit) <==> FitsUnder(cfg, s, target, limit))
    ensures !s[id].inherits ==> (FitsUnder(cfg, t, id, limit) <==> FitsUnder(cfg, s, id, limit))
  {
    MovedFacts(s, t, id, target);
    BindStep(s, id);
  }

  /** The move checks the budget itself or, where it inherits, all that were bound through it. */
  lemma NestedMoved(cfg: Config, s: Store, id: Id, target: Id, t: Store)
    requires Nested(cfg, s) && BudgetMoved(s, t, id, target) && MoveFits(cfg, s, id, target)
    ensures Nested(cfg, t)
  {
    MovedFacts(s, t, id, target);
    assert NestedNode(cfg, s, s[id]);
    if Active(s[id].status) && !s[id].inherits {
      CheckedFits(cfg, s, id, target, s[id].limit, false);
      FitsMoved(cfg, s, t, id, target, s[id].limit);
    }
    NestedOneExact(cfg, s, t, id);
    forall y | y in s && BoundThrough(s, s[y], id) ensures FitsUnder(cfg, t, id, s[y].limit) {
      BoundFitsMoved(cfg, s, id, target, t, y);
    }
  }

  lemma BoundFitsMoved(cfg: Config, s: Store, id: Id, target: Id, t: Store, y: Id)
    requires Nested(cfg, s) && BudgetMoved(s, t, id, target) && MoveFits(cfg, s, id, target)
    requires y in s && BoundThrough(s, s[y], id)
    ensures FitsUnder(cfg, t, id, s[y].limit)
  {
    NotBoundByItself(s, id, y);
    assert NestedNode(cfg, s, s[y]) && Hangs(s, s[y]);
    var p := s[y].parent.value;
    FitsMoved(cfg, s, t, id, target, s[y].limit);
    if s[id].inherits {
      ReachesBelow(s, id, p);
      BoundChecked(cfg, s, id, target, y);
    } else {
      MovedFacts(s, t, id, target);
      BindOnward(s, t, id, p);
    }
  }

  lemma BoundChecked(cfg: Config, s: Store, id: Id, target: Id, y: Id)
    requires Shaped(s) && id in Budgets(s) && target in Budgets(s) && s[id].inherits && Active(s[id].status)
    requires MoveFits(cfg, s, id, target) && y in s && y != id && BoundThrough(s, s[y], id)
    requires InheritsFrom(s, id, s[y].parent.value)
    ensures FitsUnder(cfg, s, target, s[y].limit)
  {
    assert Hangs(s, s[y]);
    ChainTransitive(Budgets(s), id, s[y].parent.value, s[y].parent.value);
    BelowBudget(s, id, y);
    assert InheritingMoveOk(cfg, s, id, target);
    CheckedFits(cfg, s, y, target, s[y].limit, false);
  }

  // ── Rewrites and reports ────────────────────────────────────────────────────

  lemma FitsRewritten(cfg: Config, w: Rewrite, a: Quota, b: Quota)
    requires ChildFits(cfg, a, b)
    ensures ChildFits(cfg, Rewritten(w, a), Rewritten(w, b))
  {
    forall r | r != w.r ensures Q(Rewritten(w, a), r) == Q(a, r) && Q(Rewritten(w, b), r) == Q(b, r) {
    }
  }

  lemma NestedRewrite(cfg: Config, s: Store, w: Rewrite)
    requires Nested(cfg, s) && Shaped(s)
    ensures Nested(cfg, RewriteAll(s, w))
  {
    var t := RewriteAll(s, w);
    forall y | y in t ensures NestedNode(cfg, t, t[y]) {
      assert NestedNode(cfg, s, s[y]) && Hangs(s, s[y]);
      if s[y].kind == Budget && s[y].parent.Some? {
        var p := s[y].parent.value;
        RewrittenBinder(s, w, p);
        BindSome(s, p);
        if Active(s[y].status) && !s[y].inherits { FitsRewritten(cfg, w, s[Binder(s, p).value].limit, s[y].limit); }
      }
    }
  }

  /** The root gains an availability, and every budget has it once or not at all. */
  lemma NestedGrantRoot(cfg: Config, s: Store, r: Rid)
    requires cfg.Valid() && r in cfg.bools && Nested(cfg, s) && Trees(s, AdoptAvailability(s, r))
    ensures Nested(cfg, AdoptAvailability(s, r))
  {
    var t := AdoptAvailability(s, r);
    assert Budgets(s)[ROOT] == None && NestedNode(cfg, s, s[ROOT]);
    WrittenInPlaceFacts(s, t, ROOT);
    NestedOneExact(cfg, s, t, ROOT);
    BindStep(s, ROOT);
    BindStep(t, ROOT);
    forall y | y in s && BoundThrough(s, s[y], ROOT) ensures FitsUnder(cfg, t, ROOT, s[y].limit) {
      assert NestedNode(cfg, s, s[y]) && Hangs(s, s[y]);
      BindOnward(s, t, ROOT, s[y].parent.value);
      FitsGranted(cfg, s[ROOT].limit, s[y].limit, r);
    }
  }

  lemma FitsGranted(cfg: Config, a: Quota, b: Quota, r: Rid)
    requires ChildFits(cfg, a, b) && ZeroOrOne(cfg, b) && r in cfg.bools
    ensures ChildFits(cfg, a[r := 1], b)
  {
  }

  lemma NestedReport(cfg: Config, s: Store, w: Report)
    requires Nested(cfg, s) && ReportEnabled(s, w) && Trees(s, ApplyReport(s, w))
    ensures Nested(cfg, ApplyReport(s, w))
  {
    if w.AddImport? {
      NestedProjects(cfg, s, s[w.id := ImportedNode(w.limit, w.members)]);
    } else if w.id in s {
      assert OwnShape(s[w.id]);
      if Reported(s[w.id], w).None? { NestedGone(cfg, s, w.id); } else { NestedReported(cfg, s, w.id, w); }
    }
  }

  lemma NestedGone(cfg: Config, s: Store, id: Id)
    requires Nested(cfg, s) && id in s && Shaped(s) && Shaped(s - {id})
    ensures Nested(cfg, s - {id})
  {
    SameBudgetsWithin(s, s - {id});
    NestedSame(cfg, s, s - {id});
  }

  lemma NestedReported(cfg: Config, s: Store, id: Id, w: Report)
    requires Nested(cfg, s) && id in s && Reported(s[id], w).Some? && OwnShape(s[id])
    requires Shaped(s) && Shaped(s[id := Reported(s[id], w).value])
    ensures Nested(cfg, s[id := Reported(s[id], w).value])
  {
    ReportedSame(s[id], w);
    NestedProjects(cfg, s, s[id := Reported(s[id], w).value]);
  }

  lemma ReportedSame(n: Node, w: Report)
    requires OwnShape(n) && Reported(n, w).Some?
    ensures Reported(n, w).value.kind == n.kind
    ensures n.kind == Budget ==> SameBudget(n, Reported(n, w).value) && Reported(n, w).value.status == n.status
  {
  }

  // ── Every step ──────────────────────────────────────────────────────────────

  /** The two requests that set a limit a budget below exceeds. */
  ghost predicate Outgrown(cfg: Config, s: Store, op: Op) {
    || (op.OpUpdate? && ExceededByUpdate(cfg, s, op.id, op.update))
    || (op.OpApprove? && ExceededByApproval(cfg, s, op.id, op.approve))
  }

  lemma NestedPlain(cfg: Config, s: Store, c: Caller, op: Op)
    requires Nested(cfg, s) && OutcomeOf(cfg, s, c, op).Ok? && Trees(s, Next(cfg, s, c, op))
    requires op.OpReject? || op.OpRelease? || op.OpTransfer?
    ensures Nested(cfg, Next(cfg, s, c, op))
  {
    match op
    case OpReject(id) => NestedPut(cfg, s, id, Refused(s[id]));
    case OpRelease(id, d, e) => NestedPut(cfg, s, id, ReleasedNode(s[id], d));
    case OpTransfer(id, owner) => NestedPut(cfg, s, id, HandedOver(s[id], owner));
  }

  lemma NestedDraws(cfg: Config, s: Store, c: Caller, op: Op)
    requires Nested(cfg, s) && OutcomeOf(cfg, s, c, op).Ok? && Trees(s, Next(cfg, s, c, op)) && Draws(op)
    ensures Nested(cfg, Next(cfg, s, c, op))
  {
    match op
    case OpPromote(id, req) =>
      PromoteFacts(cfg, s, c, id, req);
      assert OwnShape(s[id]);
      NestedPut(cfg, s, id, PromotedNode(s, s[id], req, c.now));
    case OpAllocate(id, b, q) =>
      AllocateFacts(cfg, s, c, id, b, q);
      NestedPut(cfg, s, id, Allocated(s[id], b, NonZero(q)));
  }

  /** An accepted operation leaves every budget within the one that binds above it exactly if it is none of the
      two. */
  lemma NestedNextExact(cfg: Config, s: Store, c: Caller, op: Op)
    requires cfg.Valid() && Nested(cfg, s) && Enabled(cfg, s, op) && Trees(s, Next(cfg, s, c, op))
    requires OutcomeOf(cfg, s, c, op).Ok?
    ensures Nested(cfg, Next(cfg, s, c, op)) <==> !Outgrown(cfg, s, op)
  {
    match op
    case OpCreate(id, req) => NestedCreate(cfg, s, c, id, req);
    case OpUpdate(id, req) => NestedUpdateExact(cfg, s, c, id, req);
    case OpChange(id, req) => NestedChange(cfg, s, c, id, req);
    case OpApprove(id, req) => NestedApproveExact(cfg, s, c, id, req);
    case OpDelete(id) => NestedDelete(cfg, s, c, id);
    case OpMove(id, target) => NestedMove(cfg, s, c, id, target);
    case OpReject(_) => NestedPlain(cfg, s, c, op);
    case OpRelease(_, _, _) => NestedPlain(cfg, s, c, op);
    case OpTransfer(_, _) => NestedPlain(cfg, s, c, op);
    case OpPromote(_, _) => NestedDraws(cfg, s, c, op);
    case OpAllocate(_, _, _) => NestedDraws(cfg, s, c, op);
    case OpRewrite(w) => NestedRewrite(cfg, s, w);
    case OpGrantRoot(r) => NestedGrantRoot(cfg, s, r);
    case OpReport(w) => NestedReport(cfg, s, w);
  }
}
