/** Whoever holds an availability has it from a budget that holds it, the one that binds where they stand or
    draw - but for two requests, and exactly then (internal/core/tree/rule_limits.go, op_allocations.go,
    op_lifecycle.go, op_move.go). */
module Holdings {
  import opened Model
  import opened Chains
  import opened Charges
  import opened Rules
  import opened Steps
  import opened Reports
  import opened Runs
  import opened Shape
  import opened Values
  import opened Sources
  import opened Locality
  import opened Bindings
  import opened Availabilities

  /** Budget p provides availability r: the budget that binds there holds it, or it is the root, below which
      projects may hold the whole catalogue. */
  ghost predicate Provides(s: Store, p: Id, r: Rid, leaf: bool) {
    var b := Binder(s, p);
    b.Some? && ((leaf && b.value == ROOT) || (b.value in s && Q(s[b.value].limit, r) == 1))
  }

  /** The node has a limit of its own. */
  predicate HasLimit(n: Node) {
    n.kind == Project || !n.inherits
  }

  /** Active budgets with a limit of their own, and what live projects draw, hold an availability or not. */
  predicate PlainAmounts(cfg: Config, n: Node) {
    && (n.kind == Budget && !n.inherits && Active(n.status) ==> ZeroOrOne(cfg, n.limit))
    && (n.kind == Project && Live(n.status) ==> forall a :: a in n.allocations ==> ZeroOrOne(cfg, a.limit))
  }

  /** What the limit of an active node grants is provided by its budget. */
  ghost predicate LimitBacked(cfg: Config, s: Store, n: Node) {
    Active(n.status) && HasLimit(n) && n.parent.Some? ==>
      forall r :: r in cfg.bools && Q(n.limit, r) == 1 ==> Provides(s, n.parent.value, r, n.kind == Project)
  }

  /** What the allocations of a live project grant is provided by the budgets they come from. */
  ghost predicate DrawsBacked(cfg: Config, s: Store, n: Node) {
    n.kind == Project && Live(n.status) ==>
      forall a, r :: a in n.allocations && r in cfg.bools && Q(a.limit, r) == 1 ==> Provides(s, a.budget, r, true)
  }

  ghost predicate BackedNode(cfg: Config, s: Store, n: Node) {
    PlainAmounts(cfg, n) && LimitBacked(cfg, s, n) && DrawsBacked(cfg, s, n)
  }

  ghost predicate Backed(cfg: Config, s: Store) {
    forall id {:trigger BackedNode(cfg, s, s[id])} :: id in s ==> BackedNode(cfg, s, s[id])
  }

  // ── Who relies on what ──────────────────────────────────────────────────────

  /** n has r from budget b, by its limit where it is no leaf, or as a project does. */
  predicate UsesFrom(n: Node, b: Id, r: Rid, leaf: bool) {
    || (Active(n.status) && HasLimit(n) && n.parent == Some(b) && Q(n.limit, r) == 1 && leaf == (n.kind == Project))
    || (leaf && n.kind == Project && Live(n.status)
        && exists a :: a in n.allocations && a.budget == b && Q(a.limit, r) == 1)
  }

  lemma BackedMeans(cfg: Config, s: Store, n: Node)
    ensures BackedNode(cfg, s, n) <==>
      && PlainAmounts(cfg, n)
      && forall b, r, leaf: bool :: r in cfg.bools && UsesFrom(n, b, r, leaf) ==> Provides(s, b, r, leaf)
  {
    if forall b, r, leaf: bool :: r in cfg.bools && UsesFrom(n, b, r, leaf) ==> Provides(s, b, r, leaf) {
      forall r | Active(n.status) && HasLimit(n) && n.parent.Some? && r in cfg.bools && Q(n.limit, r) == 1
        ensures Provides(s, n.parent.value, r, n.kind == Project)
      {
        assert UsesFrom(n, n.parent.value, r, n.kind == Project);
      }
      forall a, r | n.kind == Project && Live(n.status) && a in n.allocations && r in cfg.bools && Q(a.limit, r) == 1
        ensures Provides(s, a.budget, r, true)
      {
        assert UsesFrom(n, a.budget, r, true);
      }
    }
  }

  /** Whom n has r from stands above it and is active. */
  lemma UsesBudgets(s: Store, x: Id, b: Id, r: Rid, leaf: bool)
    requires Shaped(s) && Sourced(s) && x in s && UsesFrom(s[x], b, r, leaf)
    ensures b in Budgets(s) && Active(s[b].status) && b != x && s[x].parent.Some? && b in Above(s, s[x])
  {
    assert Hangs(s, s[x]) && SourcedNode(Budgets(s), s[x]);
    NotOwnParent(s, x);
    var p := s[x].parent.value;
    ChainOk(Budgets(s), p);
    ChainActive(s, p);
    if s[x].parent != Some(b) {
      var a :| a in s[x].allocations && a.budget == b;
      assert From(Budgets(s), p, a);
    }
  }

  /** n has r through budget x: from x itself, or from budgets inheriting through it. */
  ghost predicate UsesThrough(s: Store, n: Node, x: Id, r: Rid, leaf: bool) {
    exists b :: UsesFrom(n, b, r, leaf) && Reaches(s, x, b)
  }

  /** Whoever has something through x lies strictly below it and, where x has a limit of its own, would be found
      by a withdrawal check. */
  lemma ThroughIsBelow(s: Store, x: Id, y: Id, r: Rid, leaf: bool)
    requires Shaped(s) && Sourced(s) && x in s && y in s && UsesThrough(s, s[y], x, r, leaf)
    ensures x in Budgets(s) && Active(s[x].status) && StrictlyBelow(s, x, y) && HoldsFrom(s, x, s[y], r)
  {
    var b :| UsesFrom(s[y], b, r, leaf) && Reaches(s, x, b);
    UsesBudgets(s, y, b, r, leaf);
    ReachesBelow(s, x, b);
    ChainActive(s, b);
    assert Hangs(s, s[y]);
    ChainTransitive(Budgets(s), x, b, s[y].parent.value);
    assert b in Subtree(s, x) && s[y].parent.value in Subtree(s, x);
    if s[y].kind == Budget { BelowBudget(s, x, y); }
  }

  lemma BelowBudget(s: Store, x: Id, y: Id)
    requires Shaped(s) && y in Budgets(s) && s[y].parent.Some? && x in Chain(Budgets(s), s[y].parent.value)
    ensures StrictlyBelow(s, x, y)
  {
    ChainStep(Budgets(s), y);
    assert Budgets(s)[y] == s[y].parent;
    if x == y { ChainAcyclic(Budgets(s), y, s[y].parent.value); }
  }

  // ── When it is kept ─────────────────────────────────────────────────────────

  /** n relies on no more than m did. */
  predicate ReliesLess(cfg: Config, m: Node, n: Node) {
    && PlainAmounts(cfg, n) && n.kind == m.kind && n.parent == m.parent
    && (Active(n.status) ==>
        Active(m.status) && (HasLimit(n) ==> HasLimit(m))
        && forall r :: r in cfg.bools && Q(n.limit, r) == 1 ==> Q(m.limit, r) == 1)
    && (n.kind == Project && Live(n.status) ==> Live(m.status) && n.allocations == m.allocations)
  }

  lemma LessUsed(cfg: Config, m: Node, n: Node, b: Id, r: Rid, leaf: bool)
    requires ReliesLess(cfg, m, n) && r in cfg.bools && UsesFrom(n, b, r, leaf)
    ensures UsesFrom(m, b, r, leaf)
  {
  }

  /** Where the budgets there are bind as they did, whoever relies on no more than before is backed. */
  lemma BackedWithin(cfg: Config, s: Store, t: Store, x: Id, m: Node)
    requires BackedNode(cfg, s, m) && BudgetsWithin(s, t) && x in t && ReliesLess(cfg, m, t[x])
    requires Shaped(t) && Sourced(t)
    ensures BackedNode(cfg, t, t[x])
  {
    BackedMeans(cfg, s, m);
    forall b, r, leaf: bool | r in cfg.bools && UsesFrom(t[x], b, r, leaf) ensures Provides(t, b, r, leaf) {
      LessUsed(cfg, m, t[x], b, r, leaf);
      UsesBudgets(t, x, b, r, leaf);
      StillProvides(s, t, b, r, leaf);
    }
    BackedMeans(cfg, t, t[x]);
  }

  lemma StillProvides(s: Store, t: Store, b: Id, r: Rid, leaf: bool)
    requires BudgetsWithin(s, t) && b in Budgets(t) && Shaped(t) && Provides(s, b, r, leaf)
    ensures Provides(t, b, r, leaf)
  {
    BindWithin(s, t, b);
    BindSome(t, b);
    assert SameBudget(s[Binder(t, b).value], t[Binder(t, b).value]);
  }

  /** No budget gave anything up, and nobody relies on more. */
  lemma BackedSame(cfg: Config, s: Store, t: Store)
    requires Backed(cfg, s) && BudgetsWithin(s, t) && Shaped(t) && Sourced(t) && t.Keys <= s.Keys
    requires forall x {:trigger t[x]} :: x in t ==> ReliesLess(cfg, s[x], t[x])
    ensures Backed(cfg, t)
  {
    forall x | x in t ensures BackedNode(cfg, t, t[x]) {
      assert BackedNode(cfg, s, s[x]);
      BackedWithin(cfg, s, t, x, s[x]);
    }
  }

  /** A node is written or added that is no budget, or a budget nobody has anything from. */
  lemma BackedWritten(cfg: Config, s: Store, t: Store, id: Id, n: Node)
    requires Shaped(s) && Sourced(s) && Backed(cfg, s) && t == s[id := n] && Shaped(t) && Sourced(t)
    requires BackedNode(cfg, t, n) && BudgetsWithin(t, s)
    ensures Backed(cfg, t)
  {
    forall x | x in t ensures BackedNode(cfg, t, t[x]) {
      if x != id {
        assert BackedNode(cfg, s, s[x]);
        OthersBacked(cfg, s, t, x);
      }
    }
  }

  lemma OthersBacked(cfg: Config, s: Store, t: Store, x: Id)
    requires Shaped(s) && Sourced(s) && BudgetsWithin(t, s) && x in s && x in t && t[x] == s[x]
    requires BackedNode(cfg, s, s[x])
    ensures BackedNode(cfg, t, t[x])
  {
    BackedMeans(cfg, s, s[x]);
    forall b, r, leaf: bool | r in cfg.bools && UsesFrom(s[x], b, r, leaf) ensures Provides(t, b, r, leaf) {
      UsesBudgets(s, x, b, r, leaf);
      BindWithin(t, s, b);
      BindSome(s, b);
      assert SameBudget(t[Binder(s, b).value], s[Binder(s, b).value]);
    }
    BackedMeans(cfg, t, t[x]);
  }

  /** A project is written, relying on what its budgets provide. */
  lemma BackedProject(cfg: Config, s: Store, id: Id, n: Node)
    requires Shaped(s) && Sourced(s) && Backed(cfg, s) && n.kind == Project && (id in s ==> s[id].kind == Project)
    requires BackedNode(cfg, s, n) && Shaped(Put(s, id, n)) && Sourced(Put(s, id, n))
    ensures Backed(cfg, Put(s, id, n))
  {
    var t, m := Put(s, id, n), CapHistory(n);
    assert Budgets(t) == Budgets(s);
    assert BudgetsWithin(t, s) && BudgetsWithin(s, t);
    BackedWithin(cfg, s, t, id, m);
    BackedWritten(cfg, s, t, id, m);
  }

  // ── One budget is another ───────────────────────────────────────────────────

  /** Whatever anybody has through budget x is provided at x in t. */
  ghost predicate CarriedOver(cfg: Config, s: Store, t: Store, x: Id) {
    forall y, r, leaf: bool {:trigger UsesThrough(s, s[y], x, r, leaf)} ::
      y in s && r in cfg.bools && UsesThrough(s, s[y], x, r, leaf) ==> Provides(t, x, r, leaf)
  }

  /** One budget is written, with another limit, inheriting or not, or elsewhere: whoever had an availability
      still has it from a budget holding it exactly if x still provides what anybody has through it. */
  lemma BackedOneExact(cfg: Config, s: Store, t: Store, x: Id)
    requires Shaped(s) && Sourced(s) && Backed(cfg, s) && Shaped(t) && OneBudget(s, t, x)
    requires t.Keys == s.Keys && forall y {:trigger t[y]} :: y in s && y != x ==> t[y] == s[y]
    requires BackedNode(cfg, t, t[x])
    ensures Backed(cfg, t) <==> CarriedOver(cfg, s, t, x)
  {
    if CarriedOver(cfg, s, t, x) {
      forall y | y in t ensures BackedNode(cfg, t, t[y]) {
        if y != x { StillBacked(cfg, s, t, x, y); }
      }
    }
    if Backed(cfg, t) {
      forall y, r, leaf: bool | y in s && r in cfg.bools && UsesThrough(s, s[y], x, r, leaf)
        ensures Provides(t, x, r, leaf)
      {
        ThroughIsBelow(s, x, y, r, leaf);
        assert BackedNode(cfg, t, t[y]);
        NeedsAt(cfg, s, t, x, y, r, leaf);
      }
    }
  }

  lemma StillBacked(cfg: Config, s: Store, t: Store, x: Id, y: Id)
    requires Shaped(s) && Sourced(s) && Backed(cfg, s) && OneBudget(s, t, x) && CarriedOver(cfg, s, t, x)
    requires y in s && y in t && y != x && t[y] == s[y]
    ensures BackedNode(cfg, t, t[y])
  {
    assert BackedNode(cfg, s, s[y]);
    BackedMeans(cfg, s, s[y]);
    forall b, r, leaf: bool | r in cfg.bools && UsesFrom(s[y], b, r, leaf) ensures Provides(t, b, r, leaf) {
      UsesBudgets(s, y, b, r, leaf);
      BindOnward(s, t, x, b);
      if Reaches(s, x, b) {
        assert UsesThrough(s, s[y], x, r, leaf);
      } else {
        BindSome(s, b);
        assert SameBudget(s[Binder(s, b).value], t[Binder(s, b).value]);
      }
    }
    BackedMeans(cfg, t, t[y]);
  }

  lemma NeedsAt(cfg: Config, s: Store, t: Store, x: Id, y: Id, r: Rid, leaf: bool)
    requires Shaped(s) && Sourced(s) && OneBudget(s, t, x) && y in s && y in t && t[y] == s[y]
    requires r in cfg.bools && UsesThrough(s, s[y], x, r, leaf) && BackedNode(cfg, t, t[y])
    ensures Provides(t, x, r, leaf)
  {
    var b :| UsesFrom(s[y], b, r, leaf) && Reaches(s, x, b);
    UsesBudgets(s, y, b, r, leaf);
    BackedMeans(cfg, t, t[y]);
    BindOnward(s, t, x, b);
  }

  // ── Limits ──────────────────────────────────────────────────────────────────

  /** What binds at an active budget is active, and holds availabilities or not. */
  lemma BinderPlain(cfg: Config, s: Store, p: Id)
    requires Shaped(s) && Backed(cfg, s) && p in Budgets(s) && Active(s[p].status)
    ensures Binder(s, p).Some? && Binder(s, p).value in Budgets(s)
    ensures ZeroOrOne(cfg, s[Binder(s, p).value].limit)
  {
    BindSome(s, p);
    ChainActive(s, p);
    assert BackedNode(cfg, s, s[Binder(s, p).value]);
  }

  /** A limit a project may have under p is backed there. */
  lemma LeafBacked(cfg: Config, s: Store, n: Node, p: Id, allocs: seq<Allocation>)
    requires Shaped(s) && Backed(cfg, s) && p in Budgets(s) && Active(s[p].status)
    requires n.kind == Project && n.parent == Some(p) && LeafLimitOk(cfg, s, allocs, Chain(Budgets(s), p), n.limit)
    ensures LimitBacked(cfg, s, n)
  {
    BinderPlain(cfg, s, p);
    var b := Binder(s, p).value;
    forall r | r in cfg.bools && Q(n.limit, r) == 1 ensures Provides(s, p, r, true) {
      assert b == ROOT || Holds1(s[b].limit, r);
    }
  }

  /** So is one a budget may have. */
  lemma BudgetBacked(cfg: Config, s: Store, n: Node, p: Id, x: Id, inForce: bool)
    requires Shaped(s) && Backed(cfg, s) && p in Budgets(s) && Active(s[p].status)
    requires n.kind == Budget && n.parent == Some(p) && BudgetLimitOk(cfg, s, x, Chain(Budgets(s), p), n.limit, inForce)
    ensures LimitBacked(cfg, s, n) && ZeroOrOne(cfg, n.limit)
  {
    BinderPlain(cfg, s, p);
    forall r | r in cfg.bools && Q(n.limit, r) == 1 ensures Provides(s, p, r, false) {
      assert r in cfg.counts + cfg.bools;
    }
  }

  /** Whatever anybody has through x is provided there now. */
  lemma ProvidedThrough(cfg: Config, s: Store, x: Id, y: Id, r: Rid, leaf: bool)
    requires Shaped(s) && Sourced(s) && Backed(cfg, s) && x in Budgets(s) && y in s && r in cfg.bools
    requires UsesThrough(s, s[y], x, r, leaf)
    ensures Provides(s, x, r, leaf) && Active(s[x].status)
  {
    ThroughIsBelow(s, x, y, r, leaf);
    assert BackedNode(cfg, s, s[y]);
    NeedsAt(cfg, s, s, x, y, r, leaf);
  }

  // ── A budget in its place ───────────────────────────────────────────────────

  /** The write of a budget in its place, as it is stored. */
  ghost predicate BudgetWritten(s: Store, t: Store, x: Id) {
    && Shaped(s) && Sourced(s) && Shaped(t) && x in Budgets(s) && t.Keys == s.Keys && SamePlace(s[x], t[x])
    && forall y {:trigger t[y]} :: y in s && y != x ==> t[y] == s[y]
  }

  /** n has the limit m had in force. */
  predicate LimitKept(m: Node, n: Node) {
    n.limit == m.limit && !m.inherits && (Active(n.status) ==> Active(m.status))
  }

  lemma WrittenInPlaceFacts(s: Store, t: Store, x: Id)
    requires BudgetWritten(s, t, x)
    ensures Budgets(t) == Budgets(s) && OneBudget(s, t, x)
    ensures s[x].parent.Some? ==> s[x].parent.value in Budgets(s) && Active(s[s[x].parent.value].status)
    ensures s[x].parent.Some? ==> Binder(t, s[x].parent.value) == Binder(s, s[x].parent.value) != Some(x)
  {
    InPlaceBudgets(s, t);
    assert Hangs(s, s[x]);
    if s[x].parent.Some? {
      var p := s[x].parent.value;
      ChainStep(Budgets(s), x);
      if x in Chain(Budgets(s), p) { ChainAcyclic(Budgets(s), x, p); }
      NotOwnParent(s, x);
      NotThroughAbove(s, x, p);
      BindOnward(s, t, x, p);
    }
  }

  lemma AboveUnchanged(s: Store, t: Store, x: Id, r: Rid, leaf: bool)
    requires BudgetWritten(s, t, x) && s[x].parent.Some?
    ensures Provides(t, s[x].parent.value, r, leaf) <==> Provides(s, s[x].parent.value, r, leaf)
  {
    WrittenInPlaceFacts(s, t, x);
  }

  /** The written budget itself is backed: its limit was checked above, or is what it was. */
  lemma WrittenBacked(cfg: Config, s: Store, t: Store, x: Id, inForce: bool)
    requires BudgetWritten(s, t, x) && Backed(cfg, s)
    requires t[x].inherits || LimitKept(s[x], t[x]) || BudgetLimitOk(cfg, s, x, Above(s, s[x]), t[x].limit, inForce)
    ensures BackedNode(cfg, t, t[x])
  {
    WrittenInPlaceFacts(s, t, x);
    assert BackedNode(cfg, s, s[x]);
    if !t[x].inherits && Active(t[x].status) {
      if s[x].parent.Some? {
        if BudgetLimitOk(cfg, s, x, Above(s, s[x]), t[x].limit, inForce) {
          BudgetBacked(cfg, s, t[x], s[x].parent.value, x, inForce);
        }
        forall r | r in cfg.bools && Q(t[x].limit, r) == 1 ensures Provides(t, s[x].parent.value, r, false) {
          AboveUnchanged(s, t, x, r, false);
        }
      }
    }
  }

  /** With a limit of its own before and after, nothing is lost: what is given up nobody has. */
  lemma OwnLimitCarried(cfg: Config, s: Store, t: Store, x: Id)
    requires BudgetWritten(s, t, x) && Backed(cfg, s) && !s[x].inherits && !t[x].inherits
    requires Active(s[x].status) && t[x].limit != s[x].limit ==> WithdrawalOk(cfg, s, x, t[x].limit)
    ensures CarriedOver(cfg, s, t, x)
  {
    WrittenInPlaceFacts(s, t, x);
    BindStep(s, x);
    BindStep(t, x);
    forall y, r, leaf: bool | y in s && r in cfg.bools && UsesThrough(s, s[y], x, r, leaf)
      ensures Provides(t, x, r, leaf)
    {
      ProvidedThrough(cfg, s, x, y, r, leaf);
      ThroughIsBelow(s, x, y, r, leaf);
    }
  }

  /** A budget that inherits from now on passes on what it held itself, and more. */
  lemma InheritingCarried(cfg: Config, s: Store, t: Store, x: Id)
    requires BudgetWritten(s, t, x) && Backed(cfg, s) && t[x].inherits
    ensures CarriedOver(cfg, s, t, x)
  {
    WrittenInPlaceFacts(s, t, x);
    assert BackedNode(cfg, s, s[x]);
    assert Shaped(t) && x != ROOT;
    assert Budgets(s)[x] == s[x].parent;
    BindStep(s, x);
    BindStep(t, x);
    forall y, r, leaf: bool | y in s && r in cfg.bools && UsesThrough(s, s[y], x, r, leaf)
      ensures Provides(t, x, r, leaf)
    {
      ProvidedThrough(cfg, s, x, y, r, leaf);
      AboveUnchanged(s, t, x, r, leaf);
    }
  }

  /** Somebody has through x what limit does not grant. */
  ghost predicate Withholds(cfg: Config, s: Store, x: Id, limit: Quota) {
    exists y, r, leaf: bool {:trigger UsesThrough(s, s[y], x, r, leaf)} ::
      y in s && r in cfg.bools && UsesThrough(s, s[y], x, r, leaf) && Q(limit, r) != 1
  }

  /** A budget that stops inheriting keeps everybody's availabilities exactly if its limit grants all that
      anybody has through it. */
  lemma StoppedCarried(cfg: Config, s: Store, t: Store, x: Id)
    requires BudgetWritten(s, t, x) && Backed(cfg, s) && s[x].inherits && !t[x].inherits
    ensures CarriedOver(cfg, s, t, x) <==> !Withholds(cfg, s, x, t[x].limit)
  {
    WrittenInPlaceFacts(s, t, x);
    BindStep(t, x);
    assert x != ROOT;
  }

  // ── Writes that keep it ─────────────────────────────────────────────────────

  /** The state s may have, and the next one is a tree with allocations from above again. */
  ghost predicate Trees(s: Store, t: Store) {
    Shaped(s) && Sourced(s) && Shaped(t) && Sourced(t)
  }

  lemma SameBudgetsWithin(s: Store, t: Store)
    requires Shaped(s) && Shaped(t) && Budgets(t).Keys <= Budgets(s).Keys
    requires forall b {:trigger t[b]} :: b in Budgets(t) ==> SameBudget(s[b], t[b])
    ensures BudgetsWithin(s, t)
  {
  }

  /** What is carried down concerns ends and terms alone. */
  lemma BackedBounds(cfg: Config, s: Store, t: Store)
    requires Trees(s, t) && OnlyBounds(s, t)
    ensures Backed(cfg, s) <==> Backed(cfg, t)
  {
    forall x | x in s ensures SameBudget(s[x], t[x]) && SameBudget(t[x], s[x]) && t[x].kind == s[x].kind {
      assert SameButBounds(s[x], t[x]);
    }
    SameBudgetsWithin(s, t);
    SameBudgetsWithin(t, s);
    if Backed(cfg, s) {
      forall x | x in t ensures ReliesLess(cfg, s[x], t[x]) {
        assert SameButBounds(s[x], t[x]) && BackedNode(cfg, s, s[x]);
      }
      BackedSame(cfg, s, t);
    }
    if Backed(cfg, t) {
      forall x | x in s ensures ReliesLess(cfg, t[x], s[x]) {
        assert SameButBounds(s[x], t[x]) && BackedNode(cfg, t, t[x]);
      }
      BackedSame(cfg, t, s);
    }
  }

  /** Written in its place, a node that relies on no more and binds as it did. */
  lemma BackedKept(cfg: Config, s: Store, id: Id, n: Node)
    requires Backed(cfg, s) && id in s && Trees(s, Put(s, id, n)) && ReliesLess(cfg, s[id], n)
    requires s[id].kind == Budget ==> SameBudget(s[id], n)
    ensures Backed(cfg, Put(s, id, n))
  {
    var t := Put(s, id, n);
    SameBudgetsWithin(s, t);
    forall x | x in t ensures ReliesLess(cfg, s[x], t[x]) {
      if x != id { assert BackedNode(cfg, s, s[x]); }
    }
    BackedSame(cfg, s, t);
  }

  // ── Operations ──────────────────────────────────────────────────────────────

  lemma BackedCreate(cfg: Config, s: Store, c: Caller, id: Id, req: CreateRequest)
    requires Backed(cfg, s) && id !in s && Create(cfg, s, c, id, req).Ok? && Trees(s, Create(cfg, s, c, id, req).value)
    ensures Backed(cfg, Create(cfg, s, c, id, req).value)
  {
    var n := CreatedNode(cfg, s, c, id, req);
    if n.kind == Project {
      LeafBacked(cfg, s, n, req.parent, []);
      BackedProject(cfg, s, id, n);
    } else {
      if n.status == Approved && !n.inherits { BudgetBacked(cfg, s, n, req.parent, id, false); }
      BackedNew(cfg, s, id, n);
    }
  }

  lemma BackedNew(cfg: Config, s: Store, id: Id, n: Node)
    requires Backed(cfg, s) && id !in s && Trees(s, s[id := n]) && n.kind == Budget && n.parent.Some?
    requires BackedNode(cfg, s, n)
    ensures Backed(cfg, s[id := n])
  {
    var t := s[id := n];
    SameBudgetsWithin(t, s);
    assert t[id] == n && Hangs(t, t[id]);
    NotOwnParent(t, id);
    BindWithin(t, s, n.parent.value);
    BindSome(s, n.parent.value);
    BackedWritten(cfg, s, t, id, n);
  }

  /** Stops inheriting, and somebody has through it what its limit then does not grant. */
  ghost predicate LapsesByUpdate(cfg: Config, s: Store, id: Id, req: UpdateRequest) {
    && id in Budgets(s) && s[id].inherits && !Inherits(s[id], req)
    && Withholds(cfg, s, id, LimitAfterEdit(s, s[id], Above(s, s[id]), req))
  }

  lemma BackedUpdateExact(cfg: Config, s: Store, c: Caller, id: Id, req: UpdateRequest)
    requires Backed(cfg, s) && Update(cfg, s, c, id, req).Ok? && Trees(s, Update(cfg, s, c, id, req).value)
    ensures Backed(cfg, Update(cfg, s, c, id, req).value) <==> !LapsesByUpdate(cfg, s, id, req)
  {
    UpdateFacts(cfg, s, c, id, req);
    EditedInPlace(cfg, s, id, req);
    var e := Edited(s, s[id], Above(s, s[id]), req);
    var t := Put(s, id, e);
    ShapeInPlace(s, t);
    SourcedKept(s, id, e);
    OnlyBoundsCarriedDown(t, id, req, c.now);
    BackedBounds(cfg, t, CarriedDown(t, id, req, c.now));
    assert BackedNode(cfg, s, s[id]);
    if s[id].kind == Project { BackedKept(cfg, s, id, e); } else { BackedEditedExact(cfg, s, id, req); }
  }

  lemma BackedEditedExact(cfg: Config, s: Store, id: Id, req: UpdateRequest)
    requires Backed(cfg, s) && id in Budgets(s) && LimitEditOk(cfg, s, id, Above(s, s[id]), req)
    requires BudgetWritten(s, Put(s, id, Edited(s, s[id], Above(s, s[id]), req)), id)
    ensures Backed(cfg, Put(s, id, Edited(s, s[id], Above(s, s[id]), req))) <==> !LapsesByUpdate(cfg, s, id, req)
  {
    var t := Put(s, id, Edited(s, s[id], Above(s, s[id]), req));
    WrittenInPlaceFacts(s, t, id);
    if s[id].inherits && !t[id].inherits { StopsWithLimit(s, id, req); }
    WrittenBacked(cfg, s, t, id, true);
    BackedOneExact(cfg, s, t, id);
    if t[id].inherits { InheritingCarried(cfg, s, t, id); }
    else if s[id].inherits { StoppedCarried(cfg, s, t, id); }
    else { OwnLimitCarried(cfg, s, t, id); }
  }

  /** Whoever stops inheriting gets a limit: the one asked for, or the one passed on so far. */
  lemma StopsWithLimit(s: Store, id: Id, req: UpdateRequest)
    requires Shaped(s) && id in Budgets(s) && s[id].inherits && !Inherits(s[id], req)
    ensures EditedLimit(s, s[id], Above(s, s[id]), req) == Some(LimitAfterEdit(s, s[id], Above(s, s[id]), req))
  {
    assert id != ROOT;
    assert Budgets(s)[id] == s[id].parent && Hangs(s, s[id]);
    BindSome(s, s[id].parent.value);
  }

  lemma BackedChange(cfg: Config, s: Store, c: Caller, id: Id, req: ChangeRequest)
    requires Backed(cfg, s) && RequestChange(cfg, s, c, id, req).Ok?
    requires Trees(s, RequestChange(cfg, s, c, id, req).value)
    ensures Backed(cfg, RequestChange(cfg, s, c, id, req).value)
  {
    var n := ChangedNode(cfg, s, c, id, req);
    assert BackedNode(cfg, s, s[id]) && Hangs(s, s[id]);
    if s[id].kind == Project {
      if req.limit.Some? && n.limit == req.limit.value { LeafBacked(cfg, s, n, s[id].parent.value, s[id].allocations); }
      BackedProject(cfg, s, id, n);
    } else if s[id].status == Pending {
      BackedAmended(cfg, s, id, n);
    } else {
      BackedKept(cfg, s, id, n);
    }
  }

  /** Nobody has anything through a budget that is not active. */
  lemma IdleCarried(cfg: Config, s: Store, t: Store, x: Id)
    requires Shaped(s) && Sourced(s) && Backed(cfg, s) && x in Budgets(s) && !Active(s[x].status)
    ensures CarriedOver(cfg, s, t, x)
  {
    forall y, r, leaf: bool {:trigger UsesThrough(s, s[y], x, r, leaf)} | y in s && r in cfg.bools
      ensures !UsesThrough(s, s[y], x, r, leaf)
    {
      if UsesThrough(s, s[y], x, r, leaf) {
        ProvidedThrough(cfg, s, x, y, r, leaf);
        assert false;
      }
    }
  }

  lemma BackedAmended(cfg: Config, s: Store, id: Id, n: Node)
    requires Backed(cfg, s) && id in Budgets(s) && s[id].status == Pending && n.status == Pending && SamePlace(s[id], n)
    requires Trees(s, Put(s, id, n))
    ensures Backed(cfg, Put(s, id, n))
  {
    var t := Put(s, id, n);
    WrittenInPlaceFacts(s, t, id);
    BackedOneExact(cfg, s, t, id);
    IdleCarried(cfg, s, t, id);
  }

  lemma BackedApprove(cfg: Config, s: Store, c: Caller, id: Id, req: ApproveRequest)
    requires Backed(cfg, s) && Approve(cfg, s, c, id, req).Ok? && Trees(s, Approve(cfg, s, c, id, req).value)
    ensures Backed(cfg, Approve(cfg, s, c, id, req).value)
  {
    ApproveFacts(cfg, s, c, id, req);
    DecidedTrees(s, id, req, c.now);
    BackedDecided(cfg, s, id, req, c.now);
    var d := Decided(s, s[id], req, c.now);
    var t := Put(s, id, d);
    if s[id].kind == Budget && d.end.Some? {
      OnlyBoundsByCascades(t, id, d.end.value, 0, c.now);
      BackedBounds(cfg, t, CascadeEnds(t, id, d.end.value));
    }
  }

  lemma DecidedTrees(s: Store, id: Id, req: ApproveRequest, now: Time)
    requires Shaped(s) && Sourced(s) && id in s && (s[id].status == Pending || s[id].status == ChangePending)
    ensures Trees(s, Put(s, id, Decided(s, s[id], req, now)))
  {
    var t := Put(s, id, Decided(s, s[id], req, now));
    DecidedInPlace(s, id, req, now);
    SourcedDecided(s, id, req, now);
    ShapeInPlace(s, t);
  }

  lemma BackedDecided(cfg: Config, s: Store, id: Id, req: ApproveRequest, now: Time)
    requires Backed(cfg, s) && id in s && GrantOk(cfg, s, id, FinalLimit(s[id], req))
    requires s[id].status == Pending || s[id].status == ChangePending
    requires Trees(s, Put(s, id, Decided(s, s[id], req, now)))
    ensures Backed(cfg, Put(s, id, Decided(s, s[id], req, now)))
  {
    var d := Decided(s, s[id], req, now);
    if s[id].kind == Project {
      DecidedProject(cfg, s, id, d);
    } else {
      BackedGranted(cfg, s, Put(s, id, d), id);
    }
  }

  lemma DecidedProject(cfg: Config, s: Store, id: Id, d: Node)
    requires Backed(cfg, s) && id in s && s[id].kind == Project && Live(s[id].status) && Trees(s, Put(s, id, d))
    requires d.kind == Project && d.parent == s[id].parent && d.allocations == s[id].allocations
    requires LeafLimitOk(cfg, s, s[id].allocations, Above(s, s[id]), d.limit)
    ensures Backed(cfg, Put(s, id, d))
  {
    assert BackedNode(cfg, s, s[id]) && Hangs(s, s[id]);
    LeafBacked(cfg, s, d, s[id].parent.value, s[id].allocations);
    BackedProject(cfg, s, id, d);
  }

  lemma BackedGranted(cfg: Config, s: Store, t: Store, id: Id)
    requires Backed(cfg, s) && BudgetWritten(s, t, id) && t[id].inherits == s[id].inherits
    requires !s[id].inherits ==> BudgetLimitOk(cfg, s, id, Above(s, s[id]), t[id].limit, Active(s[id].status))
    ensures Backed(cfg, t)
  {
    WrittenInPlaceFacts(s, t, id);
    WrittenBacked(cfg, s, t, id, Active(s[id].status));
    BackedOneExact(cfg, s, t, id);
    if t[id].inherits { InheritingCarried(cfg, s, t, id); } else { OwnLimitCarried(cfg, s, t, id); }
  }

  lemma BackedDelete(cfg: Config, s: Store, c: Caller, id: Id)
    requires Backed(cfg, s) && Delete(s, c, id).Ok? && Trees(s, Delete(s, c, id).value)
    ensures Backed(cfg, Delete(s, c, id).value)
  {
    BackedWithout(cfg, s, Delete(s, c, id).value);
  }

  /** Nodes go, and what the others rely on stays. */
  lemma BackedWithout(cfg: Config, s: Store, t: Store)
    requires Backed(cfg, s) && Trees(s, t) && t.Keys <= s.Keys && forall x {:trigger t[x]} :: x in t ==> t[x] == s[x]
    ensures Backed(cfg, t)
  {
    SameBudgetsWithin(s, t);
    forall x | x in t ensures ReliesLess(cfg, s[x], t[x]) { assert BackedNode(cfg, s, s[x]); }
    BackedSame(cfg, s, t);
  }

  // ── Moves ───────────────────────────────────────────────────────────────────

  /** Inherits, and somebody has through it what is not provided at the target. */
  ghost predicate LapsesByMove(cfg: Config, s: Store, id: Id, target: Id) {
    && id in Budgets(s) && s[id].inherits
    && exists y, r, leaf: bool {:trigger UsesThrough(s, s[y], id, r, leaf)} ::
         y in s && r in cfg.bools && UsesThrough(s, s[y], id, r, leaf) && !Provides(s, target, r, leaf)
  }

  lemma BackedMoveExact(cfg: Config, s: Store, c: Caller, id: Id, target: Id)
    requires Backed(cfg, s) && Move(cfg, s, c, id, target).Ok? && Trees(s, Move(cfg, s, c, id, target).value)
    ensures Backed(cfg, Move(cfg, s, c, id, target).value) <==> !LapsesByMove(cfg, s, id, target)
  {
    MoveFacts(cfg, s, c, id, target);
    MovedTrees(cfg, s, c, id, target);
    var t := MoveWritten(s, id, target, c.now);
    OnlyBoundsCarried(t, id, MoveBound(s, s[id], target, c.now), c.now);
    BackedBounds(cfg, t, Move(cfg, s, c, id, target).value);
    if s[id].kind == Project { BackedMovedProject(cfg, s, id, target, MovedNode(s, s[id], target, c.now)); }
    else { BackedMovedExact(cfg, s, id, target, t); }
  }

  lemma MovedTrees(cfg: Config, s: Store, c: Caller, id: Id, target: Id)
    requires Shaped(s) && Sourced(s) && Move(cfg, s, c, id, target).Ok?
    ensures id in s && target in Budgets(s) && Active(s[target].status)
    ensures var n, t := MovedNode(s, s[id], target, c.now), MoveWritten(s, id, target, c.now);
            && Trees(s, t) && n.parent == Some(target) && SameHoldings(s[id], n)
            && (s[id].kind == Budget ==> BudgetMoved(s, t, id, target))
  {
    MoveFacts(cfg, s, c, id, target);
    MovedNodeKeeps(s, s[id], target, c.now);
    SourcedMoved(cfg, s, c, id, target);
    ShapeMoved(s, id, target, c.now);
  }

  lemma BackedMovedProject(cfg: Config, s: Store, id: Id, target: Id, n: Node)
    requires Backed(cfg, s) && id in s && s[id].kind == Project && Trees(s, Put(s, id, n))
    requires target in Budgets(s) && Active(s[target].status) && MoveFits(cfg, s, id, target)
    requires n.parent == Some(target) && SameHoldings(s[id], n)
    ensures Backed(cfg, Put(s, id, n))
  {
    assert BackedNode(cfg, s, s[id]);
    if Active(n.status) { LeafBacked(cfg, s, n, target, n.allocations); }
    BackedProject(cfg, s, id, n);
  }

  /** t is s with budget id under target. */
  ghost predicate BudgetMoved(s: Store, t: Store, id: Id, target: Id) {
    && Shaped(s) && Sourced(s) && Shaped(t) && id in Budgets(s) && t.Keys == s.Keys && SameHoldings(s[id], t[id])
    && target in Budgets(s) && Active(s[target].status) && id !in Chain(Budgets(s), target)
    && t[id].parent == Some(target)
    && forall y {:trigger t[y]} :: y in s && y != id ==> t[y] == s[y]
  }

  lemma MovedFacts(s: Store, t: Store, id: Id, target: Id)
    requires BudgetMoved(s, t, id, target)
    ensures OneBudget(s, t, id) && Binder(t, target) == Binder(s, target) && Binder(s, target) != Some(id)
    ensures Binder(t, id) == if s[id].inherits then Binder(s, target) else Some(id)
  {
    assert forall b :: b in Budgets(t) <==> b in Budgets(s);
    NotThroughAbove(s, id, target);
    BindOnward(s, t, id, target);
    BindStep(t, id);
    BindStep(s, id);
  }

  lemma MovedProvides(s: Store, t: Store, id: Id, target: Id, r: Rid, leaf: bool)
    requires BudgetMoved(s, t, id, target)
    ensures Provides(t, target, r, leaf) <==> Provides(s, target, r, leaf)
    ensures s[id].inherits ==> (Provides(t, id, r, leaf) <==> Provides(s, target, r, leaf))
    ensures !s[id].inherits ==> (Provides(t, id, r, leaf) <==> Provides(s, id, r, leaf))
  {
    MovedFacts(s, t, id, target);
    BindStep(s, id);
  }

  lemma BackedMovedExact(cfg: Config, s: Store, id: Id, target: Id, t: Store)
    requires Backed(cfg, s) && BudgetMoved(s, t, id, target) && MoveFits(cfg, s, id, target)
    ensures Backed(cfg, t) <==> !LapsesByMove(cfg, s, id, target)
  {
    MovedFacts(s, t, id, target);
    MovedBacked(cfg, s, id, target, t);
    BackedOneExact(cfg, s, t, id);
    forall y, r, leaf: bool {:trigger UsesThrough(s, s[y], id, r, leaf)} |
      y in s && r in cfg.bools && UsesThrough(s, s[y], id, r, leaf)
      ensures Provides(t, id, r, leaf) <==> !s[id].inherits || Provides(s, target, r, leaf)
    {
      MovedProvides(s, t, id, target, r, leaf);
      ProvidedThrough(cfg, s, id, y, r, leaf);
    }
  }

  lemma MovedBacked(cfg: Config, s: Store, id: Id, target: Id, t: Store)
    requires Backed(cfg, s) && BudgetMoved(s, t, id, target) && MoveFits(cfg, s, id, target)
    ensures BackedNode(cfg, t, t[id])
  {
    assert BackedNode(cfg, s, s[id]);
    if Active(t[id].status) && !t[id].inherits {
      BudgetBacked(cfg, s, t[id], target, id, false);
      forall r | r in cfg.bools && Q(t[id].limit, r) == 1 ensures Provides(t, target, r, false) {
        MovedProvides(s, t, id, target, r, false);
      }
    }
  }

  // ── Allocations ─────────────────────────────────────────────────────────────

  lemma BackedPromote(cfg: Config, s: Store, c: Caller, id: Id, req: PromoteRequest)
    requires Backed(cfg, s) && Promote(cfg, s, c, id, req).Ok? && Trees(s, Promote(cfg, s, c, id, req).value)
    ensures Backed(cfg, Promote(cfg, s, c, id, req).value)
  {
    PromoteFacts(cfg, s, c, id, req);
    assert OwnShape(s[id]);
    BackedProject(cfg, s, id, PromotedNode(s, s[id], req, c.now));
  }

  lemma {:induction false} HeldBacked(cfg: Config, s: Store, n: Node, allocs: seq<Allocation>, b: Id, r: Rid)
    requires n.kind == Project && Live(n.status) && DrawsBacked(cfg, s, n)
    requires forall a :: a in allocs ==> a in n.allocations
    requires r in cfg.bools && Q(HeldFrom(allocs, b), r) == 1
    ensures Provides(s, b, r, true)
  {
    if allocs != [] {
      assert allocs[|allocs| - 1] in allocs;
      if allocs[|allocs| - 1].budget != b { HeldBacked(cfg, s, n, allocs[..|allocs| - 1], b, r); }
    }
  }

  lemma {:induction false} HeldPlain(cfg: Config, allocs: seq<Allocation>, b: Id)
    requires forall a :: a in allocs ==> ZeroOrOne(cfg, a.limit)
    ensures ZeroOrOne(cfg, HeldFrom(allocs, b))
  {
    if allocs != [] {
      assert allocs[|allocs| - 1] in allocs;
      HeldPlain(cfg, allocs[..|allocs| - 1], b);
    }
  }

  lemma BackedAllocate(cfg: Config, s: Store, c: Caller, id: Id, b: Id, amount: Quota)
    requires Backed(cfg, s) && Allocate(cfg, s, c, id, b, amount).Ok?
    requires Trees(s, Allocate(cfg, s, c, id, b, amount).value)
    ensures Backed(cfg, Allocate(cfg, s, c, id, b, amount).value)
  {
    AllocateFacts(cfg, s, c, id, b, amount);
    AllocationChecked(cfg, s, c, id, b, amount);
    var n := s[id];
    assert Hangs(s, n) && BackedNode(cfg, s, n);
    ChainIn(Budgets(s), b, n.parent.value);
    ChainActive(s, n.parent.value);
    HeldPlain(cfg, n.allocations, b);
    forall r | r in cfg.bools && Q(NonZero(amount), r) == 1 ensures Provides(s, b, r, true) {
      DrawnBacked(cfg, s, n, b, NonZero(amount), r);
    }
    AllocatedBacked(cfg, s, n, b, NonZero(amount));
    BackedProject(cfg, s, id, Allocated(n, b, NonZero(amount)));
  }

  lemma AllocationChecked(cfg: Config, s: Store, c: Caller, id: Id, b: Id, amount: Quota)
    requires Allocate(cfg, s, c, id, b, amount).Ok?
    ensures id in s && (Raises(HeldFrom(s[id].allocations, b), NonZero(amount)) ==>
      RaiseOk(cfg, s, s[id], b, NonZero(amount), HeldFrom(s[id].allocations, b)))
  {
  }

  lemma DrawnBacked(cfg: Config, s: Store, n: Node, b: Id, limit: Quota, r: Rid)
    requires Shaped(s) && Backed(cfg, s) && b in Budgets(s) && Active(s[b].status)
    requires n.kind == Project && Live(n.status) && BackedNode(cfg, s, n)
    requires Raises(HeldFrom(n.allocations, b), limit) ==> RaiseOk(cfg, s, n, b, limit, HeldFrom(n.allocations, b))
    requires r in cfg.bools && Q(limit, r) == 1 && ZeroOrOne(cfg, HeldFrom(n.allocations, b))
    ensures Provides(s, b, r, true)
  {
    if Raises(HeldFrom(n.allocations, b), limit) {
      BinderPlain(cfg, s, b);
      assert r in limit && limit[r] == 1;
    } else {
      HeldBacked(cfg, s, n, n.allocations, b, r);
    }
  }

  lemma AllocatedBacked(cfg: Config, s: Store, n: Node, b: Id, limit: Quota)
    requires n.kind == Project && BackedNode(cfg, s, n) && ZeroOrOne(cfg, limit) && Live(n.status)
    requires forall r :: r in cfg.bools && Q(limit, r) == 1 ==> Provides(s, b, r, true)
    ensures BackedNode(cfg, s, Allocated(n, b, limit))
  {
    WithoutFrom(n.allocations, b);
  }

  // ── Rewrites and reports ────────────────────────────────────────────────────

  /** What is left of the allocations comes from where it did, without the one availability. */
  lemma {:induction false} RewrittenDraws(w: Rewrite, allocs: seq<Allocation>, a: Allocation)
    requires a in RewrittenAllocations(w, allocs)
    ensures exists o :: o in allocs && a == o.(limit := Rewritten(w, o.limit))
  {
    var h, l := allocs[..|allocs| - 1], allocs[|allocs| - 1];
    if a in RewrittenAllocations(w, h) {
      RewrittenDraws(w, h, a);
      var o :| o in h && a == o.(limit := Rewritten(w, o.limit));
      assert o in allocs;
    } else {
      assert l in allocs && a == l.(limit := Rewritten(w, l.limit));
    }
  }

  /** After a rewrite budgets bind as they did, and provide everything else they did. */
  lemma {:induction false} RewrittenBinder(s: Store, w: Rewrite, b: Id)
    requires Tree(Budgets(s)) && b in Budgets(s)
    ensures Budgets(RewriteAll(s, w)) == Budgets(s) && Binder(RewriteAll(s, w), b) == Binder(s, b)
    decreases |Chain(Budgets(s), b)|
  {
    var t := RewriteAll(s, w);
    InPlaceBudgets(s, t);
    BindStep(s, b);
    BindStep(t, b);
    ChainStep(Budgets(s), b);
    assert Budgets(s)[b] == s[b].parent;
    if s[b].inherits && s[b].parent.Some? { RewrittenBinder(s, w, s[b].parent.value); }
  }

  lemma BackedRewrite(cfg: Config, s: Store, w: Rewrite)
    requires Shaped(s) && Sourced(s) && Backed(cfg, s)
    ensures Backed(cfg, RewriteAll(s, w))
  {
    var t := RewriteAll(s, w);
    forall x | x in t ensures BackedNode(cfg, t, t[x]) {
      assert BackedNode(cfg, s, s[x]);
      RewrittenBacked(cfg, s, w, x);
    }
  }

  lemma RewrittenBacked(cfg: Config, s: Store, w: Rewrite, x: Id)
    requires Shaped(s) && Sourced(s) && x in s && BackedNode(cfg, s, s[x])
    ensures BackedNode(cfg, RewriteAll(s, w), RewrittenNode(w, s[x]))
  {
    var t, n, m := RewriteAll(s, w), s[x], RewrittenNode(w, s[x]);
    BackedMeans(cfg, s, n);
    forall b, r, leaf: bool | r in cfg.bools && UsesFrom(m, b, r, leaf) ensures Provides(t, b, r, leaf) {
      RewrittenUses(w, n, b, r, leaf);
      UsesBudgets(s, x, b, r, leaf);
      RewrittenBinder(s, w, b);
    }
    RewrittenPlain(cfg, w, n);
    BackedMeans(cfg, t, m);
  }

  lemma RewrittenUses(w: Rewrite, n: Node, b: Id, r: Rid, leaf: bool)
    requires UsesFrom(RewrittenNode(w, n), b, r, leaf)
    ensures UsesFrom(n, b, r, leaf) && r != w.r
  {
    var m := RewrittenNode(w, n);
    if !(Active(n.status) && HasLimit(n) && n.parent == Some(b) && Q(m.limit, r) == 1 && leaf == (n.kind == Project)) {
      var a :| a in m.allocations && a.budget == b && Q(a.limit, r) == 1;
      RewrittenDraws(w, n.allocations, a);
    }
  }

  lemma RewrittenPlain(cfg: Config, w: Rewrite, n: Node)
    requires PlainAmounts(cfg, n)
    ensures PlainAmounts(cfg, RewrittenNode(w, n))
  {
    forall a | a in RewrittenAllocations(w, n.allocations) && n.kind == Project && Live(n.status)
      ensures ZeroOrOne(cfg, a.limit)
    {
      RewrittenDraws(w, n.allocations, a);
    }
  }

  /** The root gains an availability. */
  lemma BackedGrantRoot(cfg: Config, s: Store, r: Rid)
    requires Backed(cfg, s) && Trees(s, AdoptAvailability(s, r))
    ensures Backed(cfg, AdoptAvailability(s, r))
  {
    var t := AdoptAvailability(s, r);
    assert Budgets(s)[ROOT] == None && BackedNode(cfg, s, s[ROOT]);
    WrittenInPlaceFacts(s, t, ROOT);
    BackedOneExact(cfg, s, t, ROOT);
    BindStep(s, ROOT);
    BindStep(t, ROOT);
    forall y, q, leaf: bool | y in s && q in cfg.bools && UsesThrough(s, s[y], ROOT, q, leaf)
      ensures Provides(t, ROOT, q, leaf)
    {
      ProvidedThrough(cfg, s, ROOT, y, q, leaf);
    }
  }

  lemma BackedReport(cfg: Config, s: Store, w: Report)
    requires Sane(cfg, s) && Backed(cfg, s) && ReportEnabled(s, w) && Trees(s, ApplyReport(s, w))
    ensures Backed(cfg, ApplyReport(s, w))
  {
    if w.AddImport? {
      BackedIdle(cfg, s, w.id, ImportedNode(w.limit, w.members));
    } else if w.id in s {
      assert OwnShape(s[w.id]) && SaneNode(cfg, s[w.id]) && BackedNode(cfg, s, s[w.id]);
      ReportedRelies(cfg, s[w.id], w);
      if Reported(s[w.id], w).None? {
        BackedWithout(cfg, s, s - {w.id});
      } else if s[w.id].status == Imported {
        BackedIdle(cfg, s, w.id, Reported(s[w.id], w).value);
      } else {
        BackedReported(cfg, s, w);
      }
    }
  }

  /** A project that relies on nothing is written. */
  lemma BackedIdle(cfg: Config, s: Store, id: Id, n: Node)
    requires Backed(cfg, s) && n.kind == Project && (id in s ==> s[id].kind == Project) && Trees(s, s[id := n])
    requires !Active(n.status) && n.allocations == []
    ensures Backed(cfg, s[id := n])
  {
    assert Budgets(s[id := n]) == Budgets(s);
    SameBudgetsWithin(s[id := n], s);
    BackedWritten(cfg, s, s[id := n], id, n);
  }

  lemma BackedReported(cfg: Config, s: Store, w: Report)
    requires Backed(cfg, s) && w.id in s && Reported(s[w.id], w).Some?
    requires Trees(s, s[w.id := Reported(s[w.id], w).value]) && ReliesLess(cfg, s[w.id], Reported(s[w.id], w).value)
    requires s[w.id].kind == Budget ==> SameBudget(s[w.id], Reported(s[w.id], w).value)
    ensures Backed(cfg, s[w.id := Reported(s[w.id], w).value])
  {
    var t := s[w.id := Reported(s[w.id], w).value];
    SameBudgetsWithin(s, t);
    forall x | x in t ensures ReliesLess(cfg, s[x], t[x]) {
      if x != w.id { assert BackedNode(cfg, s, s[x]); }
    }
    BackedSame(cfg, s, t);
  }

  lemma ReportedRelies(cfg: Config, n: Node, w: Report)
    requires OwnShape(n) && SaneNode(cfg, n) && PlainAmounts(cfg, n)
    ensures Reported(n, w).None? ==> n.kind == Project
    ensures Reported(n, w).Some? ==>
      var m := Reported(n, w).value;
      && (n.status == Imported ==> m.kind == n.kind == Project && !Active(m.status) && m.allocations == [])
      && (n.status != Imported ==> ReliesLess(cfg, n, m) && (n.kind == Budget ==> SameBudget(n, m)))
  {
  }

  // ── Every step ──────────────────────────────────────────────────────────────

  lemma BackedReject(cfg: Config, s: Store, c: Caller, id: Id)
    requires Backed(cfg, s) && Reject(s, c, id).Ok? && Trees(s, Reject(s, c, id).value)
    ensures Backed(cfg, Reject(s, c, id).value)
  {
    assert BackedNode(cfg, s, s[id]);
    BackedKept(cfg, s, id, Refused(s[id]));
  }

  lemma BackedRelease(cfg: Config, s: Store, c: Caller, id: Id, delete: bool, deletable: bool)
    requires Backed(cfg, s) && Release(s, c, id, delete, deletable).Ok?
    requires Trees(s, Release(s, c, id, delete, deletable).value)
    ensures Backed(cfg, Release(s, c, id, delete, deletable).value)
  {
    assert BackedNode(cfg, s, s[id]);
    BackedKept(cfg, s, id, ReleasedNode(s[id], delete));
  }

  lemma BackedTransfer(cfg: Config, s: Store, c: Caller, id: Id, owner: Token)
    requires Backed(cfg, s) && Transfer(s, c, id, owner).Ok? && Trees(s, Transfer(s, c, id, owner).value)
    ensures Backed(cfg, Transfer(s, c, id, owner).value)
  {
    assert BackedNode(cfg, s, s[id]);
    BackedKept(cfg, s, id, HandedOver(s[id], owner));
  }

  /** The two requests that take an availability from below somebody who has it. */
  ghost predicate Lapses(cfg: Config, s: Store, op: Op) {
    || (op.OpUpdate? && LapsesByUpdate(cfg, s, op.id, op.update))
    || (op.OpMove? && LapsesByMove(cfg, s, op.id, op.target))
  }

  /** Whatever is granted, asked for, moved, drawn, given up or withdrawn: an accepted operation leaves
      everybody who holds an availability with budgets that hold it exactly if it is none of the two. */
  lemma BackedNextExact(cfg: Config, s: Store, c: Caller, op: Op)
    requires Sane(cfg, s) && Backed(cfg, s) && Enabled(cfg, s, op) && Trees(s, Next(cfg, s, c, op))
    requires OutcomeOf(cfg, s, c, op).Ok?
    ensures Backed(cfg, Next(cfg, s, c, op)) <==> !Lapses(cfg, s, op)
  {
    match op
    case OpCreate(id, req) => BackedCreate(cfg, s, c, id, req);
    case OpUpdate(id, req) => BackedUpdateExact(cfg, s, c, id, req);
    case OpChange(id, req) => BackedChange(cfg, s, c, id, req);
    case OpApprove(id, req) => BackedApprove(cfg, s, c, id, req);
    case OpReject(id) => BackedReject(cfg, s, c, id);
    case OpRelease(id, d, e) => BackedRelease(cfg, s, c, id, d, e);
    case OpDelete(id) => BackedDelete(cfg, s, c, id);
    case OpMove(id, target) => BackedMoveExact(cfg, s, c, id, target);
    case OpTransfer(id, owner) => BackedTransfer(cfg, s, c, id, owner);
    case OpPromote(id, req) => BackedPromote(cfg, s, c, id, req);
    case OpAllocate(id, b, q) => BackedAllocate(cfg, s, c, id, b, q);
    case OpRewrite(w) => BackedRewrite(cfg, s, w);
    case OpGrantRoot(r) => BackedGrantRoot(cfg, s, r);
    case OpReport(w) => BackedReport(cfg, s, w);
  }
}
