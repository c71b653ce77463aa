/** The walks of the tree service over the stored tree and its checks, as they run: rule_authz.go,
    calc_rollup.go, rule_limits.go and rule_terms.go of internal/core/tree. Every method is held to the
    functions of module Rules. */
module TreeChecks {
  import opened Model
  import opened Chains
  import opened Charges
  import opened Rules
  import opened Steps
  import opened Reports
  import opened Runs
  import opened Shape
  import opened Values
  import opened Nodes
  import opened Rollup
  import opened Inheritance

  /** es are the nodes of s with these ids, in this order. */
  ghost predicate Entries(s: Store, ids: seq<Id>, es: seq<Entry>) {
    && |es| == |ids|
    && forall i :: 0 <= i < |es| ==> es[i].id == ids[i] && ids[i] in s && s[ids[i]] == es[i].node
  }

  /** Amounts that fit 64 bits. */
  predicate Addable(cfg: Config, q: Quota) {
    forall r :: r in cfg.counts ==> 0 <= Q(q, r) <= MAX_INT
  }

  /** What a node hangs under has a chain. */
  ghost predicate Placed(s: Store, n: Node) {
    n.parent.Some? ==> Rooted(Budgets(s), n.parent.value)
  }

  /** b is one of the roots or below one. */
  ghost predicate UnderAny(pm: Parents, roots: seq<Entry>, b: Id) {
    exists e :: e in roots && e.id in Chain(pm, b)
  }

  function QueuedIds(levels: seq<Level>): (ids: seq<Id>)
    ensures |ids| == |levels| && forall i :: 0 <= i < |levels| ==> ids[i] == levels[i].node.id
  {
    seq(|levels|, i requires 0 <= i < |levels| => levels[i].node.id)
  }

  ghost predicate LevelsOk(s: Store, x: Id, target: Id, levels: seq<Level>) {
    forall l :: l in levels ==> LevelOk(s, x, target, l)
  }

  predicate GoesOn(e: Entry) {
    Active(e.node.status) && e.node.inherits
  }

  ghost predicate ChildFitsThere(cfg: Config, s: Store, target: Id, e: Entry)
    requires e.id in s
  {
    Active(e.node.status) && !e.node.inherits ==> FitsThere(cfg, s, target, e.id)
  }

  ghost predicate ChildrenFit(cfg: Config, s: Store, target: Id, es: seq<Entry>) {
    forall e :: e in es ==> e.id in s && ChildFitsThere(cfg, s, target, e)
  }

  /** onward are the active inheriting ones of es, each once. */
  ghost predicate GoingOn(es: seq<Entry>, onward: seq<Entry>) {
    && (forall e :: e in onward <==> e in es && GoesOn(e))
    && DistinctIds(onward)
  }

  /** The active children of p that inherit are queued, each once; the others fit. */
  ghost predicate ChildrenDone(cfg: Config, s: Store, target: Id, p: Id, queued: seq<Id>) {
    && (forall b :: b in queued <==> ActiveChild(s, p, b) && s[b].inherits)
    && (forall i, j :: 0 <= i < j < |queued| ==> queued[i] != queued[j])
    && (forall b :: ActiveChild(s, p, b) && !s[b].inherits ==> FitsThere(cfg, s, target, b))
  }

  ghost predicate IsChild(s: Store, p: Id, child: Entry) {
    Stored(s, child) && s[child.id].kind == Budget && s[child.id].parent == Some(p)
  }

  ghost predicate AreChildren(s: Store, p: Id, children: seq<Entry>) {
    forall e :: e in children ==> IsChild(s, p, e)
  }

  predicate FromAbove(a: Allocation, above: set<Id>, inside: set<Id>, own: Option<Id>) {
    (a.budget in above || a.budget in inside) && own != Some(a.budget)
  }

  /** n, unless it is past changing, draws from above or inside only, and not from its own budget. */
  predicate DrawsOk(n: Node, above: set<Id>, inside: set<Id>, own: Option<Id>) {
    !Terminal(n.status) ==> forall a :: a in n.allocations ==> FromAbove(a, above, inside, own)
  }

  /** b is the nearest budget of the chain with a limit of its own, if there is one. */
  ghost predicate Binds(s: Store, ids: seq<Id>, b: Option<Entry>) {
    && (b.None? <==> Binding(s, ids).None?)
    && (b.Some? ==> Binding(s, ids) == Some(b.value.id) && b.value.id in s && s[b.value.id] == b.value.node)
  }

  function HoldersAt(holders: map<Rid, seq<Id>>, r: Rid): seq<Id> {
    if r in holders then holders[r] else []
  }

  /** Nothing strictly below x holds r from its subtree. */
  ghost predicate NoneHolds(s: Store, x: Id, r: Rid) {
    forall id :: StrictlyBelow(s, x, id) ==> !HoldsFrom(s, x, s[id], r)
  }

  ghost predicate HoldersOf(x: Id, tracked: set<Id>, availabilities: seq<Rid>, es: seq<Entry>,
                            holders: map<Rid, seq<Id>>) {
    forall r :: r in availabilities ==>
      (HoldersAt(holders, r) == [] <==> forall e :: e in es && e.id != x ==> !HoldsVia(e.node, tracked, r))
  }

  /** es are x and the nodes strictly below it. */
  ghost predicate ListsBelow(s: Store, x: Id, es: seq<Entry>) {
    && (forall e :: e in es && e.id != x ==> StrictlyBelow(s, x, e.id) && s[e.id] == e.node)
    && (forall id {:trigger StrictlyBelow(s, x, id)} :: StrictlyBelow(s, x, id) ==> Entry(id, s[id]) in es)
  }

  function ProjectsUnder(budgets: set<Id>): Query {
    Query(None, Some(budgets), Some(Project), None, None, None)
  }

  function TheseNodes(ids: set<Id>): Query {
    Query(Some(ids), None, None, None, None, None)
  }

  /** Costs of charged projects fit 64 bits and lower nothing. */
  ghost predicate Billed(cfg: Config, s: Store) {
    forall id :: id in s && s[id].kind == Project && ChargedStatus(cfg.acc, s[id].status) ==> Billable(cfg, s[id])
  }

  /** u holds, saturated, what the tracked budgets are charged by the projects under them. */
  ghost predicate UsageLoaded(cfg: Config, s: Store, tracked: Parents, u: Usages) {
    forall b, r :: b in tracked && r in cfg.counts ==>
      Saturated(StatusSum(ByStatus(u, b), |STATUSES|, r))
      == Saturated(Total(s, Below(cfg, Budgets(s), tracked.Keys, None, b, r)))
  }

  function ChildBudgets(parents: seq<Id>): Query {
    Query(None, Some(set id | id in parents), Some(Budget), None, None, None)
  }

  /** es are budgets with their parents as stored. */
  ghost predicate AreBudgets(pm: Parents, es: seq<Entry>) {
    forall e :: e in es ==> e.id in pm && pm[e.id] == e.node.parent
  }

  /** tracked is before and the new budgets of es, which are listed in found. */
  ghost predicate Added(pm: Parents, es: seq<Entry>, before: Parents, tracked: Parents, found: seq<Id>) {
    && (forall b :: b in tracked <==> b in before || b in found)
    && (forall b :: b in found ==> b !in before && exists e :: e in es && e.id == b)
    && (forall e :: e in es ==> e.id in tracked)
    && (forall b :: b in tracked ==> b in pm && tracked[b] == pm[b])
  }

  /** tracked are the budgets at and below the roots, with their parents. */
  ghost predicate Found(pm: Parents, roots: seq<Entry>, tracked: Parents) {
    && (forall b :: b in tracked ==> b in pm && tracked[b] == pm[b])
    && (forall b {:trigger UnderAny(pm, roots, b)} :: b in pm ==> (b in tracked <==> UnderAny(pm, roots, b)))
  }

  /** What a level by level walk from the roots has found: everything in it belongs there, and the
      children of what it is done with are in it. */
  ghost predicate Explored(pm: Parents, roots: seq<Entry>, tracked: Parents, queue: seq<Id>) {
    && (forall e :: e in roots ==> e.id in tracked)
    && (forall b :: b in tracked ==> b in pm && tracked[b] == pm[b])
    && (forall b {:trigger UnderAny(pm, roots, b)} :: b in tracked ==> UnderAny(pm, roots, b))
    && (forall b :: b in queue ==> b in tracked)
    && (forall b {:trigger b in tracked} :: ChildOf(pm, tracked, queue, b) ==> b in tracked)
  }

  /** The parent of b is found and done with. */
  ghost predicate ChildOf(pm: Parents, tracked: Parents, queue: seq<Id>, b: Id) {
    b in pm && pm[b].Some? && pm[b].value in tracked && pm[b].value !in queue
  }

  /** Part of the chain of start is walked; id is the next budget on it. */
  ghost predicate Climbing(s: Store, start: Id, chain: seq<Entry>, seen: set<Id>, id: Option<Id>) {
    var full := Chain(Budgets(s), start);
    && |chain| <= |full| && Entries(s, full[..|chain|], chain)
    && (forall x :: x in seen <==> x in full[..|chain|])
    && id == if |chain| < |full| then Some(full[|chain|]) else None
  }

  ghost predicate MayClimb(s: Store, start: Id, chain: seq<Entry>, seen: set<Id>, id: Option<Id>) {
    Rooted(Budgets(s), start) ==> Climbing(s, start, chain, seen, id)
  }

  /** The stored tree with the service's configuration: what the operations read and check. */
  class Checks {
    const nodes: NodeStore
    const cfg: Config

    ghost function S(): Store
      reads nodes
      requires nodes.Valid()
    {
      nodes.Contents()
    }

    ghost predicate Valid()
      reads nodes
    {
      nodes.Valid() && cfg.Valid() && Shaped(S()) && Sane(cfg, S())
    }

    constructor (nodes: NodeStore, cfg: Config)
      ensures this.nodes == nodes && this.cfg == cfg
    {
      this.nodes := nodes;
      this.cfg := cfg;
    }

    // ── Walks ─────────────────────────────────────────────────────────────────

    /** The chain of budgets from start to the root; a cycle is an error. */
    method NodeChain(start: Id) returns (r: Result<seq<Entry>>)
      requires nodes.Valid() && (start in S() ==> S()[start].kind == Budget)
      ensures Rooted(Budgets(S()), start) ==> r.Ok? && Entries(S(), Chain(Budgets(S()), start), r.value)
      ensures start !in S() ==> r == Ok([])
    {
      ghost var s := S();
      var chain: seq<Entry> := [];
      var seen: set<Id> := {};
      var id := Some(start);
      while id.Some?
        invariant seen <= s.Keys
        invariant MayClimb(s, start, chain, seen, id)
        invariant start !in s ==> chain == [] && seen == {} && id == Some(start)
        decreases s.Keys - seen, if id.Some? then 1 else 0
      {
        ClimbStep(s, start, chain, seen, id.value);
        if id.value in seen { return Err(Invalid); }
        var node := nodes.GetNode(id.value);
        if node.None? { return Ok(chain); }
        seen := seen + {id.value};
        chain := chain + [Entry(id.value, node.value)];
        id := node.value.parent;
      }
      ClimbEnds(s, start, chain, seen);
      return Ok(chain);
    }

    /** In a tree there is no cycle to report. */
    method ChainFrom(start: Id) returns (chain: seq<Entry>)
      requires nodes.Valid() && Rooted(Budgets(S()), start)
      ensures Entries(S(), Chain(Budgets(S()), start), chain)
    {
      var r := NodeChain(start);
      chain := r.value;
    }

    /** The budgets above a node of the store. */
    method ParentChain(n: Node) returns (chain: seq<Entry>)
      requires nodes.Valid() && Placed(S(), n)
      ensures Entries(S(), Above(S(), n), chain)
    {
      if n.parent.None? { return []; }
      chain := ChainFrom(n.parent.value);
    }

    method ManagesChainFrom(tokens: set<Token>, start: Option<Id>) returns (manages: bool)
      requires nodes.Valid() && (start.Some? ==> Rooted(Budgets(S()), start.value))
      ensures manages <==> start.Some? && ManagesChain(S(), tokens, Chain(Budgets(S()), start.value))
    {
      if start.None? { return false; }
      var chain := ChainFrom(start.value);
      for i := 0 to |chain|
        invariant forall j :: 0 <= j < i ==> chain[j].node.policy.admins * tokens == {}
      {
        if chain[i].node.policy.admins * tokens != {} { return true; }
      }
      return false;
    }

    /** Authority over a node: its own admins count, and those of every budget above. */
    method ManagesNode(tokens: set<Token>, n: Node) returns (manages: bool)
      requires nodes.Valid() && Placed(S(), n)
      ensures manages <==> Manages(S(), tokens, n)
    {
      if n.policy.admins * tokens != {} { return true; }
      manages := ManagesChainFrom(tokens, n.parent);
    }

    /** Authority to approve: the node's own admins do not count. */
    method ManagesParentChain(tokens: set<Token>, n: Node) returns (manages: bool)
      requires nodes.Valid() && Placed(S(), n)
      ensures manages <==> ManagesAbove(S(), tokens, n)
    {
      manages := ManagesChainFrom(tokens, n.parent);
    }

    // ── Usage ─────────────────────────────────────────────────────────────────

    /** The budgets at and below the roots, level by level, with their parents. */
    method BuildSubtreeParentMap(roots: seq<Entry>) returns (tracked: Parents)
      requires nodes.Valid() && Tree(Budgets(S()))
      requires AreBudgets(Budgets(S()), roots)
      ensures Found(Budgets(S()), roots, tracked)
    {
      ghost var s := S();
      var queue: seq<Id>;
      tracked, queue := AddLevel(Budgets(s), roots, map[]);
      RootsExplored(Budgets(s), roots, tracked, queue);
      while queue != []
        invariant Explored(Budgets(s), roots, tracked, queue)
        decreases Budgets(s).Keys - tracked.Keys, |queue|
      {
        tracked, queue := ExploreLevel(roots, tracked, queue);
      }
      AllExplored(Budgets(s), roots, tracked);
    }

    method ExploreLevel(ghost roots: seq<Entry>, before: Parents, parents: seq<Id>)
      returns (tracked: Parents, queue: seq<Id>)
      requires nodes.Valid() && Tree(Budgets(S())) && Explored(Budgets(S()), roots, before, parents)
      ensures Explored(Budgets(S()), roots, tracked, queue)
      ensures if queue == [] then tracked == before
              else Budgets(S()).Keys - tracked.Keys < Budgets(S()).Keys - before.Keys
    {
      ghost var s := S();
      var children := nodes.ListNodes(ChildBudgets(parents));
      ListedBudgets(s, parents, children);
      tracked, queue := AddLevel(Budgets(s), children, before);
      LevelExplored(s, roots, before, parents, children, tracked, queue);
      if queue != [] { FewerLeft(Budgets(s), children, before, tracked, queue); }
    }

    /** What the projects under the roots charge every budget there. */
    method LoadSubtreeUsage(roots: seq<Entry>) returns (u: Usages, ghost tracked: Parents)
      requires nodes.Valid() && Tree(Budgets(S())) && AreBudgets(Budgets(S()), roots) && Billed(cfg, S())
      ensures Found(Budgets(S()), roots, tracked)
      ensures InRangeUsages(u, cfg.counts) && UsageLoaded(cfg, S(), tracked, u)
    {
      ghost var s := S();
      var budgets := BuildSubtreeParentMap(roots);
      tracked := budgets;
      FoundTracks(Budgets(s), roots, tracked);
      var leaves := nodes.ListNodes(ChargedUnder(cfg, budgets.Keys));
      ListedBillable(cfg, s, budgets.Keys, leaves);
      u := BuildRolledUpUsage(cfg, Budgets(s), leaves, budgets);
      forall b, r | b in tracked && r in cfg.counts
        ensures Saturated(StatusSum(ByStatus(u, b), |STATUSES|, r))
                == Saturated(Total(s, Below(cfg, Budgets(s), tracked.Keys, None, b, r)))
      {
        RollupRefines(cfg, s, tracked, leaves, u, b, r);
      }
    }

    // ── Capacity ──────────────────────────────────────────────────────────────

    /** Every budget of the chain with a limit of its own has room for add, sub being given back. */
    method CheckCapacity(chain: seq<Entry>, add: Quota, sub: Quota, ghost start: Id) returns (ok: bool)
      requires nodes.Valid() && Tree(Budgets(S())) && Billed(cfg, S()) && start in Budgets(S())
      requires Entries(S(), Chain(Budgets(S()), start), chain)
      requires Addable(cfg, add) && Quantities(cfg, sub)
      ensures ok <==> HasRoom(cfg, S(), Chain(Budgets(S()), start), add, sub)
    {
      ghost var s := S();
      ChainBudgets(s, start, chain);
      var usage, tracked := LoadSubtreeUsage(chain);
      ChainSeesAll(Budgets(s), start, chain, tracked);
      ChainTracked(s, start, chain, tracked);
      ok := CheckRooms(chain, usage, tracked, add, sub);
      RoomOfEntries(cfg, s, Chain(Budgets(s), start), chain, add, sub);
    }

    method CheckRooms(chain: seq<Entry>, usage: Usages, ghost tracked: Parents, add: Quota, sub: Quota)
      returns (ok: bool)
      requires nodes.Valid() && tracked.Keys == Budgets(S()).Keys
      requires forall e :: e in chain ==> e.id in tracked && e.id in S() && S()[e.id] == e.node
      requires InRangeUsages(usage, cfg.counts) && UsageLoaded(cfg, S(), tracked, usage)
      requires Addable(cfg, add) && Quantities(cfg, sub)
      ensures ok <==> forall e :: e in chain && !e.node.inherits ==> Room(cfg, S(), e.id, add, sub)
    {
      for i := 0 to |chain|
        invariant forall e :: e in chain[..i] && !e.node.inherits ==> Room(cfg, S(), e.id, add, sub)
      {
        assert chain[i] in chain && chain[..i + 1] == chain[..i] + [chain[i]];
        if chain[i].node.inherits { continue; }
        ok := CheckRoom(chain[i], usage, tracked, add, sub);
        if !ok { return false; }
      }
      assert chain[..|chain|] == chain;
      return true;
    }

    /** What a budget is charged, as one number a resource. */
    method Committed(b: Id, usage: Usages, ghost tracked: Parents) returns (committed: Quota)
      requires nodes.Valid() && b in tracked
      requires InRangeUsages(usage, cfg.counts) && UsageLoaded(cfg, S(), tracked, usage)
      ensures forall r :: r in cfg.counts ==>
        && Q(committed, r) == Saturated(Total(S(), Below(cfg, Budgets(S()), tracked.Keys, None, b, r)))
        && 0 <= Q(committed, r) <= MAX_INT
    {
      StatusesInRange(cfg, usage, b);
      forall r | r in cfg.counts ensures StatusSum(ByStatus(usage, b), |STATUSES|, r) >= 0 {
        StatusSumNonNegative(ByStatus(usage, b), |STATUSES|, r);
      }
      committed := TotalOf(ByStatus(usage, b), cfg.counts);
    }

    /** One budget of the check. */
    method CheckRoom(budget: Entry, usage: Usages, ghost tracked: Parents, add: Quota, sub: Quota) returns (ok: bool)
      requires nodes.Valid() && budget.id in tracked && tracked.Keys == Budgets(S()).Keys
      requires budget.id in S() && S()[budget.id] == budget.node
      requires InRangeUsages(usage, cfg.counts) && UsageLoaded(cfg, S(), tracked, usage)
      requires Addable(cfg, add) && Quantities(cfg, sub)
      ensures ok <==> Room(cfg, S(), budget.id, add, sub)
    {
      var committed := Committed(budget.id, usage, tracked);
      forall r | r in cfg.counts
        ensures Q(committed, r) == Saturated(Usage(cfg, S(), budget.id, r))
      {
      }
      ok := HasSpace(committed, budget.node.limit, add, sub);
    }

    method HasSpace(committed: Quota, limit: Quota, add: Quota, sub: Quota) returns (ok: bool)
      requires Addable(cfg, add) && Quantities(cfg, sub)
      requires forall r :: r in cfg.counts ==> 0 <= Q(committed, r) <= MAX_INT
      ensures ok <==> forall r :: r in cfg.counts ==>
        var need := Q(committed, r) - Q(sub, r) + Q(add, r);
        MIN_INT <= need <= MAX_INT && Fits(need, Q(limit, r))
    {
      var less := GivenBack(committed, sub);
      var needed := QuotaAddChecked(less, add, cfg.counts);
      if needed.None? { return false; }
      var short := Shortfall(needed.value, limit, cfg.counts);
      return short.None?;
    }

    method GivenBack(committed: Quota, sub: Quota) returns (less: Quota)
      ensures forall r :: r in cfg.counts ==> Q(less, r) == Q(committed, r) - Q(sub, r)
    {
      less := committed;
      for i := 0 to |cfg.counts|
        invariant forall r :: r in cfg.counts[..i] ==> Q(less, r) == Q(committed, r) - Q(sub, r)
      {
        less := less[cfg.counts[i] := Q(committed, cfg.counts[i]) - Q(sub, cfg.counts[i])];
      }
    }

    // ── Along a chain ─────────────────────────────────────────────────────────

    method ChainEndOf(chain: seq<Entry>, ghost ids: seq<Id>) returns (end: Option<Time>)
      requires nodes.Valid() && Entries(S(), ids, chain)
      ensures end == ChainEnd(S(), ids)
    {
      end := None;
      for i := 0 to |chain|
        invariant end == ChainEnd(S(), ids[..i])
      {
        assert ids[..i + 1][..i] == ids[..i];
        var at := chain[i].node.end;
        if at.None? { continue; }
        if end.None? || at.value < end.value { end := at; }
      }
      assert ids[..|ids|] == ids;
    }

    method ChainMaxTermOf(chain: seq<Entry>, ghost ids: seq<Id>) returns (term: Option<int>)
      requires nodes.Valid() && Entries(S(), ids, chain)
      ensures term == ChainMaxTerm(S(), ids)
    {
      term := None;
      for i := 0 to |chain|
        invariant term == ChainMaxTerm(S(), ids[..i])
      {
        assert ids[..i + 1][..i] == ids[..i];
        var days := chain[i].node.maxTerm;
        if days.Some? && (term.None? || days.value < term.value) { term := days; }
      }
      assert ids[..|ids|] == ids;
    }

    /** The nearest budget with a limit of its own. */
    method BindingOf(chain: seq<Entry>, ghost ids: seq<Id>) returns (b: Option<Entry>)
      requires nodes.Valid() && Entries(S(), ids, chain)
      ensures Binds(S(), ids, b)
    {
      for i := 0 to |chain|
        invariant Binding(S(), ids) == Binding(S(), ids[i..])
      {
        assert ids[i..][0] == ids[i] && ids[i..][1..] == ids[i + 1..];
        if !chain[i].node.inherits { return Some(chain[i]); }
      }
      return None;
    }

    // ── Limits ────────────────────────────────────────────────────────────────

    /** The budgets of the subtree of x and every project under them. */
    method SubtreeNodes(x: Entry) returns (tracked: Parents, all: seq<Entry>)
      requires nodes.Valid() && Tree(Budgets(S())) && AreBudgets(Budgets(S()), [x])
      ensures tracked.Keys == Subtree(S(), x.id) && ListsBelow(S(), x.id, all)
    {
      ghost var s := S();
      tracked := BuildSubtreeParentMap([x]);
      FoundSubtree(s, x, tracked);
      var leaves := nodes.ListNodes(ProjectsUnder(tracked.Keys));
      var budgets := nodes.ListNodes(TheseNodes(tracked.Keys));
      all := budgets + leaves;
      ListedBelow(s, x.id, tracked.Keys, budgets, leaves);
    }

    /** The nodes below budget x that hold one of the availabilities from its subtree. */
    method DescendantsHolding(x: Entry, availabilities: seq<Rid>) returns (holders: map<Rid, seq<Id>>)
      requires nodes.Valid() && Tree(Budgets(S())) && AreBudgets(Budgets(S()), [x])
      ensures forall r :: r in availabilities ==> (HoldersAt(holders, r) == [] <==> NoneHolds(S(), x.id, r))
    {
      ghost var s := S();
      var tracked, all := SubtreeNodes(x);
      holders := map[];
      for i := 0 to |all|
        invariant HoldersOf(x.id, tracked.Keys, availabilities, all[..i], holders)
      {
        assert all[..i + 1] == all[..i] + [all[i]];
        holders := AddHolder(x.id, tracked.Keys, availabilities, all[..i], all[i], holders);
      }
      assert all[..|all|] == all;
      forall r | r in availabilities ensures HoldersAt(holders, r) == [] <==> NoneHolds(s, x.id, r) {
        HoldersComplete(s, x.id, availabilities, all, holders, r);
      }
    }

    method AddHolder(x: Id, tracked: set<Id>, availabilities: seq<Rid>, ghost before: seq<Entry>, e: Entry,
                     holders: map<Rid, seq<Id>>)
      returns (out: map<Rid, seq<Id>>)
      requires HoldersOf(x, tracked, availabilities, before, holders)
      ensures HoldersOf(x, tracked, availabilities, before + [e], out)
    {
      out := holders;
      if e.id == x { return; }
      for i := 0 to |availabilities|
        invariant forall r :: r in availabilities ==>
          (HoldersAt(out, r) == [] <==>
              HoldersAt(holders, r) == [] && !(r in availabilities[..i] && HoldsVia(e.node, tracked, r)))
      {
        var r := availabilities[i];
        assert availabilities[..i + 1] == availabilities[..i] + [r];
        var held := HoldsIn(e.node, tracked, r);
        if held { out := out[r := HoldersAt(out, r) + [e.id]]; }
      }
      assert availabilities[..|availabilities|] == availabilities;
    }

    method HoldsIn(n: Node, tracked: set<Id>, r: Rid) returns (held: bool)
      ensures held <==> HoldsVia(n, tracked, r)
    {
      if Q(n.limit, r) == 1 { return true; }
      for i := 0 to |n.allocations|
        invariant forall a :: a in n.allocations[..i] ==> !(a.budget in tracked && Q(a.limit, r) == 1)
      {
        var a := n.allocations[i];
        if a.budget in tracked && Q(a.limit, r) == 1 { return true; }
      }
      return false;
    }

    /** Whether budget x may give up what limit no longer grants. */
    method CheckAvailabilityWithdrawal(x: Entry, limit: Quota) returns (ok: bool)
      requires nodes.Valid() && Tree(Budgets(S())) && AreBudgets(Budgets(S()), [x])
      requires x.id in S() && S()[x.id] == x.node
      ensures ok <==> WithdrawalOk(cfg, S(), x.id, limit)
    {
      var withdrawn := GivenUp(x.node.limit, limit);
      WithdrawalMeans(cfg, S(), x.id, limit, withdrawn);
      if withdrawn == [] { return true; }
      var holders := DescendantsHolding(x, withdrawn);
      for i := 0 to |withdrawn|
        invariant forall r :: r in withdrawn[..i] ==> HoldersAt(holders, r) == []
      {
        assert withdrawn[i] in withdrawn && withdrawn[..i + 1] == withdrawn[..i] + [withdrawn[i]];
        if HoldersAt(holders, withdrawn[i]) != [] { return false; }
      }
      assert withdrawn[..|withdrawn|] == withdrawn;
      return true;
    }

    method GivenUp(held: Quota, limit: Quota) returns (withdrawn: seq<Rid>)
      ensures forall r :: r in withdrawn <==> r in cfg.bools && Q(held, r) == 1 && Q(limit, r) != 1
    {
      withdrawn := [];
      for i := 0 to |cfg.bools|
        invariant forall r :: r in withdrawn <==> r in cfg.bools[..i] && Q(held, r) == 1 && Q(limit, r) != 1
      {
        var r := cfg.bools[i];
        assert cfg.bools[..i + 1] == cfg.bools[..i] + [r];
        if Q(held, r) == 1 && Q(limit, r) != 1 { withdrawn := withdrawn + [r]; }
      }
      assert cfg.bools[..|cfg.bools|] == cfg.bools;
    }

    /** Whether limit covers what is in use below budget x. */
    method CheckFloor(x: Entry, limit: Quota) returns (ok: bool)
      requires nodes.Valid() && Tree(Budgets(S())) && AreBudgets(Budgets(S()), [x]) && Billed(cfg, S())
      ensures ok <==> FloorOk(cfg, S(), x.id, limit)
    {
      ghost var s := S();
      var usage, tracked := LoadSubtreeUsage([x]);
      FoundSubtree(s, x, tracked);
      RootFound(Budgets(s), x, tracked);
      var inUse := Committed(x.id, usage, tracked);
      forall r | r in cfg.counts
        ensures Q(inUse, r) == Saturated(LocalUsage(cfg, s, x.id, r))
      {
      }
      var short := Shortfall(inUse, limit, cfg.counts);
      ok := short.None?;
    }

    /** Every path that sets a budget's limit comes through here. */
    method CheckBudgetLimit(x: Entry, chain: seq<Entry>, ghost ids: seq<Id>, limit: Quota, inForce: bool)
      returns (ok: bool)
      requires nodes.Valid() && Tree(Budgets(S())) && Billed(cfg, S()) && Entries(S(), ids, chain)
      requires inForce ==> x.id in S() && S()[x.id] == x.node && x.node.kind == Budget
      ensures ok <==> BudgetLimitOk(cfg, S(), x.id, ids, limit, inForce)
    {
      if !ValidBudgetLimit(cfg, limit) { return false; }
      var b := BindingOf(chain, ids);
      if b.Some? && !ChildFits(cfg, b.value.node.limit, limit) { return false; }
      if !inForce { return true; }
      ok := CheckAvailabilityWithdrawal(x, limit);
      if !ok { return false; }
      ok := CheckFloor(x, limit);
    }

    /** Every path that sets a project's limit comes through here; commit says it is being granted. */
    method CheckLeafLimit(allocs: seq<Allocation>, chain: seq<Entry>, ghost start: Id, limit: Quota, sub: Quota,
                          commit: bool)
      returns (ok: bool)
      requires nodes.Valid() && Tree(Budgets(S())) && Billed(cfg, S()) && cfg.Valid() && start in Budgets(S())
      requires Entries(S(), Chain(Budgets(S()), start), chain) && Quantities(cfg, sub)
      ensures ok <==> LeafLimitOk(cfg, S(), allocs, Chain(Budgets(S()), start), limit)
                      && (commit ==> HasRoom(cfg, S(), Chain(Budgets(S()), start), limit, sub))
    {
      if !ValidLeafLimit(cfg, limit) { return false; }
      var b := BindingOf(chain, Chain(Budgets(S()), start));
      if b.Some? && !(forall r ::
          r in cfg.bools && Q(limit, r) == 1 ==> b.value.id == ROOT || Holds1(b.value.node.limit, r)) {
        return false;
      }
      if !ClearOf(cfg, allocs, limit) { return false; }
      if !commit { return true; }
      LeafLimitQuantities(cfg, limit);
      ok := CheckCapacity(chain, limit, sub, start);
    }

    /** A new project gets the availabilities that are on by default and that its budget holds. */
    method WithDefaultAvailabilities(chain: seq<Entry>, ghost ids: seq<Id>, limit: Quota) returns (out: Quota)
      requires nodes.Valid() && Entries(S(), ids, chain)
      ensures out == if Binding(S(), ids).Some? then WithDefaults(cfg, S(), Binding(S(), ids).value, limit) else limit
    {
      var b := BindingOf(chain, ids);
      if b.None? { return limit; }
      ghost var s := S();
      var at := b.value.id;
      out := limit;
      for i := 0 to |cfg.bools|
        invariant forall r :: r in out <==> r in limit || (r in cfg.bools[..i] && DefaultsTo1(cfg, s, at, limit, r))
        invariant forall r :: r in out ==> out[r] == if r in limit then limit[r] else 1
      {
        var r := cfg.bools[i];
        assert cfg.bools[..i + 1] == cfg.bools[..i] + [r];
        if r in cfg.withdrawn || r !in cfg.onByDefault || !AsksIn(cfg, limit, Area(cfg, r)) || r in limit { continue; }
        if at != ROOT && !Holds1(b.value.node.limit, r) { continue; }
        out := out[r := 1];
      }
      assert cfg.bools[..|cfg.bools|] == cfg.bools;
    }

    // ── Auto-approval ─────────────────────────────────────────────────────────

    /** What the owner's charged projects directly under budget b cost it. */
    method OwnerActiveUsage(b: Id, owner: Token) returns (usage: Quota)
      requires nodes.Valid()
      ensures forall r :: r in cfg.counts ==> Q(usage, r) == OwnerUsage(cfg, S(), b, owner, r)
    {
      ghost var s := S();
      var leaves := nodes.ListNodes(ChargedOf(cfg, b, owner));
      usage := map[];
      for i := 0 to |leaves|
        invariant forall r :: r in cfg.counts ==> Q(usage, r) == OwnSum(cfg, leaves[..i], r)
      {
        assert leaves[..i + 1][..i] == leaves[..i];
        var charged, _ := LeafCost(cfg, leaves[i].node);
        usage := PlainSum(usage, charged);
      }
      assert leaves[..|leaves|] == leaves;
      forall r | r in cfg.counts ensures OwnSum(cfg, leaves, r) == OwnerUsage(cfg, s, b, owner, r) {
        ListedOwned(cfg, s, leaves, b, owner, r);
      }
    }

    method PlainSum(a: Quota, b: Quota) returns (out: Quota)
      ensures forall r :: r in cfg.counts ==> Q(out, r) == Q(a, r) + Q(b, r)
    {
      out := a;
      for i := 0 to |cfg.counts|
        invariant forall r :: Q(out, r) == if r in cfg.counts[..i] then Q(a, r) + Q(b, r) else Q(a, r)
      {
        var r := cfg.counts[i];
        assert cfg.counts[..i + 1] == cfg.counts[..i] + [r];
        out := out[r := Q(a, r) + Q(b, r)];
      }
    }

    method CheckShare(b: Id, owner: Token, share: Quota, add: Quota, sub: Quota) returns (ok: bool)
      requires nodes.Valid()
      ensures ok <==> WithinShare(cfg, S(), b, owner, share, add, sub)
    {
      var usage := OwnerActiveUsage(b, owner);
      for i := 0 to |cfg.counts|
        invariant forall r :: r in cfg.counts[..i] ==>
          MIN_INT <= Q(usage, r) - Q(sub, r) + Q(add, r) <= MAX_INT
          && Fits(Q(usage, r) - Q(sub, r) + Q(add, r), Q(share, r))
      {
        var r := cfg.counts[i];
        assert cfg.counts[..i + 1] == cfg.counts[..i] + [r];
        var need := Q(usage, r) - Q(sub, r) + Q(add, r);
        if !(MIN_INT <= need <= MAX_INT && Fits(need, Q(share, r))) { return false; }
      }
      assert cfg.counts[..|cfg.counts|] == cfg.counts;
      return true;
    }

    /** Whether budget b grants owner a project going from sub to add on its own. */
    method CheckAutoApprovable(b: Entry, owner: Token, add: Quota, sub: Quota) returns (ok: bool)
      requires nodes.Valid() && Tree(Budgets(S())) && Billed(cfg, S()) && b.id in Budgets(S())
      requires b.id in S() && S()[b.id] == b.node
      requires Quantities(cfg, add) && Quantities(cfg, sub)
      ensures ok <==> AutoApprovable(cfg, S(), b.id, owner, add, sub)
    {
      if b.node.policy.auto.None? || b.node.status != Approved { return false; }
      if !IsPool(b.node.policy.auto) {
        var within := CheckShare(b.id, owner, b.node.policy.auto.value, add, sub);
        if !within { return false; }
      }
      assert Rooted(Budgets(S()), b.id);
      var chain := ChainFrom(b.id);
      ok := CheckCapacity(chain, add, sub, b.id);
    }

    // ── Moves ─────────────────────────────────────────────────────────────────

    /** A move of a budget that inherits: the budgets below with a limit of their own that inherited
        through it must fit what will bind there. */
    method CheckInheritingMove(x: Entry, chain: seq<Entry>, ghost target: Id) returns (ok: bool)
      requires nodes.Valid() && Tree(Budgets(S())) && Billed(cfg, S()) && target in Budgets(S())
      requires Stored(S(), x) && x.node.kind == Budget && x.node.inherits
      requires Entries(S(), Chain(Budgets(S()), target), chain)
      ensures ok <==> InheritingMoveOk(cfg, S(), x.id, target)
    {
      ghost var s := S();
      var queue := [Level(x, [x] + chain)];
      ghost var done: set<Id> := {};
      FirstLevel(s, x, chain, target);
      WalkStarts(cfg, s, x.id, target);
      assert QueuedIds(queue) == [x.id];
      while queue != []
        invariant LevelsOk(s, x.id, target, queue) && Walked(cfg, s, x.id, target, done, QueuedIds(queue))
        decreases Subtree(s, x.id) - done
      {
        ok, queue, done := CheckLevel(queue, x.id, target, done);
        if !ok { return false; }
      }
      WalkEnds(cfg, s, x.id, target, done);
      return true;
    }

    /** The first level of the queue: its active budgets are checked or queued. */
    method CheckLevel(queue: seq<Level>, ghost x: Id, ghost target: Id, ghost done: set<Id>)
      returns (ok: bool, left: seq<Level>, ghost done': set<Id>)
      requires nodes.Valid() && Tree(Budgets(S())) && Billed(cfg, S()) && queue != []
      requires LevelsOk(S(), x, target, queue) && Walked(cfg, S(), x, target, done, QueuedIds(queue))
      ensures !ok ==> !InheritingMoveOk(cfg, S(), x, target)
      ensures ok ==> LevelsOk(S(), x, target, left) && Walked(cfg, S(), x, target, done', QueuedIds(left))
      ensures ok ==> Subtree(S(), x) - done' < Subtree(S(), x) - done
    {
      assert queue[0] in queue;
      var more;
      ok, more := CheckChildren(queue[0], x, target);
      left, done' := queue[1..] + more, done + {queue[0].node.id};
      if ok {
        LevelDone(cfg, S(), x, target, done, queue, more);
        OneLess(Subtree(S(), x), done, queue[0].node.id);
      }
    }

    /** The active budgets right under one: those that inherit are gone on from, the others must fit. */
    method CheckChildren(from: Level, ghost x: Id, ghost target: Id) returns (fits: bool, more: seq<Level>)
      requires nodes.Valid() && Tree(Budgets(S())) && Billed(cfg, S()) && LevelOk(S(), x, target, from)
      ensures !fits ==> !InheritingMoveOk(cfg, S(), x, target)
      ensures fits ==> LevelsOk(S(), x, target, more) && ChildrenDone(cfg, S(), target, from.node.id, QueuedIds(more))
    {
      var children := nodes.ListNodes(ChildBudgets([from.node.id]));
      ChildrenListed(S(), from.node.id, children);
      var onward;
      fits, onward := CheckEach(from.chain, children, target);
      if !fits {
        SomeMisfit(cfg, S(), x, target, from.node.id, children);
        return false, [];
      }
      AllChildrenListed(cfg, S(), target, from.node.id, children, onward);
      more := LevelsBelow(from, onward, x, target);
    }

    method CheckEach(chain: seq<Entry>, children: seq<Entry>, ghost target: Id) returns (fits: bool, onward: seq<Entry>)
      requires nodes.Valid() && Tree(Budgets(S())) && Billed(cfg, S()) && BindsAlike(S(), target, chain)
      requires DistinctIds(children) && forall e :: e in children ==> Stored(S(), e)
      ensures fits <==> ChildrenFit(cfg, S(), target, children)
      ensures fits ==> GoingOn(children, onward)
    {
      onward := [];
      for i := 0 to |children|
        invariant GoingOn(children[..i], onward) && ChildrenFit(cfg, S(), target, children[..i])
      {
        var child := children[i];
        assert child in children && children[..i + 1] == children[..i] + [child];
        NewChild(children, i, onward);
        MoreFit(cfg, S(), target, children, i);
        fits := CheckChild(chain, child, target);
        if !fits { return false, []; }
        if GoesOn(child) { onward := onward + [child]; }
      }
      assert children[..|children|] == children;
      fits := true;
    }

    method CheckChild(chain: seq<Entry>, child: Entry, ghost target: Id) returns (fits: bool)
      requires nodes.Valid() && Tree(Budgets(S())) && Billed(cfg, S()) && BindsAlike(S(), target, chain)
      requires Stored(S(), child)
      ensures fits <==> ChildFitsThere(cfg, S(), target, child)
    {
      if !Active(child.node.status) || child.node.inherits { return true; }
      EntriesOf(S(), chain);
      fits := CheckBudgetLimit(child, chain, IdsOf(chain), child.node.limit, false);
      BoundAlike(cfg, S(), child.id, IdsOf(chain), Chain(Budgets(S()), target), child.node.limit);
    }

    method LevelsBelow(from: Level, onward: seq<Entry>, ghost x: Id, ghost target: Id) returns (levels: seq<Level>)
      requires nodes.Valid() && Tree(Budgets(S())) && LevelOk(S(), x, target, from)
      requires AreChildren(S(), from.node.id, onward) && forall e :: e in onward ==> GoesOn(e)
      ensures LevelsOk(S(), x, target, levels) && QueuedIds(levels) == IdsOf(onward)
    {
      levels := seq(|onward|, i requires 0 <= i < |onward| => Level(onward[i], [onward[i]] + from.chain));
      forall l | l in levels ensures LevelOk(S(), x, target, l) {
        var i :| 0 <= i < |levels| && levels[i] == l;
        assert onward[i] in onward && IsChild(S(), from.node.id, onward[i]);
        LevelBelow(S(), x, target, from, onward[i]);
      }
    }

    /** Every project that moves must keep drawing from above: from above its new place, or from inside
        the moved subtree. */
    method CheckAllocationsAfterMove(x: Entry, chain: seq<Entry>, ghost target: Id) returns (ok: bool)
      requires nodes.Valid() && Tree(Budgets(S())) && Stored(S(), x)
      requires Entries(S(), Chain(Budgets(S()), target), chain)
      ensures ok <==> AllocationsAfterMoveOk(S(), x.id, target)
    {
      var above := set e | e in chain :: e.id;
      AboveIds(S(), Chain(Budgets(S()), target), chain);
      if x.node.kind == Project {
        var own := if chain == [] then None else Some(chain[0].id);
        ok := DrawsAllOk([x], above, {}, own);
        LeafDraws(S(), x, target, above, own);
        return;
      }
      var tracked := BuildSubtreeParentMap([x]);
      FoundSubtree(S(), x, tracked);
      var projects := nodes.ListNodes(ProjectsUnder(tracked.Keys));
      ok := DrawsAllOk(projects, above, tracked.Keys, None);
      BudgetDraws(S(), x, target, above, projects);
    }

    method DrawsAllOk(projects: seq<Entry>, above: set<Id>, inside: set<Id>, own: Option<Id>) returns (ok: bool)
      ensures ok <==> forall e :: e in projects ==> DrawsOk(e.node, above, inside, own)
    {
      for i := 0 to |projects|
        invariant forall e :: e in projects[..i] ==> DrawsOk(e.node, above, inside, own)
      {
        assert projects[i] in projects && projects[..i + 1] == projects[..i] + [projects[i]];
        var p := projects[i].node;
        if Terminal(p.status) { continue; }
        for j := 0 to |p.allocations|
          invariant forall a :: a in p.allocations[..j] ==> FromAbove(a, above, inside, own)
        {
          var a := p.allocations[j];
          assert a in p.allocations;
          if a.budget in above || a.budget in inside {
            if own == Some(a.budget) { return false; }
            continue;
          }
          return false;
        }
      }
      assert projects[..|projects|] == projects;
      return true;
    }

    // ── Loading ───────────────────────────────────────────────────────────────

    /** The node an operation changes: neither an import nor past changing. */
    method LoadLive(id: Id) returns (n: Result<Node>)
      requires nodes.Valid()
      ensures LiveError(S(), id).None? ==> id in S() && n == Ok(S()[id])
      ensures LiveError(S(), id).Some? ==> n == Err(LiveError(S(), id).value)
    {
      var found := nodes.GetNode(id);
      if found.None? { return Err(NotFound); }
      if found.value.status == Imported { return Err(Forbidden); }
      if Terminal(found.value.status) { return Err(Conflict); }
      return Ok(found.value);
    }

    /** The budget a node is to be taken to, with its chain. */
    method LoadTarget(c: Caller, n: Node, target: Id) returns (r: Result<seq<Entry>>)
      requires nodes.Valid() && Tree(Budgets(S())) && Placed(S(), n) && (target in S() ==> Placed(S(), S()[target]))
      ensures TargetError(S(), c, n, target).Some? ==> r == Err(TargetError(S(), c, n, target).value)
      ensures TargetError(S(), c, n, target).None? ==> r.Ok? && Entries(S(), Chain(Budgets(S()), target), r.value)
    {
      var t := nodes.GetNode(target);
      if t.None? { return Err(NotFound); }
      if t.value.kind != Budget || t.value.status != Approved { return Err(Invalid); }
      if target == UNASSIGNED { return Err(Invalid); }
      assert Rooted(Budgets(S()), target);
      var chain := ChainFrom(target);
      var gives := ManagesParentChain(c.tokens, n);
      if !gives { return Err(Forbidden); }
      var takes := ManagesNode(c.tokens, t.value);
      if !takes { return Err(Forbidden); }
      return Ok(chain);
    }
  }

  lemma FirstLevel(s: Store, x: Entry, chain: seq<Entry>, target: Id)
    requires Tree(Budgets(s)) && Stored(s, x) && x.node.kind == Budget && x.node.inherits
    requires Entries(s, Chain(Budgets(s), target), chain)
    ensures LevelOk(s, x.id, target, Level(x, [x] + chain))
  {
    InheritsItself(s, x.id);
    assert IdsOf(chain) == Chain(Budgets(s), target);
    BindingCons(s, x, chain);
  }

  lemma LevelBelow(s: Store, x: Id, target: Id, from: Level, child: Entry)
    requires Tree(Budgets(s)) && LevelOk(s, x, target, from) && Stored(s, child) && child.node.inherits
    requires ActiveChild(s, from.node.id, child.id)
    ensures LevelOk(s, x, target, Level(child, [child] + from.chain))
  {
    ChildInherits(s, x, from.node.id, child.id);
    BindingCons(s, child, from.chain);
  }

  lemma MoreFit(cfg: Config, s: Store, target: Id, es: seq<Entry>, i: nat)
    requires i < |es| && es[i].id in s && ChildrenFit(cfg, s, target, es[..i])
    ensures ChildFitsThere(cfg, s, target, es[i]) ==> ChildrenFit(cfg, s, target, es[..i + 1])
    ensures !ChildFitsThere(cfg, s, target, es[i]) ==> !ChildrenFit(cfg, s, target, es)
  {
    assert es[i] in es && es[..i + 1] == es[..i] + [es[i]];
  }

  lemma NewChild(es: seq<Entry>, i: nat, onward: seq<Entry>)
    requires DistinctIds(es) && i < |es| && GoingOn(es[..i], onward)
    ensures GoingOn(es[..i] + [es[i]], if GoesOn(es[i]) then onward + [es[i]] else onward)
  {
    var all := es[..i] + [es[i]];
    assert forall e :: e in all <==> e in es[..i] || e == es[i];
    forall e | e in onward ensures e.id != es[i].id {
      var j :| 0 <= j < i && es[..i][j] == e;
    }
  }

  lemma LevelDone(cfg: Config, s: Store, x: Id, target: Id, done: set<Id>, queue: seq<Level>, more: seq<Level>)
    requires Tree(Budgets(s)) && queue != [] && Walked(cfg, s, x, target, done, QueuedIds(queue))
    requires ChildrenDone(cfg, s, target, queue[0].node.id, QueuedIds(more))
    ensures Walked(cfg, s, x, target, done + {queue[0].node.id}, QueuedIds(queue[1..] + more))
    ensures queue[0].node.id in Subtree(s, x) && queue[0].node.id !in done
  {
    var p := queue[0].node.id;
    assert QueuedIds(queue) == [p] + QueuedIds(queue[1..]);
    QueuedMore(queue[1..], more);
    WalkStep(cfg, s, x, target, done, p, QueuedIds(queue[1..]), QueuedIds(more));
  }

  lemma OneLess(all: set<Id>, done: set<Id>, p: Id)
    requires p in all && p !in done
    ensures all - (done + {p}) < all - done
  {
    assert p in all - done;
  }

  lemma QueuedMore(levels: seq<Level>, next: seq<Level>)
    ensures QueuedIds(levels + next) == QueuedIds(levels) + QueuedIds(next)
  {
  }

  lemma EntriesOf(s: Store, chain: seq<Entry>)
    requires forall e :: e in chain ==> Stored(s, e)
    ensures Entries(s, IdsOf(chain), chain)
  {
    assert forall i :: 0 <= i < |chain| ==> chain[i] in chain;
  }

  /** Chains with the same binding budget allow the same limits. */
  lemma BoundAlike(cfg: Config, s: Store, b: Id, ids: seq<Id>, other: seq<Id>, limit: Quota)
    requires Binding(s, ids) == Binding(s, other)
    ensures BudgetLimitOk(cfg, s, b, ids, limit, false) <==> BudgetLimitOk(cfg, s, b, other, limit, false)
  {
  }

  lemma ChildrenListed(s: Store, p: Id, children: seq<Entry>)
    requires Lists(s, ChildBudgets([p]), children)
    ensures DistinctIds(children) && AreChildren(s, p, children)
  {
  }

  lemma SomeMisfit(cfg: Config, s: Store, x: Id, target: Id, p: Id, children: seq<Entry>)
    requires Tree(Budgets(s)) && InheritsFrom(s, x, p) && AreChildren(s, p, children)
    requires !ChildrenFit(cfg, s, target, children)
    ensures !InheritingMoveOk(cfg, s, x, target)
  {
    var e :| e in children && !ChildFitsThere(cfg, s, target, e);
    assert IsChild(s, p, e);
    Misfit(cfg, s, x, target, p, e.id);
  }

  lemma AllChildrenListed(cfg: Config, s: Store, target: Id, p: Id, children: seq<Entry>, onward: seq<Entry>)
    requires Lists(s, ChildBudgets([p]), children) && GoingOn(children, onward)
    requires ChildrenFit(cfg, s, target, children) && AreChildren(s, p, children)
    ensures ChildrenDone(cfg, s, target, p, IdsOf(onward)) && AreChildren(s, p, onward)
  {
    forall b | ActiveChild(s, p, b)
      ensures Entry(b, s[b]) in children && (!s[b].inherits ==> FitsThere(cfg, s, target, b))
    {
      assert Matches(b, s[b], ChildBudgets([p]));
      assert ChildFitsThere(cfg, s, target, Entry(b, s[b]));
    }
    forall b | ActiveChild(s, p, b) && s[b].inherits ensures b in IdsOf(onward) {
      assert Entry(b, s[b]) in onward;
      var i :| 0 <= i < |onward| && onward[i] == Entry(b, s[b]);
      assert IdsOf(onward)[i] == b;
    }
    forall b | b in IdsOf(onward) ensures ActiveChild(s, p, b) && s[b].inherits {
      var i :| 0 <= i < |onward| && IdsOf(onward)[i] == b;
      assert onward[i] in onward && IsChild(s, p, onward[i]);
    }
  }

  lemma AboveIds(s: Store, ids: seq<Id>, chain: seq<Entry>)
    requires Entries(s, ids, chain)
    ensures forall b :: b in ids <==> b in set e | e in chain :: e.id
  {
    forall b | b in ids ensures b in set e | e in chain :: e.id {
      var i :| 0 <= i < |ids| && ids[i] == b;
      assert chain[i] in chain;
    }
  }

  lemma LeafDraws(s: Store, x: Entry, target: Id, above: set<Id>, own: Option<Id>)
    requires Tree(Budgets(s)) && Stored(s, x) && x.node.kind == Project
    requires forall b :: b in Chain(Budgets(s), target) <==> b in above
    requires own == if Chain(Budgets(s), target) == [] then None else Some(Chain(Budgets(s), target)[0])
    ensures AllocationsAfterMoveOk(s, x.id, target) <==> DrawsOk(x.node, above, {}, own)
  {
    assert forall a :: FromAbove(a, above, {}, own) <==> a.budget in Chain(Budgets(s), target) && a.budget != target;
  }

  lemma BudgetDraws(s: Store, x: Entry, target: Id, above: set<Id>, projects: seq<Entry>)
    requires Stored(s, x) && x.node.kind == Budget && Lists(s, ProjectsUnder(Subtree(s, x.id)), projects)
    requires forall b :: b in Chain(Budgets(s), target) <==> b in above
    ensures AllocationsAfterMoveOk(s, x.id, target)
            <==> forall e :: e in projects ==> DrawsOk(e.node, above, Subtree(s, x.id), None)
  {
    forall e | e in projects ensures StrictlyBelow(s, x.id, e.id) && s[e.id] == e.node && e.node.kind == Project {
      assert Matches(e.id, e.node, ProjectsUnder(Subtree(s, x.id)));
    }
    forall id | id in s && s[id].kind == Project && StrictlyBelow(s, x.id, id) ensures Entry(id, s[id]) in projects {
      assert Matches(id, s[id], ProjectsUnder(Subtree(s, x.id)));
    }
  }

  lemma RootFound(pm: Parents, x: Entry, tracked: Parents)
    requires Tree(pm) && x.id in pm && Found(pm, [x], tracked)
    ensures x.id in tracked
  {
    ChainOk(pm, x.id);
    assert x in [x];
    assert UnderAny(pm, [x], x.id);
  }

  lemma WithdrawalMeans(cfg: Config, s: Store, x: Id, limit: Quota, withdrawn: seq<Rid>)
    requires x in s
    requires forall r :: r in withdrawn <==> r in cfg.bools && Q(s[x].limit, r) == 1 && Q(limit, r) != 1
    ensures WithdrawalOk(cfg, s, x, limit) <==> forall r :: r in withdrawn ==> NoneHolds(s, x, r)
  {
    if WithdrawalOk(cfg, s, x, limit) {
      forall r, id | r in withdrawn && StrictlyBelow(s, x, id) ensures !HoldsFrom(s, x, s[id], r) {
      }
    }
    if forall r :: r in withdrawn ==> NoneHolds(s, x, r) {
      forall r, id | r in cfg.bools && Q(s[x].limit, r) == 1 && Q(limit, r) != 1 && StrictlyBelow(s, x, id)
        ensures !HoldsFrom(s, x, s[id], r)
      {
        assert r in withdrawn;
      }
    }
  }

  lemma FoundSubtree(s: Store, x: Entry, tracked: Parents)
    requires Found(Budgets(s), [x], tracked)
    ensures tracked.Keys == Subtree(s, x.id)
  {
    forall b | b in Budgets(s) ensures b in tracked <==> b in Subtree(s, x.id) {
      assert UnderAny(Budgets(s), [x], b) <==> x.id in Chain(Budgets(s), b) by {
        assert forall e :: e in [x] <==> e == x;
      }
    }
  }

  /** The budgets and projects listed are what lies below x, x aside. */
  lemma ListedBelow(s: Store, x: Id, tracked: set<Id>, budgets: seq<Entry>, leaves: seq<Entry>)
    requires tracked == Subtree(s, x)
    requires Lists(s, ProjectsUnder(tracked), leaves) && Lists(s, TheseNodes(tracked), budgets)
    ensures ListsBelow(s, x, budgets + leaves)
  {
    forall id {:trigger StrictlyBelow(s, x, id)} | StrictlyBelow(s, x, id)
      ensures Entry(id, s[id]) in budgets + leaves
    {
      if s[id].kind == Budget {
        assert Matches(id, s[id], TheseNodes(tracked));
      } else {
        assert Matches(id, s[id], ProjectsUnder(tracked));
      }
    }
    forall e | e in budgets + leaves && e.id != x ensures StrictlyBelow(s, x, e.id) && s[e.id] == e.node {
      if e in leaves { assert Matches(e.id, e.node, ProjectsUnder(tracked)); }
    }
  }

  lemma HoldersComplete(s: Store, x: Id, availabilities: seq<Rid>, all: seq<Entry>, holders: map<Rid, seq<Id>>, r: Rid)
    requires HoldersOf(x, Subtree(s, x), availabilities, all, holders) && ListsBelow(s, x, all) && r in availabilities
    ensures HoldersAt(holders, r) == [] <==> NoneHolds(s, x, r)
  {
    if HoldersAt(holders, r) == [] {
      forall id | StrictlyBelow(s, x, id) ensures !HoldsFrom(s, x, s[id], r) {
        assert Entry(id, s[id]) in all;
      }
    } else {
      var e :| e in all && e.id != x && HoldsVia(e.node, Subtree(s, x), r);
      assert StrictlyBelow(s, x, e.id) && HoldsFrom(s, x, s[e.id], r);
    }
  }

  lemma StatusesInRange(cfg: Config, usage: Usages, b: Id)
    requires InRangeUsages(usage, cfg.counts)
    ensures forall st, r :: st in ByStatus(usage, b) && r in cfg.counts ==> 0 <= Q(ByStatus(usage, b)[st], r) <= MAX_INT
  {
    forall st, r | st in ByStatus(usage, b) && r in cfg.counts
      ensures 0 <= Q(ByStatus(usage, b)[st], r) <= MAX_INT
    {
      assert Q(ByStatus(usage, b)[st], r) == Charged(usage, b, st, r);
    }
  }

  lemma ChainTracked(s: Store, start: Id, chain: seq<Entry>, tracked: Parents)
    requires Tree(Budgets(s)) && start in Budgets(s) && Entries(s, Chain(Budgets(s), start), chain)
    requires tracked.Keys == Budgets(s).Keys
    ensures forall e :: e in chain ==> e.id in tracked && e.id in s && s[e.id] == e.node
  {
    ChainBudgets(s, start, chain);
  }

  lemma RoomOfEntries(cfg: Config, s: Store, ids: seq<Id>, chain: seq<Entry>, add: Quota, sub: Quota)
    requires Entries(s, ids, chain)
    ensures HasRoom(cfg, s, ids, add, sub)
      <==> forall e :: e in chain && !e.node.inherits ==> Room(cfg, s, e.id, add, sub)
  {
    forall b | b in ids && b in s && !s[b].inherits ensures exists e :: e in chain && e.id == b && e.node == s[b] {
      var i :| 0 <= i < |ids| && ids[i] == b;
      assert chain[i] in chain;
    }
    forall e | e in chain ensures e.id in ids && e.id in s && s[e.id] == e.node {
      var i :| 0 <= i < |chain| && chain[i] == e;
    }
  }

  lemma ListedBillable(cfg: Config, s: Store, budgets: set<Id>, leaves: seq<Entry>)
    requires Billed(cfg, s) && Lists(s, ChargedUnder(cfg, budgets), leaves)
    ensures forall e :: e in leaves ==> Billable(cfg, e.node)
  {
  }

  /** With a budget, all those below it are tracked. */
  lemma FoundTracks(pm: Parents, roots: seq<Entry>, tracked: Parents)
    requires Found(pm, roots, tracked)
    ensures Tracks(pm, tracked)
  {
    forall b, d {:trigger d in Chain(pm, b), b in tracked} | d in tracked && d in Chain(pm, b) ensures b in tracked {
      ChainIn(pm, d, b);
      assert UnderAny(pm, roots, d);
      var e :| e in roots && e.id in Chain(pm, d);
      ChainTransitive(pm, e.id, d, b);
      assert UnderAny(pm, roots, b);
    }
  }

  lemma ChainBudgets(s: Store, start: Id, chain: seq<Entry>)
    requires Tree(Budgets(s)) && start in Budgets(s) && Entries(s, Chain(Budgets(s), start), chain)
    ensures AreBudgets(Budgets(s), chain)
  {
    ChainOk(Budgets(s), start);
  }

  /** A chain ends at the root, below which everything is. */
  lemma ChainSeesAll(pm: Parents, start: Id, chain: seq<Entry>, tracked: Parents)
    requires Tree(pm) && start in pm && Found(pm, chain, tracked)
    requires |chain| == |Chain(pm, start)| && forall i :: 0 <= i < |chain| ==> chain[i].id == Chain(pm, start)[i]
    ensures tracked.Keys == pm.Keys
  {
    ChainOk(pm, start);
    var k := |chain| - 1;
    assert chain[k] in chain && chain[k].id == ROOT;
    forall b | b in pm ensures b in tracked {
      ChainOk(pm, b);
      assert UnderAny(pm, chain, b);
    }
  }

  lemma FewerLeft(pm: Parents, es: seq<Entry>, before: Parents, tracked: Parents, found: seq<Id>)
    requires Added(pm, es, before, tracked, found) && found != []
    ensures pm.Keys - tracked.Keys < pm.Keys - before.Keys
  {
    assert found[0] in pm.Keys - before.Keys && found[0] !in pm.Keys - tracked.Keys;
  }

  lemma ListedBudgets(s: Store, parents: seq<Id>, es: seq<Entry>)
    requires Lists(s, ChildBudgets(parents), es)
    ensures AreBudgets(Budgets(s), es)
  {
  }

  /** One level of the walk: the budgets not seen yet are tracked and queued. */
  method AddLevel(ghost pm: Parents, es: seq<Entry>, before: Parents) returns (tracked: Parents, queue: seq<Id>)
    requires AreBudgets(pm, es) && forall b :: b in before ==> b in pm && before[b] == pm[b]
    ensures Added(pm, es, before, tracked, queue)
    ensures queue == [] ==> tracked == before
  {
    tracked, queue := before, [];
    for i := 0 to |es|
      invariant Added(pm, es[..i], before, tracked, queue)
      invariant queue == [] ==> tracked == before
    {
      assert es[i] in es && es[..i + 1] == es[..i] + [es[i]];
      if es[i].id !in tracked {
        tracked := tracked[es[i].id := es[i].node.parent];
        queue := queue + [es[i].id];
      }
    }
    assert es[..|es|] == es;
  }

  lemma RootsExplored(pm: Parents, roots: seq<Entry>, tracked: Parents, queue: seq<Id>)
    requires Tree(pm) && Added(pm, roots, map[], tracked, queue)
    ensures Explored(pm, roots, tracked, queue)
  {
    forall b {:trigger UnderAny(pm, roots, b)} | b in tracked ensures UnderAny(pm, roots, b) {
      var e :| e in roots && e.id == b;
      ChainOk(pm, b);
    }
  }

  lemma LevelExplored(s: Store, roots: seq<Entry>, before: Parents, queue: seq<Id>, children: seq<Entry>,
                      tracked: Parents, next: seq<Id>)
    requires Tree(Budgets(s)) && Explored(Budgets(s), roots, before, queue)
    requires Lists(s, ChildBudgets(queue), children) && Added(Budgets(s), children, before, tracked, next)
    ensures Explored(Budgets(s), roots, tracked, next)
  {
    var pm := Budgets(s);
    forall b {:trigger UnderAny(pm, roots, b)} | b in next ensures UnderAny(pm, roots, b) {
      var e :| e in children && e.id == b;
      ChildUnder(pm, roots, b);
    }
    forall b | ChildOf(pm, tracked, next, b) ensures b in tracked {
      if pm[b].value in queue {
        assert Entry(b, s[b]) in children;
      } else {
        assert ChildOf(pm, before, queue, b) ==> b in before;
      }
    }
  }

  lemma ChildUnder(pm: Parents, roots: seq<Entry>, b: Id)
    requires Tree(pm) && b in pm && pm[b].Some? && UnderAny(pm, roots, pm[b].value)
    ensures UnderAny(pm, roots, b)
  {
    ChainStep(pm, b);
    var e :| e in roots && e.id in Chain(pm, pm[b].value);
    assert e.id in Chain(pm, b);
  }

  lemma AllExplored(pm: Parents, roots: seq<Entry>, tracked: Parents)
    requires Tree(pm) && Explored(pm, roots, tracked, [])
    ensures Found(pm, roots, tracked)
  {
    forall b {:trigger UnderAny(pm, roots, b)} | b in pm && UnderAny(pm, roots, b) ensures b in tracked {
      var e :| e in roots && e.id in Chain(pm, b);
      ExploredDown(pm, tracked, e.id, b);
    }
  }

  lemma {:induction false} ExploredDown(pm: Parents, tracked: Parents, a: Id, b: Id)
    requires Tree(pm) && b in pm && a in tracked && a in Chain(pm, b)
    requires forall d {:trigger ChildOf(pm, tracked, [], d)} :: ChildOf(pm, tracked, [], d) ==> d in tracked
    ensures b in tracked
    decreases |Chain(pm, b)|
  {
    if a != b {
      ChainStep(pm, b);
      ExploredDown(pm, tracked, a, pm[b].value);
      assert ChildOf(pm, tracked, [], b);
    }
  }

  lemma ClimbStep(s: Store, start: Id, chain: seq<Entry>, seen: set<Id>, id: Id)
    requires MayClimb(s, start, chain, seen, Some(id))
    ensures Rooted(Budgets(s), start) ==> id !in seen && id in s
    ensures id in s ==> MayClimb(s, start, chain + [Entry(id, s[id])], seen + {id}, s[id].parent)
  {
    if Rooted(Budgets(s), start) {
      var pm, k := Budgets(s), |chain|;
      var full := Chain(pm, start);
      ChainTwice(pm, start, k);
      ChainLink(pm, start, k);
      assert full[..k + 1] == full[..k] + [id];
    }
  }

  lemma ClimbEnds(s: Store, start: Id, chain: seq<Entry>, seen: set<Id>)
    requires MayClimb(s, start, chain, seen, None)
    ensures Rooted(Budgets(s), start) ==> Entries(s, Chain(Budgets(s), start), chain)
  {
    if Rooted(Budgets(s), start) {
      assert Chain(Budgets(s), start)[..|chain|] == Chain(Budgets(s), start);
    }
  }

  lemma ChainTwice(pm: Parents, b: Id, k: nat)
    requires k < |Chain(pm, b)|
    ensures Chain(pm, b)[k] !in Chain(pm, b)[..k]
  {
    forall i | 0 <= i < k ensures Chain(pm, b)[i] != Chain(pm, b)[k] {
      ChainDistinct(pm, b, i, k);
    }
  }
}
