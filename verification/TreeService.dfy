/** The tree service as it runs: its cascades and its operations (internal/core/tree). Every method is
    held to the functions of module Steps. */
module TreeService {
  import opened Model
  import opened Chains
  import opened Charges
  import opened Rules
  import opened Steps
  import opened Reports
  import opened Runs
  import opened Shape
  import opened Values
  import opened Nodes
  import opened Cascades
  import opened TreeChecks

  const EVERYTHING := Query(None, None, None, None, None, None)

  /** None where the node holds nothing to rewrite. */
  function RewriteChange(n: Node, w: Rewrite): Option<Node> {
    if TouchesNode(w, n) then Some(RewrittenNode(w, n)) else None
  }

  function EntryIds(es: seq<Entry>): set<Id> {
    set e | e in es :: e.id
  }

  /** No stored history is longer than the cap. */
  ghost predicate Neat(s: Store) {
    forall id :: id in s ==> CapHistory(s[id]) == s[id]
  }

  function GrantChange(n: Node, r: Rid): Option<Node> {
    if Q(n.limit, r) == 1 then None else Some(n.(limit := n.limit[r := 1]))
  }

  /** Why the caller may not edit the node as asked, if so. */
  ghost function EditRightsError(s: Store, c: Caller, id: Id, req: UpdateRequest): Option<Error>
    requires id in s
  {
    var n := s[id];
    if n.kind == Project && !LeafDirectEdit(req) then Some(Invalid)
    else if PolicyEdit(req) && !(n.kind == Project && IsOwner(c.tokens, n)) && !Manages(s, c.tokens, n)
    then Some(Forbidden)
    else if CapacityEdit(req) && !ManagesAbove(s, c.tokens, n) then Some(Forbidden)
    else if id == ROOT && req.admins.Some? then Some(Forbidden)
    else None
  }

  /** chain is the chain of target. */
  ghost predicate OnChain(s: Store, target: Id, chain: seq<Entry>) {
    Entries(s, Chain(Budgets(s), target), chain)
  }

  function NodesUnder(budgets: set<Id>): Query {
    Query(None, Some(budgets), None, None, None, None)
  }

  /** shortenEnd: None where nothing runs longer. */
  function EndShortened(n: Node, end: Time): Option<Node> {
    if !Cuts(n, end) then None
    else Some(n.(end := if RunsLonger(n.end, end) then Some(end) else n.end,
                 pending := if CutsProposal(n, end) then Some(n.pending.value.(end := Some(end))) else n.pending,
                 log := More(n.log, 1)))
  }

  /** shortenTerm: None where the budget allows no longer. */
  function TermShortened(n: Node, days: int): Option<Node> {
    if !AllowsLonger(n, days) then None else Some(n.(maxTerm := Some(days), log := More(n.log, 1)))
  }

  /** What an operation that found s and left t reported, next to what it was to do: an error changes
      nothing. */
  ghost predicate Did(s: Store, t: Store, err: Option<Error>, o: Outcome) {
    match o
    case Ok(v) => err.None? && t == v
    case Err(e) => err == Some(e) && t == s
  }

  ghost predicate BlockedBelow(s: Store, x: Id) {
    exists d :: StrictlyBelow(s, x, d) && BlocksDeletion(s[d])
  }

  predicate SomeBlocks(es: seq<Entry>) {
    exists e :: e in es && BlocksDeletion(e.node)
  }

  function ProjectIds(es: seq<Entry>): set<Id> {
    set e | e in es && e.node.kind == Project :: e.id
  }

  ghost function ProjectsBelow(s: Store, x: Id): set<Id> {
    set id | id in s && s[id].kind == Project && s[id].parent.Some? && s[id].parent.value in Subtree(s, x)
  }

  /** more are the live ones of the children, next the budgets among those. */
  ghost predicate Picked(children: seq<Entry>, more: set<Id>, next: seq<Id>) {
    && (forall id :: id in more <==> exists e :: e in children && LiveEntry(e) && e.id == id)
    && (forall id :: id in next <==> exists e :: e in children && LiveEntry(e) && e.node.kind == Budget && e.id == id)
  }

  ghost function VisitedBelow(s: Store, f: Node -> Option<Node>, top: Id): Store {
    map id | id in s :: if LiveBelow(s, top, id) then Visit(f, s[id]) else s[id]
  }

  class Service {
    const nodes: NodeStore
    const cfg: Config
    const checks: Checks

    ghost predicate Wired() {
      checks.nodes == nodes && checks.cfg == cfg
    }

    ghost function S(): Store
      reads nodes
      requires nodes.Valid()
    {
      nodes.Contents()
    }

    ghost predicate Valid()
      reads nodes
    {
      Wired() && nodes.Valid() && cfg.Valid() && Shaped(S()) && Sane(cfg, S())
    }

    constructor (nodes: NodeStore, cfg: Config)
      ensures this.nodes == nodes && this.cfg == cfg && Wired()
    {
      this.nodes := nodes;
      this.cfg := cfg;
      this.checks := new Checks(nodes, cfg);
    }

    // ── Cascades ──────────────────────────────────────────────────────────────

    /** Every live node below top is changed by f, level by level, each on its stored state. */
    method VisitBelow(top: Id, f: Node -> Option<Node>)
      requires nodes.Valid() && Shaped(S()) && top in Budgets(S()) && Steady(f)
      modifies nodes
      ensures nodes.Valid()
      ensures S() == VisitedBelow(old(S()), f, top)
    {
      ghost var s := S();
      SweepStarts(s, top);
      DepthBounded(s, top, {}, [top], |Chain(Budgets(s), top)|);
      assert S() == Visited(s, f, {});
      ghost var done, depth := VisitLevels([top], f, s, top, |Chain(Budgets(s), top)|);
      SweepEnds(s, f, top, done, depth);
    }

    method VisitLevels(parents: seq<Id>, f: Node -> Option<Node>, ghost s: Store, ghost top: Id, ghost start: nat)
      returns (ghost done: set<Id>, ghost depth: nat)
      requires nodes.Valid() && Shaped(s) && Steady(f) && S() == Visited(s, f, {})
      requires Sweeping(s, top, {}, parents, start) && start <= |Budgets(s)|
      modifies nodes
      ensures nodes.Valid() && S() == Visited(s, f, done) && Sweeping(s, top, done, [], depth)
    {
      var frontier := parents;
      done, depth := {}, start;
      ghost var most := |Budgets(s)|;
      while frontier != []
        invariant nodes.Valid() && S() == Visited(s, f, done)
        invariant Sweeping(s, top, done, frontier, depth) && (frontier != [] ==> depth <= most)
        decreases most + 1 - depth
      {
        frontier, done := VisitLevel(frontier, f, s, top, done, depth);
        depth := depth + 1;
      }
    }

    method VisitLevel(parents: seq<Id>, f: Node -> Option<Node>, ghost s: Store, ghost top: Id, ghost done: set<Id>,
                      ghost depth: nat)
      returns (next: seq<Id>, ghost done': set<Id>)
      requires nodes.Valid() && Shaped(s) && Steady(f) && S() == Visited(s, f, done)
      requires Sweeping(s, top, done, parents, depth)
      modifies nodes
      ensures nodes.Valid() && S() == Visited(s, f, done')
      ensures Sweeping(s, top, done', next, depth + 1) && (next != [] ==> depth + 1 <= |Budgets(s)|)
    {
      var children := nodes.ListNodes(ChildrenOf(parents));
      ghost var more;
      next, more := VisitChildren(children, f, s, done);
      ListedLevel(s, f, done, parents, children, more, next);
      SweepLevel(s, top, done, parents, depth, more, next);
      done' := done + more;
      if next != [] { DepthBounded(s, top, done', next, depth + 1); }
    }

    method VisitChildren(children: seq<Entry>, f: Node -> Option<Node>, ghost s: Store, ghost done: set<Id>)
      returns (next: seq<Id>, ghost more: set<Id>)
      requires nodes.Valid() && Steady(f) && S() == Visited(s, f, done) && forall e :: e in children ==> e.id in s
      modifies nodes
      ensures nodes.Valid() && S() == Visited(s, f, done + more)
      ensures Picked(children, more, next)
    {
      next, more := [], {};
      assert done + more == done;
      for i := 0 to |children|
        invariant nodes.Valid() && S() == Visited(s, f, done + more)
        invariant Picked(children[..i], more, next)
      {
        var child := children[i];
        assert child in children && children[..i + 1] == children[..i] + [child];
        PickedNext(children[..i], more, next, child);
        if Terminal(child.node.status) || child.node.status == Imported { continue; }
        if child.node.kind == Budget { next := next + [child.id]; }
        VisitNode(child.id, f, s, done + more);
        assert done + (more + {child.id}) == done + more + {child.id};
        more := more + {child.id};
      }
      assert children[..|children|] == children;
    }

    /** Every live node below top ends by end. */
    method ShortenSubtreeEnds(top: Id, end: Time)
      requires nodes.Valid() && Shaped(S()) && top in Budgets(S())
      modifies nodes
      ensures nodes.Valid() && S() == CascadeEnds(old(S()), top, end)
    {
      ghost var s := S();
      var f := (n: Node) => EndShortened(n, end);
      EndsVisit(s, f, top, end);
      VisitBelow(top, f);
    }

    /** Every live budget below top allows at most days, every live project ends within them. */
    method ShortenSubtreeTerms(top: Id, days: int, now: Time)
      requires nodes.Valid() && Shaped(S()) && top in Budgets(S())
      modifies nodes
      ensures nodes.Valid() && S() == CascadeTerms(old(S()), top, days, now)
    {
      ghost var s := S();
      var end := TermEnd(now, days);
      var f := (n: Node) => if n.kind == Budget then TermShortened(n, days) else EndShortened(n, end);
      TermsVisit(s, f, top, days, now);
      VisitBelow(top, f);
    }

    method VisitNode(id: Id, f: Node -> Option<Node>, ghost s: Store, ghost done: set<Id>)
      requires nodes.Valid() && Steady(f) && S() == Visited(s, f, done) && id in s
      modifies nodes
      ensures nodes.Valid() && S() == Visited(s, f, done + {id})
    {
      VisitedPut(s, f, done, id);
      var wrote := nodes.UpdateNode(id, f);
    }

    // ── Decisions ─────────────────────────────────────────────────────────────

    method RejectNode(c: Caller, id: Id) returns (err: Option<Error>)
      requires Valid()
      modifies nodes
      ensures nodes.Valid() && Did(old(S()), S(), err, Reject(old(S()), c, id))
    {
      var current := nodes.GetNode(id);
      if current.None? { return Some(NotFound); }
      var n := current.value;
      if n.status != Pending && n.status != ChangePending { return Some(Conflict); }
      PlacedIn(S(), id);
      var manages := checks.ManagesParentChain(c.tokens, n);
      if !manages { return Some(Forbidden); }
      var status, parent := n.status, n.parent;
      var f := (m: Node) => RefuseChange(m, status, parent);
      assert f(n) == Some(Refused(n));
      var wrote := nodes.UpdateNode(id, f);
      return None;
    }

    /** Written on the node as it is stored, with its status looked at again there. */
    method ReleaseNode(c: Caller, id: Id, delete: bool, deletable: bool) returns (err: Option<Error>)
      requires Valid()
      modifies nodes
      ensures nodes.Valid() && Did(old(S()), S(), err, Release(old(S()), c, id, delete, deletable))
    {
      var current := nodes.GetNode(id);
      if current.None? { return Some(NotFound); }
      var n := current.value;
      if n.kind != Project { return Some(Invalid); }
      if n.status != Approved { return Some(Conflict); }
      if delete && !deletable { return Some(Conflict); }
      if !IsOwner(c.tokens, n) {
        PlacedIn(S(), id);
        var manages := checks.ManagesNode(c.tokens, n);
        if !manages { return Some(Forbidden); }
      }
      var wrote := nodes.UpdateNode(id, (m: Node) => ReleaseChange(m, delete));
      return None;
    }

    method TransferOwner(c: Caller, id: Id, owner: Token) returns (err: Option<Error>)
      requires Valid()
      modifies nodes
      ensures nodes.Valid() && Did(old(S()), S(), err, Transfer(old(S()), c, id, owner))
    {
      var current := checks.LoadLive(id);
      if current.Err? { return Some(current.error); }
      var n := current.value;
      if n.kind != Project { return Some(Invalid); }
      PlacedIn(S(), id);
      var manages := checks.ManagesParentChain(c.tokens, n);
      if !manages { return Some(Forbidden); }
      if n.owner == owner { return Some(Conflict); }
      var parent := n.parent;
      var f := (m: Node) => HandOverChange(m, parent, owner);
      assert f(n) == Some(HandedOver(n, owner));
      var wrote := nodes.UpdateNode(id, f);
      return None;
    }

    method DeleteNode(c: Caller, id: Id) returns (err: Option<Error>)
      requires Valid()
      modifies nodes
      ensures nodes.Valid() && Did(old(S()), S(), err, Delete(old(S()), c, id))
    {
      ghost var s := S();
      var current := nodes.GetNode(id);
      if current.None? { return Some(NotFound); }
      var n := current.value;
      if n.kind != Budget { return Some(Invalid); }
      if id == ROOT || id == UNASSIGNED { return Some(Forbidden); }
      PlacedIn(s, id);
      var manages := checks.ManagesNode(c.tokens, n);
      if !manages { return Some(Forbidden); }
      var blocked, gone := CollectSubtree(Entry(id, n));
      if blocked { return Some(Invalid); }
      nodes.DeleteNodes(gone);
      return None;
    }

    /** The subtree of a budget, and whether something in it stands in the way of deleting it. */
    method CollectSubtree(x: Entry) returns (blocked: bool, gone: set<Id>)
      requires nodes.Valid() && Wired() && Tree(Budgets(S()))
      requires x.id in S() && S()[x.id] == x.node && x.node.kind == Budget
      ensures blocked <==> BlockedBelow(S(), x.id)
      ensures !blocked ==> gone == Closure(S(), x.id)
    {
      var tracked := checks.BuildSubtreeParentMap([x]);
      FoundSubtree(S(), x, tracked);
      var projects;
      blocked, projects := CollectDescendants(x.id, tracked.Keys);
      gone := tracked.Keys + projects;
      if !blocked { ClosureCollected(S(), x.id, tracked.Keys, projects); }
    }

    method CollectDescendants(ghost x: Id, budgets: set<Id>) returns (blocked: bool, projects: set<Id>)
      requires nodes.Valid() && Tree(Budgets(S())) && x in Budgets(S()) && budgets == Subtree(S(), x)
      ensures blocked <==> BlockedBelow(S(), x)
      ensures !blocked ==> projects == ProjectsBelow(S(), x)
    {
      var descendants := nodes.ListNodes(NodesUnder(budgets));
      DescendantsListed(S(), x, descendants);
      blocked, projects := ScanDescendants(descendants);
    }

    method ScanDescendants(descendants: seq<Entry>) returns (blocked: bool, projects: set<Id>)
      ensures blocked <==> SomeBlocks(descendants)
      ensures !blocked ==> projects == ProjectIds(descendants)
    {
      projects := {};
      for i := 0 to |descendants|
        invariant forall e :: e in descendants[..i] ==> !BlocksDeletion(e.node)
        invariant projects == ProjectIds(descendants[..i])
      {
        var e := descendants[i];
        assert descendants[..i + 1] == descendants[..i] + [e];
        if BlocksDeletion(e.node) { return true, {}; }
        if e.node.kind != Budget { projects := projects + {e.id}; }
      }
      assert descendants[..|descendants|] == descendants;
      return false, projects;
    }

    // ── Approval ──────────────────────────────────────────────────────────────

    method ApproveNode(c: Caller, id: Id, req: ApproveRequest) returns (err: Option<Error>)
      requires Valid() && Billed(cfg, S())
      modifies nodes
      ensures nodes.Valid() && Did(old(S()), S(), err, Approve(cfg, old(S()), c, id, req))
    {
      ghost var s := S();
      var current := nodes.GetNode(id);
      if current.None? { return Some(NotFound); }
      var n := current.value;
      if n.status != Pending && n.status != ChangePending { return Some(Conflict); }
      PlacedIn(s, id);
      var manages := checks.ManagesParentChain(c.tokens, n);
      if !manages { return Some(Forbidden); }
      if req.expected.None? { return Some(Invalid); }
      if req.expected.value != Revision(n) { return Some(Conflict); }
      var chain := checks.ParentChain(n);
      HeldQuantitiesIn(cfg, s, id);
      var ok := CheckGrant(Entry(id, n), chain, FinalLimit(n, req));
      if !ok { return Some(Invalid); }
      var decided := Decide(n, chain, req, c.now);
      Grant(id, n, decided, req, c.now);
      return None;
    }

    /** Whether limit may be granted to a waiting node. */
    method CheckGrant(x: Entry, chain: seq<Entry>, limit: Quota) returns (ok: bool)
      requires Wired() && nodes.Valid() && Tree(Budgets(S())) && Billed(cfg, S()) && cfg.Valid()
      requires x.id in S() && S()[x.id] == x.node && Hangs(S(), x.node) && Entries(S(), Above(S(), x.node), chain)
      requires x.node.kind == Project && x.node.status == ChangePending ==> Quantities(cfg, x.node.limit)
      ensures ok <==> GrantOk(cfg, S(), x.id, limit)
    {
      if x.node.kind == Project {
        var held := if x.node.status == ChangePending then x.node.limit else map[];
        ok := checks.CheckLeafLimit(x.node.allocations, chain, x.node.parent.value, limit, held, true);
        return;
      }
      if x.node.inherits { return true; }
      ok := checks.CheckBudgetLimit(x, chain, Above(S(), x.node), limit, x.node.status == ChangePending);
    }

    /** What approval makes of the node: the end it is granted is at most the bound above. */
    method Decide(n: Node, chain: seq<Entry>, req: ApproveRequest, now: Time) returns (m: Node)
      requires Wired() && nodes.Valid() && Entries(S(), Above(S(), n), chain)
      ensures m == Decided(S(), n, req, now)
    {
      var bound := checks.ChainEndOf(chain, Above(S(), n));
      if n.kind == Project {
        var term := checks.ChainMaxTermOf(chain, Above(S(), n));
        bound := ProjectBound(bound, term, now).0;
      }
      var end := AskedEnd(n);
      if bound.Some? && (end.None? || !NoLater(end.value, bound)) { end := bound; }
      m := n.(status := Approved, limit := FinalLimit(n, req), end := end,
              members := FinalMembers(n), pending := None, log := More(n.log, 1));
    }

    /** Writes the decision on the node as it is stored, unless that is no longer what was decided on, and
        carries a budget's end down. */
    method Grant(id: Id, n: Node, decided: Node, ghost req: ApproveRequest, ghost now: Time)
      requires nodes.Valid() && Shaped(S()) && id in S() && S()[id] == n
      requires n.status == Pending || n.status == ChangePending
      requires decided == Decided(S(), n, req, now)
      modifies nodes
      ensures nodes.Valid()
      ensures var t := Put(old(S()), id, decided);
              S() == if n.kind == Budget && decided.end.Some? then CascadeEnds(t, id, decided.end.value) else t
    {
      GrantedShape(S(), id, req, now);
      var status, revision := n.status, Revision(n);
      var f := (m: Node) => DecideChange(m, status, revision, decided);
      assert f(n) == Some(decided);
      var wrote := nodes.UpdateNode(id, f);
      if n.kind == Budget && decided.end.Some? {
        ShortenSubtreeEnds(id, decided.end.value);
      }
    }

    // ── Change requests ───────────────────────────────────────────────────────

    method RequestChangeOf(c: Caller, id: Id, req: ChangeRequest) returns (err: Option<Error>)
      requires Valid() && Billed(cfg, S())
      modifies nodes
      ensures nodes.Valid() && Did(old(S()), S(), err, RequestChange(cfg, old(S()), c, id, req))
    {
      var current := checks.LoadLive(id);
      if current.Err? { return Some(current.error); }
      PlacedIn(S(), id);
      HeldQuantitiesIn(cfg, S(), id);
      err := ChangeOf(c, id, current.value, req);
    }

    method ChangeOf(c: Caller, id: Id, n: Node, req: ChangeRequest) returns (err: Option<Error>)
      requires Wired() && nodes.Valid() && Tree(Budgets(S())) && Billed(cfg, S()) && cfg.Valid()
      requires id in S() && S()[id] == n && Live(n.status) && Hangs(S(), n) && Placed(S(), n)
      requires n.kind == Project && Active(n.status) ==> Quantities(cfg, n.limit)
      modifies nodes
      ensures nodes.Valid() && Did(old(S()), S(), err, ChangeLive(cfg, old(S()), c, id, req))
    {
      if !(n.kind == Project && IsOwner(c.tokens, n)) {
        var manages := checks.ManagesNode(c.tokens, n);
        if !manages { return Some(Forbidden); }
      }
      var chain := checks.ParentChain(n);
      var asked := CheckAsked(n, chain, req, c.now);
      if !asked { return Some(Invalid); }
      if n.status == Pending {
        nodes.UpsertNode(id, Amended(n, req));
        return None;
      }
      if AsksNothing(req) { return Some(Invalid); }
      AskedQuantities(cfg, S(), n, req);
      var verdict, refused := ChangeDecision(c, n, req);
      if refused { return Some(Forbidden); }
      nodes.UpsertNode(id, if verdict == Direct then AppliedDirectly(n, req) else Proposed(n, req));
      return None;
    }

    /** What becomes of a change to an active node, and whether it may not even wait. */
    method ChangeDecision(c: Caller, n: Node, req: ChangeRequest) returns (verdict: Verdict, refused: bool)
      requires Wired() && nodes.Valid() && Tree(Budgets(S())) && Billed(cfg, S()) && cfg.Valid()
      requires Hangs(S(), n) && Placed(S(), n)
      requires n.kind == Project ==> Quantities(cfg, n.limit) && (req.limit.Some? ==> Quantities(cfg, req.limit.value))
      ensures verdict == if n.kind == Project then LeafVerdict(cfg, S(), n, req) else Waits
      ensures refused <==> verdict == Beyond && n.parent.Some? && n.parent.value in S()
                           && !RequestsBeyond(S()[n.parent.value]) && !ManagesAbove(S(), c.tokens, n)
    {
      verdict, refused := Waits, false;
      if n.kind == Project { verdict := LeafChangeDecision(n, req); }
      if verdict == Beyond { refused := BeyondRefused(c, n); }
    }

    /** What is asked for is in order: the end, the limit and whose members they are. */
    method CheckAsked(n: Node, chain: seq<Entry>, req: ChangeRequest, now: Time) returns (ok: bool)
      requires Wired() && nodes.Valid() && Tree(Budgets(S())) && Billed(cfg, S()) && cfg.Valid()
      requires Hangs(S(), n) && Entries(S(), Above(S(), n), chain)
      ensures ok <==> AskedEndOk(S(), n, req, now) && AskedLimitOk(cfg, S(), n, req) && AskedMembersOk(n, req)
    {
      ok := CheckAskedEnd(n, chain, req, now);
      if !ok { return; }
      ok := CheckAskedLimit(n, chain, req);
      if !ok { return; }
      ok := AskedMembersOk(n, req);
    }

    method CheckAskedEnd(n: Node, chain: seq<Entry>, req: ChangeRequest, now: Time) returns (ok: bool)
      requires Wired() && nodes.Valid() && Entries(S(), Above(S(), n), chain)
      ensures ok <==> AskedEndOk(S(), n, req, now)
    {
      if req.end.None? { return true; }
      var end := checks.ChainEndOf(chain, Above(S(), n));
      if n.kind == Project {
        var term := checks.ChainMaxTermOf(chain, Above(S(), n));
        return FitProjectEnd(req.end, end, term, now).Ok?;
      }
      return FitEnd(req.end, end).Ok?;
    }

    method CheckAskedLimit(n: Node, chain: seq<Entry>, req: ChangeRequest) returns (ok: bool)
      requires Wired() && nodes.Valid() && Tree(Budgets(S())) && Billed(cfg, S()) && cfg.Valid()
      requires Hangs(S(), n) && Entries(S(), Above(S(), n), chain)
      ensures ok <==> AskedLimitOk(cfg, S(), n, req)
    {
      if req.limit.None? { return true; }
      if n.inherits { return false; }
      if n.kind != Project { return ValidBudgetLimit(cfg, req.limit.value); }
      assert Quantities(cfg, map[]);
      ok := checks.CheckLeafLimit(n.allocations, chain, n.parent.value, req.limit.value, map[], false);
    }

    /** Whether a change to a project takes effect, waits, or goes beyond what is granted unasked. */
    method LeafChangeDecision(n: Node, req: ChangeRequest) returns (verdict: Verdict)
      requires Wired() && nodes.Valid() && Tree(Budgets(S())) && Billed(cfg, S()) && cfg.Valid()
      requires n.kind == Project && Hangs(S(), n) && Quantities(cfg, n.limit)
      requires req.limit.Some? ==> Quantities(cfg, req.limit.value)
      ensures verdict == LeafVerdict(cfg, S(), n, req)
    {
      var parent := nodes.GetNode(n.parent.value);
      var p := Entry(n.parent.value, parent.value);
      if req.limit.Some? && !Shrinks(cfg, n.limit, req.limit.value) {
        var granted := checks.CheckAutoApprovable(p, n.owner, req.limit.value, n.limit);
        if !granted { return Beyond; }
      }
      if req.end.Some? && !NoLater(req.end.value, n.end)
         && !(p.node.policy.auto.Some? && p.node.policy.autoExtend && p.node.status == Approved
              && NoLater(req.end.value, p.node.end))
      {
        return Waits;
      }
      return Direct;
    }

    /** A budget that takes no requests beyond what it grants unasked leaves those to its managers. */
    method BeyondRefused(c: Caller, n: Node) returns (refused: bool)
      requires Wired() && nodes.Valid() && Tree(Budgets(S())) && Hangs(S(), n) && Placed(S(), n)
      ensures refused <==> n.parent.Some? && n.parent.value in S() && !RequestsBeyond(S()[n.parent.value])
                           && !ManagesAbove(S(), c.tokens, n)
    {
      if n.parent.None? { return false; }
      var parent := nodes.GetNode(n.parent.value);
      if RequestsBeyond(parent.value) { return false; }
      var manages := checks.ManagesParentChain(c.tokens, n);
      return !manages;
    }

    // ── Allocations ───────────────────────────────────────────────────────────

    method SetAllocation(c: Caller, id: Id, b: Id, amount: Quota) returns (err: Option<Error>)
      requires Valid() && Billed(cfg, S())
      modifies nodes
      ensures nodes.Valid() && Did(old(S()), S(), err, Allocate(cfg, old(S()), c, id, b, amount))
    {
      var limit := NonZero(amount);
      if !ValidLeafLimit(cfg, limit) { return Some(Invalid); }
      var current := checks.LoadLive(id);
      if current.Err? { return Some(current.error); }
      LeafLimitQuantities(cfg, limit);
      HeldInRange(cfg, S(), id, b);
      PlacedIn(S(), id);
      err := AllocateTo(c, id, current.value, b, limit);
    }

    method AllocateTo(c: Caller, id: Id, n: Node, b: Id, limit: Quota) returns (err: Option<Error>)
      requires Wired() && nodes.Valid() && Tree(Budgets(S())) && Billed(cfg, S()) && cfg.Valid()
      requires id in S() && S()[id] == n && Placed(S(), n)
      requires Quantities(cfg, limit) && Quantities(cfg, HeldFrom(n.allocations, b))
      modifies nodes
      ensures nodes.Valid() && Did(old(S()), S(), err, AllocateLive(cfg, old(S()), c, id, b, limit))
    {
      if n.kind != Project { return Some(Invalid); }
      var from := SourceChain(n, b);
      if from == [] { return Some(Invalid); }
      var held := HeldOf(n.allocations, b);
      if held == map[] && limit == map[] { return Some(Invalid); }
      err := CheckAllocation(c, n, from, b, limit, held);
      if err.Some? { return; }
      nodes.UpsertNode(id, Allocated(n, b, limit));
    }

    /** The chain from b upward, if b lies above the project's own budget. */
    method SourceChain(n: Node, b: Id) returns (from: seq<Entry>)
      requires Wired() && nodes.Valid() && Placed(S(), n)
      ensures from == [] <==> b !in Above(S(), n) || Above(S(), n)[0] == b
      ensures from != [] ==> from[0].id == b && b in Budgets(S()) && Entries(S(), Chain(Budgets(S()), b), from)
    {
      var chain := checks.ParentChain(n);
      var at := IndexOf(chain, b, Above(S(), n));
      if at <= 0 { return []; }
      SourceOnward(S(), n, at);
      return chain[at..];
    }

    /** Where b stands on the chain, -1 where it does not. */
    method IndexOf(chain: seq<Entry>, b: Id, ghost ids: seq<Id>) returns (at: int)
      requires nodes.Valid() && Entries(S(), ids, chain)
      ensures at == -1 ==> b !in ids
      ensures at != -1 ==> 0 <= at < |ids| && ids[at] == b && (forall i :: 0 <= i < at ==> ids[i] != b)
    {
      for i := 0 to |chain|
        invariant forall j :: 0 <= j < i ==> ids[j] != b
      {
        if chain[i].id == b { return i; }
      }
      return -1;
    }

    method HeldOf(allocs: seq<Allocation>, b: Id) returns (held: Quota)
      ensures held == HeldFrom(allocs, b)
    {
      held := map[];
      for i := 0 to |allocs|
        invariant held == HeldFrom(allocs[..i], b)
      {
        assert allocs[..i + 1][..i] == allocs[..i];
        if allocs[i].budget == b { held := allocs[i].limit; }
      }
      assert allocs[..|allocs|] == allocs;
    }

    /** Who may change what the project draws from b, and whether it may be raised; from is b's chain. */
    method CheckAllocation(c: Caller, n: Node, from: seq<Entry>, b: Id, limit: Quota, held: Quota)
      returns (err: Option<Error>)
      requires Wired() && nodes.Valid() && Tree(Budgets(S())) && Billed(cfg, S()) && cfg.Valid() && b in Budgets(S())
      requires from != [] && from[0].id == b && Entries(S(), Chain(Budgets(S()), b), from)
      requires Quantities(cfg, limit) && Quantities(cfg, held)
      ensures err == AllocationError(cfg, S(), c, n, b, limit, held)
    {
      var raises := Raises(held, limit);
      var managesSource := false;
      for i := 0 to |from|
        invariant managesSource <==> exists j :: 0 <= j < i && from[j].node.policy.admins * c.tokens != {}
      {
        if from[i].node.policy.admins * c.tokens != {} { managesSource := true; }
      }
      ManagesEntries(S(), c.tokens, Chain(Budgets(S()), b), from);
      if !managesSource {
        var holder := IsOwner(c.tokens, n) || n.policy.admins * c.tokens != {};
        if !holder || raises { return Some(Forbidden); }
      }
      if !raises { return None; }
      if from[0].node.status != Approved { return Some(Conflict); }
      var fits := CheckRaise(n, from, b, limit, held);
      return if fits then None else Some(Invalid);
    }

    method CheckRaise(n: Node, from: seq<Entry>, b: Id, limit: Quota, held: Quota) returns (ok: bool)
      requires Wired() && nodes.Valid() && Tree(Budgets(S())) && Billed(cfg, S()) && b in Budgets(S())
      requires Entries(S(), Chain(Budgets(S()), b), from) && Quantities(cfg, limit) && Quantities(cfg, held)
      ensures ok <==> RaiseOk(cfg, S(), n, b, limit, held)
    {
      var binding := checks.BindingOf(from, Chain(Budgets(S()), b));
      if binding.None? { return false; }
      ok := CheckAvailabilities(n, binding.value, limit);
      if !ok { return; }
      ok := checks.CheckCapacity(from, limit, held, b);
    }

    /** Every availability is held by the binding budget and had from nowhere else. */
    method CheckAvailabilities(n: Node, source: Entry, limit: Quota) returns (ok: bool)
      requires nodes.Valid() && Stored(S(), source)
      ensures ok <==> AvailabilitiesOk(cfg, S(), n, source.id, limit)
    {
      ok := forall r :: r in limit && r in cfg.bools && limit[r] == 1 ==>
        (source.id == ROOT || Holds1(source.node.limit, r)) && OnlyFrom(n, r, source.id);
    }

    // ── Moves ─────────────────────────────────────────────────────────────────

    method ReparentNode(c: Caller, id: Id, target: Id) returns (err: Option<Error>)
      requires Valid() && Billed(cfg, S())
      modifies nodes
      ensures nodes.Valid() && Did(old(S()), S(), err, Move(cfg, old(S()), c, id, target))
    {
      var current := checks.LoadLive(id);
      if current.Err? { return Some(current.error); }
      MoveFactsHere(cfg, S(), id, target);
      err := MoveTo(c, Entry(id, current.value), target);
    }

    method MoveTo(c: Caller, x: Entry, target: Id) returns (err: Option<Error>)
      requires Wired() && nodes.Valid() && Shaped(S()) && Billed(cfg, S()) && cfg.Valid()
      requires Stored(S(), x) && Live(x.node.status) && Placed(S(), x.node)
      requires target in S() ==> Placed(S(), S()[target])
      requires x.node.kind == Project && Active(x.node.status) ==> Quantities(cfg, x.node.limit)
      modifies nodes
      ensures nodes.Valid() && Did(old(S()), S(), err, MoveLive(cfg, old(S()), c, x.id, target))
    {
      var chain;
      err, chain := CheckMove(c, x, target);
      if err.Some? { return; }
      MoveNode(x, target, chain, c.now);
    }

    /** Everything a move is held to. */
    method CheckMove(c: Caller, x: Entry, target: Id) returns (err: Option<Error>, chain: seq<Entry>)
      requires Wired() && nodes.Valid() && Tree(Budgets(S())) && Billed(cfg, S()) && cfg.Valid()
      requires Stored(S(), x) && Live(x.node.status) && Placed(S(), x.node)
      requires target in S() ==> Placed(S(), S()[target])
      requires x.node.kind == Project && Active(x.node.status) ==> Quantities(cfg, x.node.limit)
      ensures var o := MoveLive(cfg, S(), c, x.id, target);
              err == if o.Ok? then None else Some(o.error)
      ensures err.None? ==> target in S() && OnChain(S(), target, chain)
    {
      if x.id == ROOT || x.id == UNASSIGNED { return Some(Forbidden), []; }
      if x.node.parent == Some(target) { return Some(Conflict), []; }
      var loaded := checks.LoadTarget(c, x.node, target);
      if loaded.Err? { return Some(loaded.error), []; }
      chain := loaded.value;
      var inside := IndexOf(chain, x.id, Chain(Budgets(S()), target));
      if inside != -1 { return Some(Invalid), []; }
      var fits := CheckMoveFits(x, chain, target);
      if !fits { return Some(Invalid), []; }
      var draws := checks.CheckAllocationsAfterMove(x, chain, target);
      if !draws { return Some(Invalid), []; }
      return None, chain;
    }

    /** A node that is charged must fit there: a project its limit, a budget everything used below it. */
    method CheckMoveFits(x: Entry, chain: seq<Entry>, ghost target: Id) returns (ok: bool)
      requires Wired() && nodes.Valid() && Tree(Budgets(S())) && Billed(cfg, S()) && cfg.Valid()
          && target in Budgets(S())
      requires Stored(S(), x) && Live(x.node.status) && OnChain(S(), target, chain)
      requires x.node.kind == Project && Active(x.node.status) ==> Quantities(cfg, x.node.limit)
      ensures ok <==> MoveFits(cfg, S(), x.id, target)
    {
      if !ChargedStatus(cfg.acc, x.node.status) { return true; }
      assert Quantities(cfg, map[]);
      if x.node.kind == Project {
        ok := checks.CheckCapacity(chain, x.node.limit, map[], target);
        if !ok { return; }
        ok := checks.CheckLeafLimit(x.node.allocations, chain, target, x.node.limit, map[], false);
        return;
      }
      if x.node.inherits {
        ok := checks.CheckInheritingMove(x, chain, target);
      } else {
        ok := checks.CheckBudgetLimit(x, chain, Chain(Budgets(S()), target), x.node.limit, false);
      }
      if !ok { return; }
      var moved := UsageBelow(x);
      SameRoom(cfg, S(), Chain(Budgets(S()), target), moved, MovedUsage(cfg, S(), x.id), map[]);
      ok := checks.CheckCapacity(chain, moved, map[], target);
    }

    /** What is charged below a budget, as one number a resource. */
    method UsageBelow(x: Entry) returns (moved: Quota)
      requires Wired() && nodes.Valid() && Tree(Budgets(S())) && Billed(cfg, S())
      requires Stored(S(), x) && x.node.kind == Budget
      ensures Addable(cfg, moved) && forall r ::
          r in cfg.counts ==> Q(moved, r) == Saturated(LocalUsage(cfg, S(), x.id, r))
    {
      var usage, tracked := checks.LoadSubtreeUsage([x]);
      FoundSubtree(S(), x, tracked);
      RootFound(Budgets(S()), x, tracked);
      moved := checks.Committed(x.id, usage, tracked);
    }

    /** Writes the moved node, cut to what is above its new place, and carries a budget's bounds down. */
    method MoveNode(x: Entry, target: Id, chain: seq<Entry>, now: Time)
      requires Wired() && nodes.Valid() && Shaped(S()) && Stored(S(), x) && x.id != ROOT && x.id != UNASSIGNED
      requires target in S() && S()[target].kind == Budget && S()[target].status == Approved
      requires x.id !in Chain(Budgets(S()), target) && OnChain(S(), target, chain)
      modifies nodes
      ensures nodes.Valid()
      ensures S() == MoveCarried(MoveWritten(old(S()), x.id, target, now), x.id,
                                 MoveBound(old(S()), x.node, target, now), now)
    {
      var moved, bound := MovedTo(x.node, target, chain, now);
      ShapeMoved(S(), x.id, target, now);
      MovedNodeKeeps(S(), x.node, target, now);
      nodes.UpsertNode(x.id, moved);
      CarryMove(x.id, CapHistory(moved), bound, now);
    }

    method MovedTo(n: Node, target: Id, chain: seq<Entry>, now: Time) returns (m: Node, bound: Option<Time>)
      requires Wired() && nodes.Valid() && OnChain(S(), target, chain)
      ensures m == MovedNode(S(), n, target, now) && bound == MoveBound(S(), n, target, now)
    {
      bound := checks.ChainEndOf(chain, Chain(Budgets(S()), target));
      var term := checks.ChainMaxTermOf(chain, Chain(Budgets(S()), target));
      if n.kind == Project { bound := ProjectBound(bound, term, now).0; }
      m := n.(parent := Some(target), log := More(n.log, 1));
      if bound.Some? { m := ShortenEnd(m, bound.value); }
      if term.Some? && n.kind == Budget { m := ShortenTerm(m, term.value); }
    }

    method CarryMove(id: Id, m: Node, bound: Option<Time>, now: Time)
      requires nodes.Valid() && Shaped(S()) && id in S() && S()[id] == m
      modifies nodes
      ensures nodes.Valid() && S() == MoveCarried(old(S()), id, bound, now)
    {
      if m.kind == Project { return; }
      if bound.Some? {
        CascadeShape(S(), id, bound.value);
        ShortenSubtreeEnds(id, bound.value);
      }
      if m.maxTerm.Some? { ShortenSubtreeTerms(id, m.maxTerm.value, now); }
    }

    method PromoteNode(c: Caller, id: Id, req: PromoteRequest) returns (err: Option<Error>)
      requires Valid() && Billed(cfg, S())
      modifies nodes
      ensures nodes.Valid() && Did(old(S()), S(), err, Promote(cfg, old(S()), c, id, req))
    {
      var current := nodes.GetNode(id);
      if current.None? { return Some(NotFound); }
      if current.value.status != Imported { return Some(Forbidden); }
      PlacedIn(S(), id);
      if req.parent in S() { PlacedIn(S(), req.parent); }
      err := PromoteTo(c, id, current.value, req);
    }

    method EndOfPromotion(chain: seq<Entry>, req: PromoteRequest, now: Time) returns (end: Result<Option<Time>>)
      requires Wired() && nodes.Valid() && OnChain(S(), req.parent, chain)
      ensures end == PromotedEnd(S(), req, now)
    {
      var chainEnd := checks.ChainEndOf(chain, Chain(Budgets(S()), req.parent));
      var term := checks.ChainMaxTermOf(chain, Chain(Budgets(S()), req.parent));
      end := FitProjectEnd(req.end, chainEnd, term, now);
    }

    method PromoteTo(c: Caller, id: Id, n: Node, req: PromoteRequest) returns (err: Option<Error>)
      requires Wired() && nodes.Valid() && Tree(Budgets(S())) && Billed(cfg, S()) && cfg.Valid()
      requires id in S() && S()[id] == n && Placed(S(), n) && (req.parent in S() ==> Placed(S(), S()[req.parent]))
      modifies nodes
      ensures nodes.Valid() && Did(old(S()), S(), err, PromoteImport(cfg, old(S()), c, id, req))
    {
      var loaded := checks.LoadTarget(c, n, req.parent);
      if loaded.Err? { return Some(loaded.error); }
      var chain := loaded.value;
      assert Quantities(cfg, map[]);
      var ok := checks.CheckLeafLimit(n.allocations, chain, req.parent, PromotedLimit(n, req), map[], true);
      if !ok { return Some(Invalid); }
      var end := EndOfPromotion(chain, req, c.now);
      if end.Err? { return Some(Invalid); }
      nodes.UpsertNode(id, n.(parent := Some(req.parent), owner := req.owner, end := end.value,
        limit := PromotedLimit(n, req), members := req.members, side := n.side.(promote := true),
        log := More(n.log, 1)));
      return None;
    }

    // ── Edits ─────────────────────────────────────────────────────────────────

    /** panicked: a request that both clears and sets the end, or the term, is written, and then fails on
        what is not there: on the end before anything is carried down, on the term after the end was. */
    method UpdateNode(c: Caller, id: Id, req: UpdateRequest) returns (err: Option<Error>, panicked: bool)
      requires Valid() && Billed(cfg, S())
      modifies nodes
      ensures nodes.Valid() && Did(old(S()), S(), err, Update(cfg, old(S()), c, id, req))
      ensures panicked <==> err.None? && Panics(req)
    {
      panicked := false;
      var current := checks.LoadLive(id);
      if current.Err? { return Some(current.error), false; }
      PlacedIn(S(), id);
      err, panicked := EditNode(c, Entry(id, current.value), req);
    }

    method EditNode(c: Caller, x: Entry, req: UpdateRequest) returns (err: Option<Error>, panicked: bool)
      requires Wired() && nodes.Valid() && Shaped(S()) && Billed(cfg, S())
      requires Stored(S(), x) && Hangs(S(), x.node) && Placed(S(), x.node)
      modifies nodes
      ensures nodes.Valid() && Did(old(S()), S(), err, UpdateLive(cfg, old(S()), c, x.id, req))
      ensures panicked <==> err.None? && Panics(req)
    {
      panicked := false;
      err := CheckEditRights(c, x, req);
      if err.Some? { return; }
      var chain := checks.ParentChain(x.node);
      var ok := CheckEdit(x, chain, req);
      if !ok { return Some(Invalid), false; }
      panicked := WriteEdit(x, chain, req, c.now);
    }

    method WriteEdit(x: Entry, chain: seq<Entry>, req: UpdateRequest, now: Time) returns (panicked: bool)
      requires Wired() && nodes.Valid() && Shaped(S()) && Stored(S(), x) && Entries(S(), Above(S(), x.node), chain)
      requires LimitEditOk(cfg, S(), x.id, Above(S(), x.node), req) && (x.node.kind == Project ==> LeafDirectEdit(req))
      modifies nodes
      ensures nodes.Valid() && (panicked <==> Panics(req))
      ensures var edited := Edited(old(S()), x.node, Above(old(S()), x.node), req);
              S() == CarriedDown(Put(old(S()), x.id, edited), x.id, req, now)
    {
      var edited := EditedNode(x, chain, req);
      EditedShape(cfg, S(), x.id, req);
      nodes.UpsertNode(x.id, edited);
      panicked := CarryEdit(x.id, req, now);
    }

    /** Who may edit what. */
    method CheckEditRights(c: Caller, x: Entry, req: UpdateRequest) returns (err: Option<Error>)
      requires Wired() && nodes.Valid() && Stored(S(), x) && Placed(S(), x.node)
      ensures err == EditRightsError(S(), c, x.id, req)
    {
      var n := x.node;
      if n.kind == Project && !LeafDirectEdit(req) { return Some(Invalid); }
      if PolicyEdit(req) && !(n.kind == Project && IsOwner(c.tokens, n)) {
        var manages := checks.ManagesNode(c.tokens, n);
        if !manages { return Some(Forbidden); }
      }
      if CapacityEdit(req) {
        var manages := checks.ManagesParentChain(c.tokens, n);
        if !manages { return Some(Forbidden); }
      }
      if x.id == ROOT && req.admins.Some? { return Some(Forbidden); }
      return None;
    }

    /** Whether the edited values hold under what is above. */
    method CheckEdit(x: Entry, chain: seq<Entry>, req: UpdateRequest) returns (ok: bool)
      requires Wired() && nodes.Valid() && Tree(Budgets(S())) && Billed(cfg, S())
      requires Stored(S(), x) && Entries(S(), Above(S(), x.node), chain)
      requires x.node.kind == Project ==> LeafDirectEdit(req)
      ensures ok <==> AutoEditOk(cfg, x.node, req) && TermEditOk(S(), Above(S(), x.node), req)
                      && EndEditOk(S(), Above(S(), x.node), req) && LimitEditOk(cfg, S(), x.id, Above(S(), x.node), req)
    {
      if !AutoEditOk(cfg, x.node, req) { return false; }
      ok := CheckBoundsEdit(chain, req, Above(S(), x.node));
      if !ok { return; }
      ok := CheckLimitEdit(x, chain, req);
    }

    method CheckBoundsEdit(chain: seq<Entry>, req: UpdateRequest, ghost ids: seq<Id>) returns (ok: bool)
      requires Wired() && nodes.Valid() && Entries(S(), ids, chain)
      ensures ok <==> TermEditOk(S(), ids, req) && EndEditOk(S(), ids, req)
    {
      var term := checks.ChainMaxTermOf(chain, ids);
      if req.clearMaxTerm {
        if term.Some? { return false; }
      } else if req.maxTerm.Some? {
        if FitMaxTerm(req.maxTerm, term).Err? { return false; }
      }
      var end := checks.ChainEndOf(chain, ids);
      if req.clearEnd && end.Some? { return false; }
      if req.end.Some? && FitEnd(req.end, end).Err? { return false; }
      return true;
    }

    method CheckLimitEdit(x: Entry, chain: seq<Entry>, req: UpdateRequest) returns (ok: bool)
      requires Wired() && nodes.Valid() && Tree(Budgets(S())) && Billed(cfg, S())
      requires Stored(S(), x) && Entries(S(), Above(S(), x.node), chain)
      requires x.node.kind == Project ==> LeafDirectEdit(req)
      ensures ok <==> LimitEditOk(cfg, S(), x.id, Above(S(), x.node), req)
    {
      var binding := checks.BindingOf(chain, Above(S(), x.node));
      var inherits := Inherits(x.node, req);
      if inherits && req.limit.Some? { return false; }
      if inherits && CapacityEdit(req) && binding.None? { return false; }
      var limit := LimitOfEdit(x.node, binding, req);
      if limit.None? { return true; }
      ok := checks.CheckBudgetLimit(x, chain, Above(S(), x.node), limit.value, true);
    }

    method LimitOfEdit(n: Node, binding: Option<Entry>, req: UpdateRequest) returns (limit: Option<Quota>)
      requires nodes.Valid() && Binds(S(), Above(S(), n), binding)
      ensures limit == EditedLimit(S(), n, Above(S(), n), req)
    {
      if req.limit.Some? { return req.limit; }
      if !Inherits(n, req) && n.inherits && binding.Some? { return Some(binding.value.node.limit); }
      return None;
    }

    method EditedNode(x: Entry, chain: seq<Entry>, req: UpdateRequest) returns (m: Node)
      requires Wired() && nodes.Valid() && Entries(S(), Above(S(), x.node), chain)
      ensures m == Edited(S(), x.node, Above(S(), x.node), req)
    {
      var n := x.node;
      var binding := checks.BindingOf(chain, Above(S(), n));
      var limit := LimitOfEdit(n, binding, req);
      m := n.(policy := EditedPolicy(n.policy, req), inherits := Inherits(n, req), log := More(n.log, 1));
      if req.clearMaxTerm { m := m.(maxTerm := None); }
      else if req.maxTerm.Some? { m := m.(maxTerm := req.maxTerm); }
      if req.clearEnd { m := m.(end := None); }
      else if req.end.Some? { m := m.(end := req.end); }
      if limit.Some? { m := m.(limit := limit.value); }
      else if Inherits(n, req) && !n.inherits { m := m.(limit := map[]); }
    }

    /** A new end and a new term are carried down - unless the request panics first. */
    method CarryEdit(id: Id, req: UpdateRequest, now: Time) returns (panicked: bool)
      requires nodes.Valid() && Shaped(S()) && id in S() && (S()[id].kind == Project ==> LeafDirectEdit(req))
      modifies nodes
      ensures nodes.Valid() && S() == CarriedDown(old(S()), id, req, now)
      ensures panicked <==> Panics(req)
    {
      if req.end.Some? {
        if req.clearEnd { return true; }
        CascadeShape(S(), id, req.end.value);
        ShortenSubtreeEnds(id, req.end.value);
      }
      if req.maxTerm.Some? {
        if req.clearMaxTerm { return true; }
        ShortenSubtreeTerms(id, req.maxTerm.value, now);
      }
      return false;
    }

    // ── New nodes ─────────────────────────────────────────────────────────────

    /** id is a new one. */
    method CreateNode(c: Caller, id: Id, req: CreateRequest) returns (err: Option<Error>)
      requires Valid() && Billed(cfg, S()) && id !in S()
      modifies nodes
      ensures nodes.Valid() && Did(old(S()), S(), err, Create(cfg, old(S()), c, id, req))
    {
      if c.tokens == {} { return Some(Forbidden); }
      if !CreateShapeOk(cfg, req) { return Some(Invalid); }
      var parent := nodes.GetNode(req.parent);
      if parent.None? { return Some(NotFound); }
      if parent.value.kind != Budget { return Some(Invalid); }
      if parent.value.status != Approved { return Some(Conflict); }
      PlacedIn(S(), req.parent);
      err := CreateIn(c, id, req, Entry(req.parent, parent.value));
    }

    method CreateIn(c: Caller, id: Id, req: CreateRequest, p: Entry) returns (err: Option<Error>)
      requires Wired() && nodes.Valid() && Tree(Budgets(S())) && Billed(cfg, S()) && cfg.Valid() && id !in S()
      requires Stored(S(), p) && p.id == req.parent && p.node.kind == Budget && Placed(S(), p.node)
      modifies nodes
      ensures nodes.Valid() && Did(old(S()), S(), err, CreateUnder(cfg, old(S()), c, id, req))
    {
      var manager := checks.ManagesNode(c.tokens, p.node);
      if !manager && p.node.policy.requesters * c.tokens == {} { return Some(Forbidden); }
      assert Rooted(Budgets(S()), req.parent);
      var chain := checks.ChainFrom(req.parent);
      var limit := LimitOfNew(req, chain);
      if req.kind == Project {
        assert Quantities(cfg, map[]);
        var ok := checks.CheckLeafLimit([], chain, req.parent, limit, map[], false);
        if !ok { return Some(Invalid); }
      }
      if req.kind == Budget && !manager && !p.node.policy.allowSub { return Some(Forbidden); }
      if req.inherits && !manager { return Some(Forbidden); }
      NewQuantities(cfg, S(), req, limit);
      var decision := MakeNode(c, id, req, p, chain, limit, manager);
      if decision.Err? { return Some(decision.error); }
      nodes.UpsertNode(id, decision.value);
      return None;
    }

    /** The new node within the bounds above, as it is granted or left to wait. */
    method MakeNode(c: Caller, id: Id, req: CreateRequest, p: Entry, chain: seq<Entry>, limit: Quota, manager: bool)
      returns (r: Result<Node>)
      requires Wired() && nodes.Valid() && Tree(Budgets(S())) && Billed(cfg, S()) && id !in S()
      requires Stored(S(), p) && p.id == req.parent && p.node.kind == Budget && OnChain(S(), p.id, chain)
      requires req.kind == Project ==> Quantities(cfg, limit)
      ensures var end, term := CreateEnd(S(), req, c.now), CreateTerm(S(), req);
              r == if end.Err? || term.Err? then Err(Invalid)
                   else CreateDecision(cfg, S(), id, NewNode(req, limit, end.value, term.value, c.self), manager)
    {
      var end, term := BoundsOfNew(req, chain, c.now);
      if end.Err? || term.Err? { return Err(Invalid); }
      r := DecideNew(Entry(id, NewNode(req, limit, end.value, term.value, c.self)), p, chain, manager);
    }

    method LimitOfNew(req: CreateRequest, chain: seq<Entry>) returns (limit: Quota)
      requires Wired() && nodes.Valid() && OnChain(S(), req.parent, chain)
      ensures limit == CreateLimit(cfg, S(), req)
    {
      if req.kind == Budget { return if req.inherits then map[] else req.limit; }
      limit := checks.WithDefaultAvailabilities(chain, Chain(Budgets(S()), req.parent), req.limit);
    }

    method BoundsOfNew(req: CreateRequest, chain: seq<Entry>, now: Time)
      returns (end: Result<Option<Time>>, term: Result<Option<int>>)
      requires Wired() && nodes.Valid() && OnChain(S(), req.parent, chain)
      ensures end == CreateEnd(S(), req, now) && term == CreateTerm(S(), req)
    {
      var chainEnd := checks.ChainEndOf(chain, Chain(Budgets(S()), req.parent));
      var chainTerm := checks.ChainMaxTermOf(chain, Chain(Budgets(S()), req.parent));
      if req.kind == Project {
        return FitProjectEnd(req.end, chainEnd, chainTerm, now), Ok(None);
      }
      return FitEnd(req.end, chainEnd), FitMaxTerm(req.maxTerm, chainTerm);
    }

    /** A manager's own requests are granted, others where the parent's policy grants them. */
    method DecideNew(x: Entry, p: Entry, chain: seq<Entry>, manager: bool) returns (r: Result<Node>)
      requires Wired() && nodes.Valid() && Tree(Budgets(S())) && Billed(cfg, S()) && x.id !in S()
      requires Stored(S(), p) && p.node.kind == Budget && x.node.parent == Some(p.id) && OnChain(S(), p.id, chain)
      requires x.node.kind == Project ==> Quantities(cfg, x.node.limit)
      ensures r == CreateDecision(cfg, S(), x.id, x.node, manager)
    {
      var n, granted := x.node, false;
      assert Quantities(cfg, map[]);
      if manager {
        if n.kind == Project {
          granted := checks.CheckCapacity(chain, n.limit, map[], p.id);
        } else if n.inherits {
          granted := true;
        } else {
          granted := checks.CheckBudgetLimit(x, chain, Chain(Budgets(S()), p.id), n.limit, false);
        }
        return if granted then Ok(Granted(n)) else Err(Invalid);
      }
      if n.kind == Project && p.node.policy.auto.Some? && !AllZero(n.limit) {
        granted := checks.CheckAutoApprovable(p, n.owner, n.limit, map[]);
        if granted { return Ok(Granted(n)); }
        return if !RequestsBeyond(p.node) then Err(Forbidden) else Ok(n);
      }
      if n.kind == Budget && IsPool(p.node.policy.auto) && !AllZero(n.limit) {
        granted := checks.CheckBudgetLimit(x, chain, Chain(Budgets(S()), p.id), n.limit, false);
        if granted { return Ok(Granted(n)); }
        return if !RequestsBeyond(p.node) then Err(Invalid) else Ok(n);
      }
      return Ok(n);
    }

    // ── The catalogue ─────────────────────────────────────────────────────────

    /** Applies a rewrite to every amount stored in the tree; changed counts the nodes it changed. */
    method RewriteEverything(w: Rewrite) returns (changed: nat)
      requires nodes.Valid() && Neat(S())
      modifies nodes
      ensures nodes.Valid() && S() == RewriteAll(old(S()), w)
      ensures changed == 0 ==> S() == old(S())
      ensures (forall id :: id in old(S()) ==> !TouchesNode(w, old(S())[id])) ==> changed == 0
    {
      ghost var s := S();
      var listed := nodes.ListNodes(EVERYTHING);
      var f := (n: Node) => RewriteChange(n, w);
      assert S() == Visited(s, f, {});
      changed := VisitAll(listed, f, s);
      EveryoneListed(s, listed);
      AllRewritten(s, w, f);
    }

    method VisitAll(listed: seq<Entry>, f: Node -> Option<Node>, ghost s: Store) returns (changed: nat)
      requires nodes.Valid() && S() == Visited(s, f, {}) == s
      requires DistinctIds(listed) && forall e :: e in listed ==> e.id in s
      modifies nodes
      ensures nodes.Valid() && S() == Visited(s, f, EntryIds(listed))
      ensures changed == 0 ==> S() == s
      ensures NothingFor(s, f) ==> changed == 0
    {
      changed := 0;
      for i := 0 to |listed|
        invariant nodes.Valid() && S() == Visited(s, f, EntryIds(listed[..i]))
        invariant changed == 0 ==> S() == s
        invariant NothingFor(s, f) ==> changed == 0
      {
        assert listed[i] in listed;
        NotListedYet(listed, i);
        var wrote := VisitNew(listed[i].id, f, s, EntryIds(listed[..i]));
        if wrote { changed := changed + 1; }
      }
      assert listed[..|listed|] == listed;
    }

    /** A node not visited yet is changed by f. */
    method VisitNew(id: Id, f: Node -> Option<Node>, ghost s: Store, ghost done: set<Id>) returns (wrote: bool)
      requires nodes.Valid() && S() == Visited(s, f, done) && id in s && id !in done
      modifies nodes
      ensures nodes.Valid() && S() == Visited(s, f, done + {id})
      ensures wrote ==> !NothingFor(s, f)
      ensures !wrote ==> S() == old(S())
    {
      VisitedNew(s, f, done, id);
      wrote := nodes.UpdateNode(id, f);
    }

    /** The root is granted an availability, so that it can be delegated. */
    method GrantRoot(r: Rid)
      requires nodes.Valid() && Neat(S())
      modifies nodes
      ensures nodes.Valid() && S() == AdoptAvailability(old(S()), r)
    {
      if ROOT in S() { GrantWrites(S(), ROOT, r); }
      var f := (n: Node) => GrantChange(n, r);
      var wrote := nodes.UpdateNode(ROOT, f);
    }

    // ── Without the lock ──────────────────────────────────────────────────────

    /** A report of a provider, or a mark: each changes the node as it is stored then. */
    method Record(w: Report)
      requires nodes.Valid() && Neat(S()) && ReportEnabled(S(), w)
      modifies nodes
      ensures nodes.Valid() && S() == ApplyReport(old(S()), w)
    {
      if w.AddImport? {
        nodes.UpsertNode(w.id, ImportedNode(w.limit, w.members));
        return;
      }
      ReportWrites(S(), w);
      if w.RemoveImport? || w.RemoveRetired? {
        var gone := (n: Node) => Reported(n, w).None?;
        var deleted := nodes.DeleteNodeIf(w.id, gone);
        if deleted { return; }
      }
      var f := (n: Node) => Reported(n, w);
      var wrote := nodes.UpdateNode(w.id, f);
    }
  }

  /** What a report leaves behind: the node changed, or gone where it may remove it. */
  lemma ReportWrites(s: Store, w: Report)
    requires Neat(s) && !w.AddImport?
    ensures w.id !in s ==> ApplyReport(s, w) == s
    ensures w.id in s && Reported(s[w.id], w).Some? ==> ApplyReport(s, w) == Put(s, w.id, Reported(s[w.id], w).value)
    ensures w.id in s && Reported(s[w.id], w).None? ==>
      (w.RemoveImport? || w.RemoveRetired?) && ApplyReport(s, w) == s - {w.id}
  {
    if w.id in s { assert CapHistory(s[w.id]) == s[w.id]; }
  }

  lemma GrantWrites(s: Store, id: Id, r: Rid)
    requires id in s && Neat(s)
    ensures var change := GrantChange(s[id], r);
            s[id := s[id].(limit := s[id].limit[r := 1])] == if change.Some? then Put(s, id, change.value) else s
  {
    var n := s[id];
    assert CapHistory(n) == n;
    if Q(n.limit, r) == 1 {
      assert n.limit[r := 1] == n.limit;
    }
  }

  lemma EveryoneListed(s: Store, listed: seq<Entry>)
    requires Lists(s, EVERYTHING, listed)
    ensures EntryIds(listed) == s.Keys
  {
    forall id | id in s ensures Entry(id, s[id]) in listed {
      assert Matches(id, s[id], EVERYTHING);
    }
  }

  lemma AllRewritten(s: Store, w: Rewrite, f: Node -> Option<Node>)
    requires Neat(s)
    requires forall n :: f(n) == RewriteChange(n, w)
    ensures Visited(s, f, s.Keys) == RewriteAll(s, w)
  {
    forall id | id in s ensures Visit(f, s[id]) == RewrittenNode(w, s[id]) {
      if !TouchesNode(w, s[id]) { UntouchedNode(w, s[id]); }
    }
  }

  lemma NotListedYet(listed: seq<Entry>, i: nat)
    requires DistinctIds(listed) && i < |listed|
    ensures listed[i].id !in EntryIds(listed[..i])
    ensures EntryIds(listed[..i + 1]) == EntryIds(listed[..i]) + {listed[i].id}
  {
    assert listed[..i + 1] == listed[..i] + [listed[i]];
  }

  lemma EditedShape(cfg: Config, s: Store, id: Id, req: UpdateRequest)
    requires Shaped(s) && id in s && LimitEditOk(cfg, s, id, Above(s, s[id]), req)
    ensures Shaped(Put(s, id, Edited(s, s[id], Above(s, s[id]), req)))
  {
    EditedInPlace(cfg, s, id, req);
    ShapeInPlace(s, Put(s, id, Edited(s, s[id], Above(s, s[id]), req)));
  }

  lemma NewQuantities(cfg: Config, s: Store, req: CreateRequest, limit: Quota)
    requires cfg.Valid()
    ensures req.kind == Project && ValidLeafLimit(cfg, limit) ==> Quantities(cfg, limit)
  {
    if req.kind == Project && ValidLeafLimit(cfg, limit) { LeafLimitQuantities(cfg, limit); }
  }

  lemma MoveFactsHere(cfg: Config, s: Store, id: Id, target: Id)
    requires Shaped(s) && Sane(cfg, s) && id in s
    ensures Placed(s, s[id]) && (target in s ==> Placed(s, s[target]))
    ensures s[id].kind == Project && Active(s[id].status) ==> Quantities(cfg, s[id].limit)
  {
    PlacedIn(s, id);
    if target in s { PlacedIn(s, target); }
    HeldQuantitiesIn(cfg, s, id);
  }

  lemma SameRoom(cfg: Config, s: Store, chain: seq<Id>, a: Quota, b: Quota, sub: Quota)
    requires forall r :: r in cfg.counts ==> Q(a, r) == Q(b, r)
    ensures HasRoom(cfg, s, chain, a, sub) <==> HasRoom(cfg, s, chain, b, sub)
  {
    forall d | d in chain ensures Room(cfg, s, d, a, sub) <==> Room(cfg, s, d, b, sub) {
      assert forall r :: r in cfg.counts ==> Needed(cfg, s, d, a, sub, r) == Needed(cfg, s, d, b, sub, r);
    }
  }

  lemma CascadeShape(s: Store, top: Id, end: Time)
    requires Shaped(s)
    ensures Shaped(CascadeEnds(s, top, end)) && Budgets(CascadeEnds(s, top, end)) == Budgets(s)
  {
    assert forall x :: x in s ==> OwnShape(s[x]);
    CascadeEndsInPlace(s, top, end);
    ShapeInPlace(s, CascadeEnds(s, top, end));
  }

  lemma ManagesEntries(s: Store, tokens: set<Token>, ids: seq<Id>, chain: seq<Entry>)
    requires Entries(s, ids, chain)
    ensures ManagesChain(s, tokens, ids) <==> exists j :: 0 <= j < |chain| && chain[j].node.policy.admins * tokens != {}
  {
    if ManagesChain(s, tokens, ids) {
      var b :| b in ids && b in s && s[b].policy.admins * tokens != {};
      var j :| 0 <= j < |ids| && ids[j] == b;
      assert chain[j].node.policy.admins * tokens != {};
    }
    if j :| 0 <= j < |chain| && chain[j].node.policy.admins * tokens != {} {
      assert ids[j] in ids;
    }
  }

  lemma HeldInRange(cfg: Config, s: Store, id: Id, b: Id)
    requires Sane(cfg, s) && id in s
    ensures Quantities(cfg, HeldFrom(s[id].allocations, b))
  {
    assert SaneNode(cfg, s[id]);
    HeldQuantities(cfg, s[id].allocations, b);
  }

  /** From a budget above the project on, its chain is that budget's own. */
  lemma SourceOnward(s: Store, n: Node, at: nat)
    requires at < |Above(s, n)|
    ensures Chain(Budgets(s), Above(s, n)[at]) == Above(s, n)[at..] && Above(s, n)[at] in Budgets(s)
  {
    ChainSuffix(Budgets(s), n.parent.value, at);
    ChainIn(Budgets(s), Above(s, n)[at], n.parent.value);
  }

  lemma GrantedShape(s: Store, id: Id, req: ApproveRequest, now: Time)
    requires Shaped(s) && id in s && (s[id].status == Pending || s[id].status == ChangePending)
    ensures Shaped(Put(s, id, Decided(s, s[id], req, now)))
    ensures Budgets(Put(s, id, Decided(s, s[id], req, now))) == Budgets(s)
  {
    assert forall x :: x in s ==> OwnShape(s[x]);
    DecidedInPlace(s, id, req, now);
    ShapeInPlace(s, Put(s, id, Decided(s, s[id], req, now)));
  }

  lemma AskedQuantities(cfg: Config, s: Store, n: Node, req: ChangeRequest)
    requires cfg.Valid() && AskedLimitOk(cfg, s, n, req)
    ensures n.kind == Project && req.limit.Some? ==> Quantities(cfg, req.limit.value)
  {
    if n.kind == Project && req.limit.Some? { LeafLimitQuantities(cfg, req.limit.value); }
  }

  lemma HeldQuantitiesIn(cfg: Config, s: Store, id: Id)
    requires Sane(cfg, s) && id in s
    ensures s[id].kind == Project && Active(s[id].status) ==> Quantities(cfg, s[id].limit)
  {
    assert SaneNode(cfg, s[id]);
  }

  /** What is listed under the budgets of a subtree is what lies strictly below its top. */
  lemma DescendantsListed(s: Store, x: Id, descendants: seq<Entry>)
    requires Tree(Budgets(s)) && x in Budgets(s) && Lists(s, NodesUnder(Subtree(s, x)), descendants)
    ensures SomeBlocks(descendants) <==> BlockedBelow(s, x)
    ensures ProjectIds(descendants) == ProjectsBelow(s, x)
  {
    forall e | e in descendants
      ensures StrictlyBelow(s, x, e.id) && s[e.id] == e.node && e.node.parent.Some?
          && e.node.parent.value in Subtree(s, x)
    {
      assert Matches(e.id, e.node, NodesUnder(Subtree(s, x)));
      HangsBelow(s, x, e.id);
    }
    forall d | d in s && s[d].parent.Some? && s[d].parent.value in Subtree(s, x) ensures Entry(d, s[d]) in descendants {
      assert Matches(d, s[d], NodesUnder(Subtree(s, x)));
    }
    forall d | StrictlyBelow(s, x, d) ensures Entry(d, s[d]) in descendants {
      HangsBelow(s, x, d);
    }
  }

  lemma EndsVisit(s: Store, f: Node -> Option<Node>, top: Id, end: Time)
    requires forall n :: f(n) == EndShortened(n, end)
    ensures Steady(f) && VisitedBelow(s, f, top) == CascadeEnds(s, top, end)
  {
    forall n ensures Visit(f, n) == ShortenEnd(n, end) && SteadyAt(f, n) {
      VisitsEnd(f, n, end);
      VisitsEnd(f, ShortenEnd(n, end), end);
    }
  }

  lemma VisitsEnd(f: Node -> Option<Node>, n: Node, end: Time)
    requires f(n) == EndShortened(n, end)
    ensures Visit(f, n) == ShortenEnd(n, end) && SamePlace(n, ShortenEnd(n, end))
        && ShortenEnd(n, end).status == n.status
    ensures EndShortened(ShortenEnd(n, end), end).None?
  {
  }

  lemma TermsVisit(s: Store, f: Node -> Option<Node>, top: Id, days: int, now: Time)
    requires forall n ::
        f(n) == if n.kind == Budget then TermShortened(n, days) else EndShortened(n, TermEnd(now, days))
    ensures Steady(f) && VisitedBelow(s, f, top) == CascadeTerms(s, top, days, now)
  {
    forall n
      ensures Visit(f, n) == if n.kind == Budget then ShortenTerm(n, days) else ShortenEnd(n, TermEnd(now, days))
      ensures SteadyAt(f, n)
    {
      if n.kind == Budget {
        VisitsTerm(f, n, days);
        VisitsTerm(f, ShortenTerm(n, days), days);
      } else {
        VisitsEnd(f, n, TermEnd(now, days));
        VisitsEnd(f, ShortenEnd(n, TermEnd(now, days)), TermEnd(now, days));
      }
    }
  }

  lemma VisitsTerm(f: Node -> Option<Node>, n: Node, days: int)
    requires f(n) == TermShortened(n, days)
    ensures Visit(f, n) == ShortenTerm(n, days) && SamePlace(n, ShortenTerm(n, days))
        && ShortenTerm(n, days).status == n.status
    ensures TermShortened(ShortenTerm(n, days), days).None?
  {
  }

  lemma PlacedIn(s: Store, id: Id)
    requires Shaped(s) && id in s
    ensures Hangs(s, s[id]) && Placed(s, s[id])
  {
    assert Hangs(s, s[id]);
    if s[id].parent.Some? { assert Rooted(Budgets(s), s[id].parent.value); }
  }

  /** What hangs under the budgets of a subtree is what lies strictly below its top. */
  lemma HangsBelow(s: Store, x: Id, id: Id)
    requires Tree(Budgets(s)) && x in Budgets(s) && id in s
    ensures StrictlyBelow(s, x, id) <==> s[id].parent.Some? && s[id].parent.value in Subtree(s, x)
  {
    if s[id].kind == Budget {
      ChainStep(Budgets(s), id);
      if id == x && s[id].parent.Some? && s[id].parent.value in Subtree(s, x) {
        ChainAcyclic(Budgets(s), s[id].parent.value, x);
      }
    }
  }

  lemma ClosureCollected(s: Store, x: Id, tracked: set<Id>, projects: set<Id>)
    requires x in Budgets(s) && Tree(Budgets(s)) && tracked == Subtree(s, x) && projects == ProjectsBelow(s, x)
    ensures tracked + projects == Closure(s, x)
  {
    ChainOk(Budgets(s), x);
  }

  lemma PickedNext(children: seq<Entry>, more: set<Id>, next: seq<Id>, child: Entry)
    requires Picked(children, more, next)
    ensures !LiveEntry(child) ==> Picked(children + [child], more, next)
    ensures LiveEntry(child) ==>
      Picked(children + [child], more + {child.id}, if child.node.kind == Budget then next + [child.id] else next)
  {
    var all := children + [child];
    assert forall e :: e in all <==> e in children || e == child;
  }

  lemma ListedLevel(s: Store, f: Node -> Option<Node>, done: set<Id>, parents: seq<Id>, children: seq<Entry>,
                    more: set<Id>, next: seq<Id>)
    requires Steady(f) && Lists(Visited(s, f, done), ChildrenOf(parents), children) && Picked(children, more, next)
    ensures Level(s, parents, more, next)
  {
    var t := Visited(s, f, done);
    forall id | LiveChild(s, parents, id) ensures Entry(id, t[id]) in children && LiveEntry(Entry(id, t[id])) {
      assert SteadyAt(f, s[id]);
      assert SamePlace(s[id], t[id]) && t[id].status == s[id].status;
      assert Matches(id, t[id], ChildrenOf(parents));
    }
    forall e | e in children && LiveEntry(e) ensures LiveChild(s, parents, e.id) && s[e.id].kind == e.node.kind {
      assert SteadyAt(f, s[e.id]);
      assert SamePlace(s[e.id], t[e.id]) && t[e.id].status == s[e.id].status;
    }
  }

  lemma DepthBounded(s: Store, top: Id, done: set<Id>, frontier: seq<Id>, depth: nat)
    requires Tree(Budgets(s)) && Sweeping(s, top, done, frontier, depth) && frontier != []
    ensures depth <= |Budgets(s)|
  {
    assert frontier[0] in frontier && InFrontier(s, top, frontier[0], depth);
    assert Rooted(Budgets(s), frontier[0]);
    ChainBounded(Budgets(s), frontier[0]);
  }
}
