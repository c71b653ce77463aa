/** The rules a step is held to: who manages what, how long things run, what a limit may be
    (internal/core/tree/rule_authz.go, rule_terms.go, rule_limits.go, rule_autoapprove.go). */
module Rules {
  import opened Model
  import opened Chains
  import opened Charges

  // ── Authority ───────────────────────────────────────────────────────────────

  /** The budgets above a node, its parent first. */
  ghost function Above(s: Store, n: Node): seq<Id> {
    if n.parent.None? then [] else Chain(Budgets(s), n.parent.value)
  }

  ghost predicate ManagesChain(s: Store, tokens: set<Token>, chain: seq<Id>) {
    exists b :: b in chain && b in s && s[b].policy.admins * tokens != {}
  }

  /** Approval authority: the node's own admin scope does not count. */
  ghost predicate ManagesAbove(s: Store, tokens: set<Token>, n: Node) {
    ManagesChain(s, tokens, Above(s, n))
  }

  ghost predicate Manages(s: Store, tokens: set<Token>, n: Node) {
    n.policy.admins * tokens != {} || ManagesAbove(s, tokens, n)
  }

  predicate IsOwner(tokens: set<Token>, n: Node) {
    n.owner != "" && n.owner in tokens
  }

  // ── Lifetimes ───────────────────────────────────────────────────────────────

  predicate NoLater(next: Time, bound: Option<Time>) {
    bound.None? || next <= bound.value
  }

  /** The earlier of two optional ends (or the shorter of two optional terms); None bounds nothing. */
  function Tighter(a: Option<int>, b: Option<int>): Option<int> {
    if b.None? then a
    else if a.None? || b.value < a.value then b
    else a
  }

  ghost function EndAt(s: Store, b: Id): Option<Time> {
    if b in s then s[b].end else None
  }

  ghost function TermAt(s: Store, b: Id): Option<int> {
    if b in s then s[b].maxTerm else None
  }

  /** The earliest end along a chain. */
  ghost function ChainEnd(s: Store, chain: seq<Id>): Option<Time> {
    if chain == [] then None
    else Tighter(ChainEnd(s, chain[..|chain| - 1]), EndAt(s, chain[|chain| - 1]))
  }

  /** The shortest maximum project term along a chain. */
  ghost function ChainMaxTerm(s: Store, chain: seq<Id>): Option<int> {
    if chain == [] then None
    else Tighter(ChainMaxTerm(s, chain[..|chain| - 1]), TermAt(s, chain[|chain| - 1]))
  }

  function FitEnd(end: Option<Time>, bound: Option<Time>): Result<Option<Time>> {
    if bound.None? then Ok(end)
    else if end.None? then Ok(bound)
    else if NoLater(end.value, bound) then Ok(end)
    else Err(Invalid)
  }

  function FitMaxTerm(days: Option<int>, bound: Option<int>): Result<Option<int>> {
    if days.Some? && days.value < 1 then Err(Invalid)
    else if bound.None? then Ok(days)
    else if days.None? then Ok(bound)
    else if days.value > bound.value then Err(Invalid)
    else Ok(days)
  }

  const DAY: int := 86400

  /** The end of the UTC day that lies days after now. */
  function TermEnd(now: Time, days: int): Time {
    (now / DAY + days) * DAY + (DAY - 1)
  }

  /** The latest end of a project whose budgets end at end and allow a term of days, and that term
      where it is what bounds. */
  function ProjectBound(end: Option<Time>, days: Option<int>, now: Time): (Option<Time>, Option<int>) {
    if days.None? then (end, None)
    else
      var byTerm := TermEnd(now, days.value);
      if end.Some? && NoLater(end.value, Some(byTerm)) then (end, None)
      else (Some(byTerm), days)
  }

  function FitProjectEnd(end: Option<Time>, chainEnd: Option<Time>, days: Option<int>, now: Time)
    : Result<Option<Time>>
  {
    var (bound, term) := ProjectBound(chainEnd, days, now);
    if term.None? then FitEnd(end, bound)
    else if end.None? then Ok(bound)
    else if NoLater(end.value, bound) then Ok(end)
    else Err(Invalid)
  }

  predicate RunsLonger(d: Option<Time>, end: Time) {
    d.None? || d.value > end
  }

  predicate CutsProposal(n: Node, end: Time) {
    n.pending.Some? && n.pending.value.end.Some? && RunsLonger(n.pending.value.end, end)
  }

  predicate Cuts(n: Node, end: Time) {
    RunsLonger(n.end, end) || CutsProposal(n, end)
  }

  /** n with its end, and that of a waiting proposal, no later than end. */
  function ShortenEnd(n: Node, end: Time): Node {
    n.(end := if RunsLonger(n.end, end) then Some(end) else n.end,
       pending := if CutsProposal(n, end) then Some(n.pending.value.(end := Some(end))) else n.pending,
       log := if Cuts(n, end) then Capped(More(n.log, 1)) else n.log)
  }

  predicate AllowsLonger(n: Node, days: int) {
    n.maxTerm.None? || n.maxTerm.value > days
  }

  function ShortenTerm(n: Node, days: int): Node {
    n.(maxTerm := if AllowsLonger(n, days) then Some(days) else n.maxTerm,
       log := if AllowsLonger(n, days) then Capped(More(n.log, 1)) else n.log)
  }

  /** The live nodes a cascade from budget top visits. */
  ghost predicate LiveBelow(s: Store, top: Id, id: Id) {
    id in s && Live(s[id].status) && top in Above(s, s[id])
  }

  /** Every live node below top ends by end. */
  ghost function CascadeEnds(s: Store, top: Id, end: Time): Store {
    map id | id in s :: if LiveBelow(s, top, id) then ShortenEnd(s[id], end) else s[id]
  }

  /** Every live budget below top allows at most days, every live project ends within them. */
  ghost function CascadeTerms(s: Store, top: Id, days: int, now: Time): Store {
    map id | id in s ::
      if !LiveBelow(s, top, id) then s[id]
      else if s[id].kind == Budget then ShortenTerm(s[id], days)
      else ShortenEnd(s[id], TermEnd(now, days))
  }

  // ── Limits ──────────────────────────────────────────────────────────────────

  predicate Known(cfg: Config, q: Quota) {
    forall r :: r in q ==> (r in cfg.counts || r in cfg.bools) && (r in cfg.withdrawn ==> q[r] == 0)
  }

  predicate ZeroOrOne(cfg: Config, q: Quota) {
    forall r :: r in q && r in cfg.bools ==> q[r] == 0 || q[r] == 1
  }

  /** The most a single project may hold of a count. */
  function LeafBound(cfg: Config, r: Rid): int {
    if r in cfg.max && 0 < cfg.max[r] < MAX_QUOTA then cfg.max[r] else MAX_QUOTA
  }

  predicate ValidLeafLimit(cfg: Config, q: Quota) {
    && Known(cfg, q) && ZeroOrOne(cfg, q)
    && forall r :: r in q && r !in cfg.bools ==> 0 <= q[r] <= LeafBound(cfg, r)
  }

  predicate ValidRequesterLimit(cfg: Config, q: Quota) {
    && Known(cfg, q) && ZeroOrOne(cfg, q)
    && forall r :: r in q && r !in cfg.bools ==> 0 <= q[r] <= MAX_QUOTA
  }

  predicate ValidBudgetLimit(cfg: Config, q: Quota) {
    && Known(cfg, q) && ZeroOrOne(cfg, q)
    && forall r :: r in q && r !in cfg.bools ==> (q[r] >= 0 || q[r] == UNLIMITED) && q[r] <= MAX_QUOTA
  }

  predicate ValidAutoApprove(cfg: Config, auto: Option<Quota>) {
    auto.None? || IsPool(auto) || ValidRequesterLimit(cfg, auto.value)
  }

  predicate ValidSubBudgetRequests(auto: Option<Quota>, allowSub: bool) {
    auto.None? || IsPool(auto) || !allowSub
  }

  /** The nearest budget with a limit of its own. */
  ghost function Binding(s: Store, chain: seq<Id>): Option<Id> {
    if chain == [] then None
    else if chain[0] in s && !s[chain[0]].inherits then Some(chain[0])
    else Binding(s, chain[1..])
  }

  /** No resource of child beyond what parent has. */
  predicate ChildFits(cfg: Config, parent: Quota, child: Quota) {
    forall r :: r in cfg.counts + cfg.bools && Q(parent, r) != UNLIMITED ==>
      Q(child, r) != UNLIMITED && Q(child, r) <= Q(parent, r)
  }

  predicate Holds1(q: Quota, r: Rid) {
    Q(q, r) == 1 || Q(q, r) == UNLIMITED
  }

  /** Every availability of limit is held by budget b; the root holds the whole catalogue. */
  predicate HeldBy(cfg: Config, s: Store, b: Id, limit: Quota) {
    forall r :: r in cfg.bools && Q(limit, r) == 1 ==> b == ROOT || (b in s && Holds1(s[b].limit, r))
  }

  /** limit grants no availability that one of allocs grants. */
  predicate ClearOf(cfg: Config, allocs: seq<Allocation>, limit: Quota) {
    forall r, a :: r in limit && r in cfg.bools && limit[r] == 1 && a in allocs ==> Q(a.limit, r) != 1
  }

  /** limit may be the limit of project n under chain, as far as asking goes. */
  ghost predicate LeafLimitOk(cfg: Config, s: Store, allocs: seq<Allocation>, chain: seq<Id>, limit: Quota) {
    && ValidLeafLimit(cfg, limit)
    && (Binding(s, chain).Some? ==> HeldBy(cfg, s, Binding(s, chain).value, limit))
    && ClearOf(cfg, allocs, limit)
  }

  function Saturated(x: int): int {
    if x > MAX_INT then MAX_INT else if x < MIN_INT then MIN_INT else x
  }

  /** need, in 64-bit arithmetic: what is charged, less sub, plus add. */
  ghost function Needed(cfg: Config, s: Store, b: Id, add: Quota, sub: Quota, r: Rid): int {
    Saturated(Usage(cfg, s, b, r)) - Q(sub, r) + Q(add, r)
  }

  predicate Fits(need: int, limit: int) {
    limit == UNLIMITED || need <= limit
  }

  /** Budget b has room for add once sub is given back. */
  ghost predicate Room(cfg: Config, s: Store, b: Id, add: Quota, sub: Quota) {
    b in s && forall r :: r in cfg.counts ==>
      && MIN_INT <= Needed(cfg, s, b, add, sub, r) <= MAX_INT
      && Fits(Needed(cfg, s, b, add, sub, r), Q(s[b].limit, r))
  }

  /** Every budget of chain with a limit of its own has room. */
  ghost predicate HasRoom(cfg: Config, s: Store, chain: seq<Id>, add: Quota, sub: Quota) {
    forall b :: b in chain && b in s && !s[b].inherits ==> Room(cfg, s, b, add, sub)
  }

  /** n holds availability r by its own limit or an allocation from one of the budgets. */
  predicate HoldsVia(n: Node, budgets: set<Id>, r: Rid) {
    Q(n.limit, r) == 1 || exists a :: a in n.allocations && a.budget in budgets && Q(a.limit, r) == 1
  }

  /** n holds availability r from the subtree of x. */
  ghost predicate HoldsFrom(s: Store, x: Id, n: Node, r: Rid) {
    HoldsVia(n, Subtree(s, x), r)
  }

  /** The budgets of the subtree of x other than x, and the projects under it. */
  ghost predicate StrictlyBelow(s: Store, x: Id, id: Id) {
    id in s && id != x
    && (if s[id].kind == Budget then id in Subtree(s, x)
        else s[id].parent.Some? && s[id].parent.value in Subtree(s, x))
  }

  /** No availability that budget x gives up with limit is still held below. */
  ghost predicate WithdrawalOk(cfg: Config, s: Store, x: Id, limit: Quota)
    requires x in s
  {
    forall r, id :: r in cfg.bools && Q(s[x].limit, r) == 1 && Q(limit, r) != 1 && StrictlyBelow(s, x, id)
      ==> !HoldsFrom(s, x, s[id], r)
  }

  /** limit is no less than what is in use below x. */
  ghost predicate FloorOk(cfg: Config, s: Store, x: Id, limit: Quota) {
    forall r :: r in cfg.counts ==> Fits(Saturated(LocalUsage(cfg, s, x, r)), Q(limit, r))
  }

  /** limit may be the limit of budget x under chain; inForce says something below relies on the
      one it replaces. */
  ghost predicate BudgetLimitOk(cfg: Config, s: Store, x: Id, chain: seq<Id>, limit: Quota, inForce: bool) {
    && ValidBudgetLimit(cfg, limit)
    && (Binding(s, chain).Some? && Binding(s, chain).value in s
        ==> ChildFits(cfg, s[Binding(s, chain).value].limit, limit))
    && (inForce ==> x in s && WithdrawalOk(cfg, s, x, limit) && FloorOk(cfg, s, x, limit))
  }

  /** next asks for nothing that current does not hold. */
  predicate Shrinks(cfg: Config, current: Quota, next: Quota) {
    forall r :: r in next ==>
      if r in cfg.bools then next[r] <= 0 || Q(current, r) > 0 else next[r] <= Q(current, r)
  }

  predicate AllZero(q: Quota) {
    forall r :: r in q ==> q[r] == 0
  }

  function Area(cfg: Config, r: Rid): string {
    if r in cfg.area then cfg.area[r] else ""
  }

  /** A quantity of the area is asked for. */
  predicate AsksIn(cfg: Config, q: Quota, area: string) {
    exists r :: r in cfg.counts && Q(q, r) != 0 && Area(cfg, r) == area
  }

  predicate DefaultsTo1(cfg: Config, s: Store, b: Id, q: Quota, r: Rid) {
    && r in cfg.bools && r !in cfg.withdrawn && r in cfg.onByDefault && AsksIn(cfg, q, Area(cfg, r))
    && r !in q && (b == ROOT || (b in s && Holds1(s[b].limit, r)))
  }

  /** q with the availabilities that are on by default and that budget b holds, where q does not
      name them. */
  function WithDefaults(cfg: Config, s: Store, b: Id, q: Quota): Quota {
    q + map r | r in cfg.bools && DefaultsTo1(cfg, s, b, q, r) :: 1
  }

  // ── Auto-approval ───────────────────────────────────────────────────────────

  predicate RequestsBeyond(n: Node) {
    n.policy.auto.None? || n.policy.allowBeyond
  }

  /** What owner's charged projects directly under b cost it. */
  ghost function OwnerUsage(cfg: Config, s: Store, b: Id, owner: Token, r: Rid): int {
    Total(s, Owned(cfg, owner, b, r))
  }

  ghost predicate WithinShare(cfg: Config, s: Store, b: Id, owner: Token, share: Quota, add: Quota, sub: Quota) {
    forall r :: r in cfg.counts ==>
      var need := OwnerUsage(cfg, s, b, owner, r) - Q(sub, r) + Q(add, r);
      MIN_INT <= need <= MAX_INT && Fits(need, Q(share, r))
  }

  /** The policy of budget b grants owner a project going from sub to add. */
  ghost predicate AutoApprovable(cfg: Config, s: Store, b: Id, owner: Token, add: Quota, sub: Quota) {
    && b in s && s[b].policy.auto.Some? && s[b].status == Approved
    && (IsPool(s[b].policy.auto) || WithinShare(cfg, s, b, owner, s[b].policy.auto.value, add, sub))
    && HasRoom(cfg, s, Chain(Budgets(s), b), add, sub)
  }
}
