/** What every operation on the tree decides and writes, as a function of the store it finds
    (internal/core/tree/op_*.go, sync_provider.go). The methods of module Service compute these. */
module Steps {
  import opened Model
  import opened Chains
  import opened Charges
  import opened Rules

  /** Who asks, and when: the caller's tokens, the owner token of their address, the clock. */
  datatype Caller = Caller(tokens: set<Token>, self: Token, now: Time)

  datatype CreateRequest = CreateRequest(
    kind: Kind, parent: Id, limit: Quota, admins: set<Token>, requesters: set<Token>,
    auto: Option<Quota>, allowSub: bool, allowBeyond: bool, autoExtend: bool,
    maxTerm: Option<int>, inherits: bool, end: Option<Time>, members: set<Member>)

  datatype UpdateRequest = UpdateRequest(
    rename: bool, admins: Option<set<Token>>, requesters: Option<set<Token>>,
    auto: Option<Quota>, clearAuto: bool,
    allowSub: Option<bool>, allowBeyond: Option<bool>, autoExtend: Option<bool>,
    maxTerm: Option<int>, clearMaxTerm: bool,
    limit: Option<Quota>, end: Option<Time>, clearEnd: bool, inherits: Option<bool>)

  datatype ChangeRequest = ChangeRequest(
    limit: Option<Quota>, end: Option<Time>, members: Option<set<Member>>)

  datatype ApproveRequest = ApproveRequest(expected: Option<int>, modified: Option<Quota>)

  datatype PromoteRequest = PromoteRequest(
    parent: Id, owner: Token, limit: Quota, end: Option<Time>, members: set<Member>)

  type Outcome = Result<Store>

  /** Why a node cannot be changed, if it cannot: loadLive. */
  function LiveError(s: Store, id: Id): Option<Error> {
    if id !in s then Some(NotFound)
    else if s[id].status == Imported then Some(Forbidden)
    else if Terminal(s[id].status) then Some(Conflict)
    else None
  }

  // ── Create ──────────────────────────────────────────────────────────────────

  predicate CreateShapeOk(cfg: Config, req: CreateRequest) {
    if req.kind == Project then ValidLeafLimit(cfg, req.limit) && req.maxTerm.None? && !req.inherits
    else
      && req.admins != {} && ValidBudgetLimit(cfg, req.limit)
      && ValidAutoApprove(cfg, req.auto) && ValidSubBudgetRequests(req.auto, req.allowSub)
  }

  /** The limit a new node is created with. */
  ghost function CreateLimit(cfg: Config, s: Store, req: CreateRequest): Quota {
    var binding := Binding(s, Chain(Budgets(s), req.parent));
    if req.kind == Budget then (if req.inherits then map[] else req.limit)
    else if binding.None? then req.limit
    else WithDefaults(cfg, s, binding.value, req.limit)
  }

  ghost function CreateEnd(s: Store, req: CreateRequest, now: Time): Result<Option<Time>> {
    var chain := Chain(Budgets(s), req.parent);
    if req.kind == Project
    then FitProjectEnd(req.end, ChainEnd(s, chain), ChainMaxTerm(s, chain), now)
    else FitEnd(req.end, ChainEnd(s, chain))
  }

  ghost function CreateTerm(s: Store, req: CreateRequest): Result<Option<int>> {
    if req.kind == Project then Ok(None)
    else FitMaxTerm(req.maxTerm, ChainMaxTerm(s, Chain(Budgets(s), req.parent)))
  }

  const NO_SIDE := Side(false, false, {}, map[])

  function NewNode(req: CreateRequest, limit: Quota, end: Option<Time>, term: Option<int>, owner: Token): Node {
    if req.kind == Project
    then Node(Project, Some(req.parent), Pending, limit, false, [], None, end, None, owner, req.members,
              Policy(req.admins, {}, None, true, true, true, NO_HOUSE), Log(1, 0), NO_SIDE)
    else Node(Budget, Some(req.parent), Pending, limit, req.inherits, [], term, end, None, "", {},
              Policy(req.admins, req.requesters, req.auto, req.allowSub, req.allowBeyond, req.autoExtend, NO_HOUSE),
              Log(1, 0), NO_SIDE)
  }

  function Granted(n: Node): Node {
    n.(status := Approved, log := More(n.log, 1))
  }

  /** What becomes of a new node n under its parent: the decision at the end of CreateNode. */
  ghost function CreateDecision(cfg: Config, s: Store, id: Id, n: Node, manager: bool): Result<Node>
    requires n.parent.Some? && n.parent.value in s
  {
    var p := n.parent.value;
    var chain := Chain(Budgets(s), p);
    if manager then
      if n.kind == Project then
        if HasRoom(cfg, s, chain, n.limit, map[]) then Ok(Granted(n)) else Err(Invalid)
      else if n.inherits || BudgetLimitOk(cfg, s, id, chain, n.limit, false) then Ok(Granted(n))
      else Err(Invalid)
    else if n.kind == Project && s[p].policy.auto.Some? && !AllZero(n.limit) then
      if AutoApprovable(cfg, s, p, n.owner, n.limit, map[]) then Ok(Granted(n))
      else if !RequestsBeyond(s[p]) then Err(Forbidden)
      else Ok(n)
    else if n.kind == Budget && IsPool(s[p].policy.auto) && !AllZero(n.limit) then
      if BudgetLimitOk(cfg, s, id, chain, n.limit, false) then Ok(Granted(n))
      else if !RequestsBeyond(s[p]) then Err(Invalid)
      else Ok(n)
    else Ok(n)
  }

  ghost function Create(cfg: Config, s: Store, c: Caller, id: Id, req: CreateRequest): Outcome {
    if c.tokens == {} then Err(Forbidden)
    else if !CreateShapeOk(cfg, req) then Err(Invalid)
    else if req.parent !in s then Err(NotFound)
    else if s[req.parent].kind != Budget then Err(Invalid)
    else if s[req.parent].status != Approved then Err(Conflict)
    else CreateUnder(cfg, s, c, id, req)
  }

  ghost function CreateUnder(cfg: Config, s: Store, c: Caller, id: Id, req: CreateRequest): Outcome
    requires req.parent in s
  {
    var manager := Manages(s, c.tokens, s[req.parent]);
    var chain := Chain(Budgets(s), req.parent);
    var limit := CreateLimit(cfg, s, req);
    if !manager && s[req.parent].policy.requesters * c.tokens == {} then Err(Forbidden)
    else if req.kind == Project && !LeafLimitOk(cfg, s, [], chain, limit) then Err(Invalid)
    else if req.kind == Budget && !manager && !s[req.parent].policy.allowSub then Err(Forbidden)
    else if req.inherits && !manager then Err(Forbidden)
    else
      var end, term := CreateEnd(s, req, c.now), CreateTerm(s, req);
      if end.Err? || term.Err? then Err(Invalid)
      else
        var n := CreateDecision(cfg, s, id, NewNode(req, limit, end.value, term.value, c.self), manager);
        if n.Err? then Err(n.error) else Ok(Put(s, id, n.value))
  }

  // ── Update ──────────────────────────────────────────────────────────────────

  predicate CapacityEdit(req: UpdateRequest) {
    req.limit.Some? || req.end.Some? || req.clearEnd || req.inherits.Some?
  }

  predicate PolicyEdit(req: UpdateRequest) {
    req.rename || req.admins.Some? || req.requesters.Some? || req.auto.Some? || req.clearAuto
    || req.allowSub.Some? || req.allowBeyond.Some? || req.autoExtend.Some? || req.maxTerm.Some? || req.clearMaxTerm
  }

  /** Only the name and the admins: the direct edits of a project. */
  predicate LeafDirectEdit(req: UpdateRequest) {
    && (req.rename || req.admins.Some?) && !CapacityEdit(req)
    && req.requesters.None? && req.auto.None? && !req.clearAuto && req.allowSub.None? && req.allowBeyond.None?
    && req.autoExtend.None? && req.maxTerm.None? && !req.clearMaxTerm
  }

  function Or<T>(edit: Option<T>, current: T): T {
    if edit.Some? then edit.value else current
  }

  function EditedAuto(p: Policy, req: UpdateRequest): Option<Quota> {
    if req.clearAuto then None else if req.auto.Some? then req.auto else p.auto
  }

  function EditedPolicy(p: Policy, req: UpdateRequest): Policy {
    Policy(Or(req.admins, p.admins), Or(req.requesters, p.requesters), EditedAuto(p, req),
           Or(req.allowSub, p.allowSub), Or(req.allowBeyond, p.allowBeyond), Or(req.autoExtend, p.autoExtend), p.house)
  }

  predicate AutoEditOk(cfg: Config, n: Node, req: UpdateRequest) {
    && (req.clearAuto || ValidAutoApprove(cfg, req.auto))
    && (req.auto.Some? || req.allowSub.Some?
        ==> ValidSubBudgetRequests(EditedPolicy(n.policy, req).auto, EditedPolicy(n.policy, req).allowSub))
  }

  ghost predicate TermEditOk(s: Store, chain: seq<Id>, req: UpdateRequest) {
    if req.clearMaxTerm then ChainMaxTerm(s, chain).None?
    else req.maxTerm.Some? ==> FitMaxTerm(req.maxTerm, ChainMaxTerm(s, chain)).Ok?
  }

  ghost predicate EndEditOk(s: Store, chain: seq<Id>, req: UpdateRequest) {
    && (req.clearEnd ==> ChainEnd(s, chain).None?)
    && (req.end.Some? ==> FitEnd(req.end, ChainEnd(s, chain)).Ok?)
  }

  /** Whether the budget inherits once edited. */
  function Inherits(n: Node, req: UpdateRequest): bool {
    Or(req.inherits, n.inherits)
  }

  /** The limit an edit sets: the one asked for, or on switching inheritance off the one passed on
      so far. */
  ghost function EditedLimit(s: Store, n: Node, chain: seq<Id>, req: UpdateRequest): Option<Quota> {
    var binding := Binding(s, chain);
    if req.limit.Some? then req.limit
    else if !Inherits(n, req) && n.inherits && binding.Some? && binding.value in s
    then Some(s[binding.value].limit)
    else None
  }

  ghost predicate LimitEditOk(cfg: Config, s: Store, id: Id, chain: seq<Id>, req: UpdateRequest)
    requires id in s
  {
    && !(Inherits(s[id], req) && req.limit.Some?)
    && !(Inherits(s[id], req) && CapacityEdit(req) && Binding(s, chain).None?)
    && var limit := EditedLimit(s, s[id], chain, req);
       limit.Some? ==> BudgetLimitOk(cfg, s, id, chain, limit.value, true)
  }

  /** The limit of the budget once edited. */
  ghost function LimitAfterEdit(s: Store, n: Node, chain: seq<Id>, req: UpdateRequest): Quota {
    var limit := EditedLimit(s, n, chain, req);
    if limit.Some? then limit.value
    else if Inherits(n, req) && !n.inherits then map[]
    else n.limit
  }

  ghost function Edited(s: Store, n: Node, chain: seq<Id>, req: UpdateRequest): Node {
    n.(policy := EditedPolicy(n.policy, req),
       maxTerm := if req.clearMaxTerm then None else if req.maxTerm.Some? then req.maxTerm else n.maxTerm,
       end := if req.clearEnd then None else if req.end.Some? then req.end else n.end,
       inherits := Inherits(n, req),
       limit := LimitAfterEdit(s, n, chain, req),
       log := More(n.log, 1))
  }

  /** A request that both clears and sets the end writes the node and then panics on the missing
      end, before anything is carried down. */
  predicate PanicsEarly(req: UpdateRequest) {
    req.clearEnd && req.end.Some?
  }

  /** One that both clears and sets the term panics on the missing term, once the end was carried down. */
  predicate Panics(req: UpdateRequest) {
    PanicsEarly(req) || (req.clearMaxTerm && req.maxTerm.Some?)
  }

  /** What UpdateNode carries down once the node itself is written. */
  ghost function CarriedDown(s: Store, id: Id, req: UpdateRequest, now: Time): Store {
    if PanicsEarly(req) then s
    else
      var t := if req.end.Some? then CascadeEnds(s, id, req.end.value) else s;
      if req.maxTerm.Some? && !req.clearMaxTerm then CascadeTerms(t, id, req.maxTerm.value, now) else t
  }

  ghost function Update(cfg: Config, s: Store, c: Caller, id: Id, req: UpdateRequest): Outcome {
    if LiveError(s, id).Some? then Err(LiveError(s, id).value) else UpdateLive(cfg, s, c, id, req)
  }

  ghost function UpdateLive(cfg: Config, s: Store, c: Caller, id: Id, req: UpdateRequest): Outcome
    requires id in s
  {
    var n, chain := s[id], Above(s, s[id]);
    if n.kind == Project && !LeafDirectEdit(req) then Err(Invalid)
    else if PolicyEdit(req) && !(n.kind == Project && IsOwner(c.tokens, n)) && !Manages(s, c.tokens, n)
    then Err(Forbidden)
    else if CapacityEdit(req) && !ManagesAbove(s, c.tokens, n) then Err(Forbidden)
    else if id == ROOT && req.admins.Some? then Err(Forbidden)
    else if !AutoEditOk(cfg, n, req) || !TermEditOk(s, chain, req) || !EndEditOk(s, chain, req)
         || !LimitEditOk(cfg, s, id, chain, req) then Err(Invalid)
    else Ok(CarriedDown(Put(s, id, Edited(s, n, chain, req)), id, req, c.now))
  }

  // ── Request a change ────────────────────────────────────────────────────────

  ghost predicate AskedEndOk(s: Store, n: Node, req: ChangeRequest, now: Time) {
    req.end.Some? ==>
      if n.kind == Project
      then FitProjectEnd(req.end, ChainEnd(s, Above(s, n)), ChainMaxTerm(s, Above(s, n)), now).Ok?
      else FitEnd(req.end, ChainEnd(s, Above(s, n))).Ok?
  }

  ghost predicate AskedLimitOk(cfg: Config, s: Store, n: Node, req: ChangeRequest) {
    req.limit.Some? ==>
      && !n.inherits
      && if n.kind == Project then LeafLimitOk(cfg, s, n.allocations, Above(s, n), req.limit.value)
         else ValidBudgetLimit(cfg, req.limit.value)
  }

  predicate AskedMembersOk(n: Node, req: ChangeRequest) {
    req.members.Some? ==> n.kind == Project
  }

  /** A request not yet approved, amended in place. */
  function Amended(n: Node, req: ChangeRequest): Node {
    n.(limit := Or(req.limit, n.limit),
       end := if req.end.Some? then req.end else n.end,
       members := Or(req.members, n.members),
       log := More(n.log, 1))
  }

  datatype Verdict = Direct | Waits | Beyond

  /** Whether a proposed change to an active project takes effect without a manager. */
  ghost function LeafVerdict(cfg: Config, s: Store, n: Node, req: ChangeRequest): Verdict {
    var p := n.parent;
    if req.limit.Some? && !Shrinks(cfg, n.limit, req.limit.value)
       && !(p.Some? && AutoApprovable(cfg, s, p.value, n.owner, req.limit.value, n.limit))
    then Beyond
    else if req.end.Some? && !NoLater(req.end.value, n.end)
            && !(p.Some? && p.value in s && s[p.value].policy.auto.Some? && s[p.value].policy.autoExtend
                 && s[p.value].status == Approved && NoLater(req.end.value, s[p.value].end))
    then Waits
    else Direct
  }

  function AppliedDirectly(n: Node, req: ChangeRequest): Node {
    n.(limit := Or(req.limit, n.limit),
       end := if req.end.Some? then req.end else n.end,
       members := Or(req.members, n.members),
       pending := None,
       status := Approved,
       log := More(n.log, 2))
  }

  function Proposed(n: Node, req: ChangeRequest): Node {
    n.(pending := Some(Proposal(req.limit, req.end, req.members)), status := ChangePending, log := More(n.log, 1))
  }

  predicate AsksNothing(req: ChangeRequest) {
    req.limit.None? && req.end.None? && req.members.None?
  }

  ghost function RequestChange(cfg: Config, s: Store, c: Caller, id: Id, req: ChangeRequest): Outcome {
    if LiveError(s, id).Some? then Err(LiveError(s, id).value) else ChangeLive(cfg, s, c, id, req)
  }

  ghost function ChangeLive(cfg: Config, s: Store, c: Caller, id: Id, req: ChangeRequest): Outcome
    requires id in s
  {
    var n := s[id];
    if !(n.kind == Project && IsOwner(c.tokens, n)) && !Manages(s, c.tokens, n) then Err(Forbidden)
    else if !AskedEndOk(s, n, req, c.now) || !AskedLimitOk(cfg, s, n, req) || !AskedMembersOk(n, req)
    then Err(Invalid)
    else if n.status == Pending then Ok(Put(s, id, Amended(n, req)))
    else if AsksNothing(req) then Err(Invalid)
    else
      var verdict := if n.kind == Project then LeafVerdict(cfg, s, n, req) else Waits;
      if verdict == Beyond && n.parent.Some? && n.parent.value in s && !RequestsBeyond(s[n.parent.value])
         && !ManagesAbove(s, c.tokens, n)
      then Err(Forbidden)
      else if verdict == Direct then Ok(Put(s, id, AppliedDirectly(n, req)))
      else Ok(Put(s, id, Proposed(n, req)))
  }

  // ── Approve, reject ─────────────────────────────────────────────────────────

  function FinalLimit(n: Node, req: ApproveRequest): Quota {
    if req.modified.Some? then req.modified.value
    else if n.pending.Some? && n.pending.value.limit.Some? then n.pending.value.limit.value
    else n.limit
  }

  function AskedEnd(n: Node): Option<Time> {
    if n.pending.Some? && n.pending.value.end.Some? then n.pending.value.end else n.end
  }

  /** The latest end approval grants: that of the budgets above, for a project also the term's. */
  ghost function ApprovalBound(s: Store, n: Node, now: Time): Option<Time> {
    var end := ChainEnd(s, Above(s, n));
    if n.kind == Project then ProjectBound(end, ChainMaxTerm(s, Above(s, n)), now).0 else end
  }

  ghost function FinalEnd(s: Store, n: Node, now: Time): Option<Time> {
    var bound := ApprovalBound(s, n, now);
    if bound.Some? && (AskedEnd(n).None? || !NoLater(AskedEnd(n).value, bound)) then bound else AskedEnd(n)
  }

  function FinalMembers(n: Node): set<Member> {
    if n.pending.Some? && n.pending.value.members.Some? then n.pending.value.members.value else n.members
  }

  ghost predicate GrantOk(cfg: Config, s: Store, id: Id, limit: Quota)
    requires id in s
  {
    var n, chain := s[id], Above(s, s[id]);
    if n.kind == Project
    then LeafLimitOk(cfg, s, n.allocations, chain, limit)
         && HasRoom(cfg, s, chain, limit, if n.status == ChangePending then n.limit else map[])
    else n.inherits || BudgetLimitOk(cfg, s, id, chain, limit, n.status == ChangePending)
  }

  ghost function Decided(s: Store, n: Node, req: ApproveRequest, now: Time): Node {
    n.(status := Approved, limit := FinalLimit(n, req), end := FinalEnd(s, n, now),
       members := FinalMembers(n), pending := None, log := More(n.log, 1))
  }

  ghost function Approve(cfg: Config, s: Store, c: Caller, id: Id, req: ApproveRequest): Outcome {
    if id !in s then Err(NotFound)
    else
      var n := s[id];
      if n.status != Pending && n.status != ChangePending then Err(Conflict)
      else if !ManagesAbove(s, c.tokens, n) then Err(Forbidden)
      else if req.expected.None? then Err(Invalid)
      else if req.expected.value != Revision(n) then Err(Conflict)
      else if !GrantOk(cfg, s, id, FinalLimit(n, req)) then Err(Invalid)
      else
        var t := Put(s, id, Decided(s, n, req, c.now));
        var end := FinalEnd(s, n, c.now);
        Ok(if n.kind == Budget && end.Some? then CascadeEnds(t, id, end.value) else t)
  }

  /** The decision as it is written on the stored node m: not where its status or its revision is another
      by now. */
  function DecideChange(m: Node, status: Status, revision: nat, d: Node): Option<Node> {
    if m.status != status || Revision(m) != revision then None
    else Some(m.(status := Approved, limit := d.limit, end := d.end, members := d.members, pending := None,
                 log := More(m.log, 1)))
  }

  /** The rejection as it is written: not where the status or the place is another by now. */
  function RefuseChange(m: Node, status: Status, parent: Option<Id>): Option<Node> {
    if m.status != status || m.parent != parent then None else Some(Refused(m))
  }

  function Refused(n: Node): Node {
    n.(status := if n.status == Pending then Rejected else Approved, pending := None, log := More(n.log, 1))
  }

  ghost function Reject(s: Store, c: Caller, id: Id): Outcome {
    if id !in s then Err(NotFound)
    else
      var n := s[id];
      if n.status != Pending && n.status != ChangePending then Err(Conflict)
      else if !ManagesAbove(s, c.tokens, n) then Err(Forbidden)
      else Ok(Put(s, id, Refused(n)))
  }

  // ── Release, delete ───────────────────────────────────────────────────────

  function ReleasedNode(n: Node, delete: bool): Node {
    var marks := delete && !n.side.deletion;
    n.(status := Released, pending := None,
       side := n.side.(deletion := n.side.deletion || delete),
       log := More(n.log, if marks then 2 else 1))
  }

  /** The release as it is written: not where the project is no longer approved. */
  function ReleaseChange(m: Node, delete: bool): Option<Node> {
    if m.status != Approved then None else Some(ReleasedNode(m, delete))
  }

  /** Whether every provider concerned deletes on request is configuration; it comes in as
      deletable. */
  ghost function Release(s: Store, c: Caller, id: Id, delete: bool, deletable: bool): Outcome {
    if id !in s then Err(NotFound)
    else
      var n := s[id];
      if n.kind != Project then Err(Invalid)
      else if n.status != Approved then Err(Conflict)
      else if delete && !deletable then Err(Conflict)
      else if !IsOwner(c.tokens, n) && !Manages(s, c.tokens, n) then Err(Forbidden)
      else Ok(Put(s, id, ReleasedNode(n, delete)))
  }

  /** The subtree of budget x, projects included. */
  ghost function Closure(s: Store, x: Id): set<Id> {
    set id | id in s && (id == x || StrictlyBelow(s, x, id))
  }

  predicate BlocksDeletion(n: Node) {
    n.status == Pending || n.status == ChangePending || n.status == Imported
    || (n.kind == Project && n.status == Approved)
  }

  ghost function Delete(s: Store, c: Caller, id: Id): Outcome {
    if id !in s then Err(NotFound)
    else
      var n := s[id];
      if n.kind != Budget then Err(Invalid)
      else if id == ROOT || id == UNASSIGNED then Err(Forbidden)
      else if !Manages(s, c.tokens, n) then Err(Forbidden)
      else if exists d :: StrictlyBelow(s, id, d) && BlocksDeletion(s[d]) then Err(Invalid)
      else Ok(s - Closure(s, id))
  }

  // ── Move, hand over, promote ────────────────────────────────────────────────

  /** Why a node cannot be taken to budget target, if it cannot: loadTarget. */
  ghost function TargetError(s: Store, c: Caller, n: Node, target: Id): Option<Error> {
    if target !in s then Some(NotFound)
    else if s[target].kind != Budget || s[target].status != Approved then Some(Invalid)
    else if target == UNASSIGNED then Some(Invalid)
    else if !ManagesAbove(s, c.tokens, n) then Some(Forbidden)
    else if !Manages(s, c.tokens, s[target]) then Some(Forbidden)
    else None
  }

  /** The usage a budget takes along when it moves. */
  ghost function MovedUsage(cfg: Config, s: Store, x: Id): Quota {
    map r | r in cfg.counts :: Saturated(LocalUsage(cfg, s, x, r))
  }

  /** The active budgets below x that inherited through it, x included: every budget between is
      active and inherits too. */
  ghost predicate InheritsFrom(s: Store, x: Id, b: Id) {
    && b in Subtree(s, x)
    && forall d :: d in Chain(Budgets(s), b) && d in Subtree(s, x) && d != x && d in s
         ==> Active(s[d].status) && s[d].inherits
  }

  /** The budgets right below those that inherited through x fit what is above after the move. */
  ghost predicate InheritingMoveOk(cfg: Config, s: Store, x: Id, target: Id) {
    forall b :: b in Subtree(s, x) && b != x && b in s && Active(s[b].status) && !s[b].inherits
                && s[b].parent.Some? && InheritsFrom(s, x, s[b].parent.value)
      ==> BudgetLimitOk(cfg, s, b, Chain(Budgets(s), target), s[b].limit, false)
  }

  ghost predicate MoveFits(cfg: Config, s: Store, x: Id, target: Id)
    requires x in s
  {
    var n, chain := s[x], Chain(Budgets(s), target);
    ChargedStatus(cfg.acc, n.status) ==>
      if n.kind == Project
      then HasRoom(cfg, s, chain, n.limit, map[])
           && (Active(n.status) ==> LeafLimitOk(cfg, s, n.allocations, chain, n.limit))
      else
        && (if n.inherits then InheritingMoveOk(cfg, s, x, target)
            else BudgetLimitOk(cfg, s, x, chain, n.limit, false))
        && HasRoom(cfg, s, chain, MovedUsage(cfg, s, x), map[])
  }

  /** Every allocation of a project that moves still comes from above it. */
  ghost predicate AllocationsAfterMoveOk(s: Store, x: Id, target: Id)
    requires x in s
  {
    forall id, a :: id in s && s[id].kind == Project && !Terminal(s[id].status) && a in s[id].allocations
      && (if s[x].kind == Project then id == x else StrictlyBelow(s, x, id))
      ==> if s[x].kind == Project then a.budget in Chain(Budgets(s), target) && a.budget != target
          else a.budget in Chain(Budgets(s), target) || a.budget in Subtree(s, x)
  }

  /** The bound a moved node is shortened to. */
  ghost function MoveBound(s: Store, n: Node, target: Id, now: Time): Option<Time> {
    var chain := Chain(Budgets(s), target);
    if n.kind == Project then ProjectBound(ChainEnd(s, chain), ChainMaxTerm(s, chain), now).0
    else ChainEnd(s, chain)
  }

  ghost function MovedNode(s: Store, n: Node, target: Id, now: Time): Node {
    var bound := MoveBound(s, n, target, now);
    var term := ChainMaxTerm(s, Chain(Budgets(s), target));
    var m := n.(parent := Some(target), log := More(n.log, 1));
    var e := if bound.Some? then ShortenEnd(m, bound.value) else m;
    if term.Some? && n.kind == Budget then ShortenTerm(e, term.value) else e
  }

  /** What a move writes before anything is carried down. */
  ghost function MoveWritten(s: Store, id: Id, target: Id, now: Time): Store
    requires id in s
  {
    Put(s, id, MovedNode(s, s[id], target, now))
  }

  /** A moved budget carries its new bound and its term down. */
  ghost function MoveCarried(s: Store, id: Id, bound: Option<Time>, now: Time): Store
    requires id in s
  {
    if s[id].kind == Project then s
    else
      var t := if bound.Some? then CascadeEnds(s, id, bound.value) else s;
      if s[id].maxTerm.Some? then CascadeTerms(t, id, s[id].maxTerm.value, now) else t
  }

  ghost function Move(cfg: Config, s: Store, c: Caller, id: Id, target: Id): Outcome {
    if LiveError(s, id).Some? then Err(LiveError(s, id).value) else MoveLive(cfg, s, c, id, target)
  }

  ghost function MoveLive(cfg: Config, s: Store, c: Caller, id: Id, target: Id): Outcome
    requires id in s
  {
    if id == ROOT || id == UNASSIGNED then Err(Forbidden)
    else if s[id].parent == Some(target) then Err(Conflict)
    else if TargetError(s, c, s[id], target).Some? then Err(TargetError(s, c, s[id], target).value)
    else if id in Chain(Budgets(s), target) then Err(Invalid)
    else if !MoveFits(cfg, s, id, target) then Err(Invalid)
    else if !AllocationsAfterMoveOk(s, id, target) then Err(Invalid)
    else Ok(MoveCarried(MoveWritten(s, id, target, c.now), id, MoveBound(s, s[id], target, c.now), c.now))
  }

  function HandedOver(n: Node, owner: Token): Node {
    n.(owner := owner, log := More(n.log, 1))
  }

  /** The new owner as it is written: not where the project is past changing or stands elsewhere by now. */
  function HandOverChange(m: Node, parent: Option<Id>, owner: Token): Option<Node> {
    if !Live(m.status) || m.parent != parent || m.owner == owner then None else Some(HandedOver(m, owner))
  }

  ghost function Transfer(s: Store, c: Caller, id: Id, owner: Token): Outcome {
    if LiveError(s, id).Some? then Err(LiveError(s, id).value)
    else if s[id].kind != Project then Err(Invalid)
    else if !ManagesAbove(s, c.tokens, s[id]) then Err(Forbidden)
    else if s[id].owner == owner then Err(Conflict)
    else Ok(Put(s, id, HandedOver(s[id], owner)))
  }

  function PromotedLimit(n: Node, req: PromoteRequest): Quota {
    if req.limit != map[] then req.limit else n.limit
  }

  ghost function PromotedEnd(s: Store, req: PromoteRequest, now: Time): Result<Option<Time>> {
    var chain := Chain(Budgets(s), req.parent);
    FitProjectEnd(req.end, ChainEnd(s, chain), ChainMaxTerm(s, chain), now)
  }

  ghost function PromotedNode(s: Store, n: Node, req: PromoteRequest, now: Time): Node {
    var end := PromotedEnd(s, req, now);
    n.(parent := Some(req.parent), owner := req.owner, end := if end.Ok? then end.value else None,
       limit := PromotedLimit(n, req), members := req.members, side := n.side.(promote := true),
       log := More(n.log, 1))
  }

  ghost function Promote(cfg: Config, s: Store, c: Caller, id: Id, req: PromoteRequest): Outcome {
    if id !in s then Err(NotFound)
    else if s[id].status != Imported then Err(Forbidden)
    else PromoteImport(cfg, s, c, id, req)
  }

  ghost function PromoteImport(cfg: Config, s: Store, c: Caller, id: Id, req: PromoteRequest): Outcome
    requires id in s
  {
    if TargetError(s, c, s[id], req.parent).Some? then Err(TargetError(s, c, s[id], req.parent).value)
    else
      var n, chain := s[id], Chain(Budgets(s), req.parent);
      if !LeafLimitOk(cfg, s, n.allocations, chain, PromotedLimit(n, req))
         || !HasRoom(cfg, s, chain, PromotedLimit(n, req), map[]) || PromotedEnd(s, req, c.now).Err?
      then Err(Invalid)
      else Ok(Put(s, id, PromotedNode(s, n, req, c.now)))
  }

  // ── Allocations ─────────────────────────────────────────────────────────────

  function NonZero(q: Quota): Quota {
    map r | r in q && q[r] != 0 :: q[r]
  }

  /** What the project draws from budget b: the last allocation naming it. */
  function HeldFrom(allocs: seq<Allocation>, b: Id): Quota {
    if allocs == [] then map[]
    else if allocs[|allocs| - 1].budget == b then allocs[|allocs| - 1].limit
    else HeldFrom(allocs[..|allocs| - 1], b)
  }

  function Without(allocs: seq<Allocation>, b: Id): seq<Allocation> {
    if allocs == [] then []
    else if allocs[|allocs| - 1].budget == b then Without(allocs[..|allocs| - 1], b)
    else Without(allocs[..|allocs| - 1], b) + [allocs[|allocs| - 1]]
  }

  predicate Raises(held: Quota, limit: Quota) {
    exists r :: r in limit && limit[r] > Q(held, r)
  }

  /** The project does not get availability r elsewhere than from budget except. */
  predicate OnlyFrom(n: Node, r: Rid, except: Id) {
    && Q(n.limit, r) != 1
    && !(n.pending.Some? && n.pending.value.limit.Some? && Q(n.pending.value.limit.value, r) == 1)
    && forall a :: a in n.allocations && a.budget != except ==> Q(a.limit, r) != 1
  }

  /** source is the budget that binds at the allocating one. */
  ghost predicate AvailabilitiesOk(cfg: Config, s: Store, n: Node, source: Id, limit: Quota) {
    forall r :: r in limit && r in cfg.bools && limit[r] == 1 ==>
      && (source == ROOT || (source in s && Holds1(s[source].limit, r)))
      && OnlyFrom(n, r, source)
  }

  /** Drawing nothing leaves no allocation behind. */
  function WithAllocation(allocs: seq<Allocation>, b: Id, limit: Quota): seq<Allocation> {
    if limit == map[] then allocs else allocs + [Allocation(b, limit)]
  }

  function Allocated(n: Node, b: Id, limit: Quota): Node {
    n.(allocations := WithAllocation(Without(n.allocations, b), b, limit), log := More(n.log, 1))
  }

  /** Every budget from b upward has room, and the availabilities are to be had from there. */
  ghost predicate RaiseOk(cfg: Config, s: Store, n: Node, b: Id, limit: Quota, held: Quota) {
    var from := Chain(Budgets(s), b);
    && Binding(s, from).Some? && AvailabilitiesOk(cfg, s, n, Binding(s, from).value, limit)
    && HasRoom(cfg, s, from, limit, held)
  }

  /** Why project n may not draw limit from b where it draws held now, if so. */
  ghost function AllocationError(cfg: Config, s: Store, c: Caller, n: Node, b: Id, limit: Quota,
                                 held: Quota): Option<Error> {
    if !ManagesChain(s, c.tokens, Chain(Budgets(s), b))
       && (!(IsOwner(c.tokens, n) || n.policy.admins * c.tokens != {}) || Raises(held, limit))
    then Some(Forbidden)
    else if !Raises(held, limit) then None
    else if b in s && s[b].status != Approved then Some(Conflict)
    else if !RaiseOk(cfg, s, n, b, limit, held) then Some(Invalid)
    else None
  }

  ghost function AllocateLive(cfg: Config, s: Store, c: Caller, id: Id, b: Id, limit: Quota): Outcome
    requires id in s
  {
    var n, above := s[id], Above(s, s[id]);
    var held := HeldFrom(n.allocations, b);
    if n.kind != Project || b !in above || above[0] == b || (held == map[] && limit == map[]) then Err(Invalid)
    else if AllocationError(cfg, s, c, n, b, limit, held).Some?
    then Err(AllocationError(cfg, s, c, n, b, limit, held).value)
    else Ok(Put(s, id, Allocated(n, b, limit)))
  }

  /** Whether the reason is given and the member ceiling holds is taken as checked. */
  ghost function Allocate(cfg: Config, s: Store, c: Caller, id: Id, b: Id, amount: Quota): Outcome {
    if !ValidLeafLimit(cfg, NonZero(amount)) then Err(Invalid)
    else if LiveError(s, id).Some? then Err(LiveError(s, id).value)
    else AllocateLive(cfg, s, c, id, b, NonZero(amount))
  }
}
