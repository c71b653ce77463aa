/** The writes that take no lock - what the providers report and the marks set beside the approvals
    (internal/core/tree/sync_provider.go, op_attributes.go, op_external_groups.go) - and the
    rewrites of the whole tree when an availability leaves the catalogue (op_catalog.go). */
module Reports {
  import opened Model
  import opened Chains
  import opened Charges
  import opened Rules
  import opened Steps

  /** A write of a provider or of an operation that takes no lock.
      Observe: what a provider measured; Bind: the project it created. Note: an attribute edit or the
      removal of an external group, which change nothing the tree's rules read. */
  datatype Report =
    | Observe(id: Id, provider: string, inUse: map<Rid, nat>)
    | Bind(id: Id, provider: string)
    | MarkArchived(id: Id)
    | RemoveRetired(id: Id, provider: string)
    | AddImport(id: Id, limit: Quota, members: set<Member>)
    | RemoveImport(id: Id)
    | RefreshImport(id: Id, limit: Quota, members: set<Member>, provider: string, inUse: map<Rid, nat>)
    | Adopt(id: Id, members: set<Member>)
    | MarkDeletion(id: Id)
    | Note(id: Id)

  function ImportedNode(limit: Quota, members: set<Member>): Node {
    Node(Project, Some(UNASSIGNED), Imported, limit, false, [], None, None, None, "", members,
         Policy({}, {}, None, true, true, true, NO_HOUSE), Log(0, 0), NO_SIDE)
  }

  function Seen(side: Side, provider: string, inUse: map<Rid, nat>): Side {
    side.(bound := side.bound + {provider}, inUse := inUse)
  }

  /** What a report makes of a node; None removes it, and an unchanged node is not written. */
  function Reported(n: Node, w: Report): Option<Node> {
    match w
    case Observe(_, provider, inUse) => Some(n.(side := Seen(n.side, provider, inUse)))
    case Bind(_, provider) => Some(n.(side := Seen(n.side, provider, n.side.inUse)))
    case MarkArchived(_) =>
      if n.status == Released then Some(n.(status := Archived, log := Capped(More(n.log, 1)))) else Some(n)
    case RemoveRetired(_, provider) =>
      if !Retired(n.status) then Some(n)
      else if n.side.bound <= {provider} then None
      else Some(n.(side := n.side.(bound := n.side.bound - {provider})))
    case AddImport(_, _, _) => Some(n)
    case RemoveImport(_) => if n.status == Imported then None else Some(n)
    case RefreshImport(_, limit, members, provider, inUse) =>
      if n.status != Imported || n.side.promote then Some(n)
      else Some(n.(limit := limit, members := members, side := Seen(n.side, provider, inUse)))
    case Adopt(_, members) =>
      if n.status != Imported || !n.side.promote then Some(n)
      else Some(n.(members := Merged(n.members, members, n.owner), status := Pending,
                   side := n.side.(promote := false)))
    case MarkDeletion(_) =>
      if Retired(n.status) && !n.side.deletion
      then Some(n.(side := n.side.(deletion := true), log := Capped(More(n.log, 1))))
      else Some(n)
    case Note(_) => Some(CapHistory(Logged(n, 1)))
  }

  /** The members a leaf names, and those of current it does not name yet, without the owner. */
  function Merged(members: set<Member>, current: set<Member>, owner: Token): set<Member> {
    members + set m | m in current && m.token != owner && m.token !in (set k | k in members :: k.token)
  }

  /** A new import comes under an identifier of its own. */
  predicate ReportEnabled(s: Store, w: Report) {
    w.AddImport? ==> w.id !in s
  }

  function ApplyReport(s: Store, w: Report): Store {
    if w.AddImport? then s[w.id := ImportedNode(w.limit, w.members)]
    else if w.id !in s then s
    else match Reported(s[w.id], w)
      case None => s - {w.id}
      case Some(n) => s[w.id := n]
  }

  // ── Availabilities leaving the catalogue ────────────────────────────────────

  datatype Rewrite = Withdraw(r: Rid) | Forget(r: Rid)

  predicate Touches(w: Rewrite, q: Quota) {
    w.r in q && (w.Withdraw? ==> q[w.r] != 0)
  }

  function Rewritten(w: Rewrite, q: Quota): Quota {
    if !Touches(w, q) then q
    else if w.Withdraw? then q[w.r := 0]
    else q - {w.r}
  }

  /** Allocations left granting nothing go. */
  function RewrittenAllocations(w: Rewrite, allocs: seq<Allocation>): seq<Allocation> {
    if allocs == [] then []
    else
      var a := allocs[|allocs| - 1];
      var q, rest := Rewritten(w, a.limit), RewrittenAllocations(w, allocs[..|allocs| - 1]);
      if Touches(w, a.limit) && AllZero(q) then rest else rest + [a.(limit := q)]
  }

  function RewrittenProposal(w: Rewrite, p: Proposal): Proposal {
    if p.limit.Some? then p.(limit := Some(Rewritten(w, p.limit.value))) else p
  }

  function RewrittenNode(w: Rewrite, n: Node): Node {
    n.(limit := Rewritten(w, n.limit),
       allocations := RewrittenAllocations(w, n.allocations),
       pending := if n.pending.Some? then Some(RewrittenProposal(w, n.pending.value)) else None,
       policy := n.policy.(auto := if n.policy.auto.Some? then Some(Rewritten(w, n.policy.auto.value)) else None))
  }

  predicate TouchesAllocations(w: Rewrite, allocs: seq<Allocation>) {
    exists a :: a in allocs && Touches(w, a.limit)
  }

  /** Somewhere in the node the amount is stored. */
  predicate TouchesNode(w: Rewrite, n: Node) {
    || Touches(w, n.limit)
    || TouchesAllocations(w, n.allocations)
    || (n.pending.Some? && n.pending.value.limit.Some? && Touches(w, n.pending.value.limit.value))
    || (n.policy.auto.Some? && Touches(w, n.policy.auto.value))
  }

  lemma {:induction false} UntouchedAllocations(w: Rewrite, allocs: seq<Allocation>)
    requires !TouchesAllocations(w, allocs)
    ensures RewrittenAllocations(w, allocs) == allocs
  {
    if allocs != [] {
      assert allocs[|allocs| - 1] in allocs;
      UntouchedAllocations(w, allocs[..|allocs| - 1]);
    }
  }

  /** A node that does not hold the amount anywhere stays as it is. */
  lemma UntouchedNode(w: Rewrite, n: Node)
    requires !TouchesNode(w, n)
    ensures RewrittenNode(w, n) == n
  {
    UntouchedAllocations(w, n.allocations);
  }

  ghost function RewriteAll(s: Store, w: Rewrite): Store {
    map id | id in s :: RewrittenNode(w, s[id])
  }

  /** The root is granted availability r, so that it can be delegated. */
  function AdoptAvailability(s: Store, r: Rid): Store {
    if ROOT in s then s[ROOT := s[ROOT].(limit := s[ROOT].limit[r := 1])] else s
  }
}
