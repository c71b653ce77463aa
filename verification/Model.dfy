/** The node of the budget tree, its quotas and its lifecycle (internal/core/model/model.go), and
    the catalogue and accounting the service is configured with. */
module Model {
  type Id = string
  type Rid = string
  type Token = string
  type Time = int

  datatype Option<+T> = None | Some(value: T)

  datatype Error = NotFound | Forbidden | Conflict | Invalid

  datatype Result<+T> = Ok(value: T) | Err(error: Error)

  const ROOT: Id := "root"
  const UNASSIGNED: Id := "unassigned"

  const UNLIMITED: int := -1
  const MAX_QUOTA: int := 1_000_000_000
  const MAX_HISTORY: nat := 200

  /** The range of a 64-bit int. */
  const MAX_INT: int := 0x7FFF_FFFF_FFFF_FFFF
  const MIN_INT: int := -0x8000_0000_0000_0000

  /** Amounts by resource id; a missing key reads as 0. */
  type Quota = map<Rid, int>

  function Q(q: Quota, r: Rid): int {
    if r in q then q[r] else 0
  }

  datatype Kind = Budget | Project

  datatype Status = Pending | Approved | ChangePending | Rejected | Released | Archived | Imported

  /** Statuses whose limit is in force. */
  predicate Active(st: Status) {
    st == Approved || st == ChangePending
  }

  predicate Retired(st: Status) {
    st == Released || st == Archived
  }

  predicate Terminal(st: Status) {
    st == Rejected || Retired(st)
  }

  /** Neither past changing nor an import: what loadLive accepts and the cascades visit. */
  predicate Live(st: Status) {
    !Terminal(st) && st != Imported
  }

  datatype Allocation = Allocation(budget: Id, limit: Quota)

  datatype Member = Member(token: Token, role: string)

  datatype Proposal = Proposal(limit: Option<Quota>, end: Option<Time>, members: Option<set<Member>>)

  /** The history of a node: how many entries it holds and how many of the oldest were dropped. */
  datatype Log = Log(kept: nat, dropped: nat)

  /** Release times of one kind of use: minutes idle with and without a tab open, and hours at most, 0 for
      no bound. */
  datatype ReleaseTimes = ReleaseTimes(idleOpen: Option<int>, idleClosed: Option<int>, maxHours: Option<int>)

  datatype ReleaseMax = ReleaseMax(cpu: ReleaseTimes, gpu: ReleaseTimes)

  datatype BatchJobs = BatchJobs(perPerson: int, maxHours: int)

  /** What a budget sets for the workspaces and jobs of the projects below it. */
  datatype House = House(
    release: Option<ReleaseMax>,
    scratch: Option<int>,
    priority: Option<string>,
    jobs: Option<BatchJobs>)

  const NO_HOUSE := House(None, None, None, None)

  /** Who may do what at a budget: its managers, its requesters, and what it grants on its own. */
  datatype Policy = Policy(
    admins: set<Token>,
    requesters: set<Token>,
    auto: Option<Quota>,
    allowSub: bool,
    allowBeyond: bool,
    autoExtend: bool,
    house: House)

  /** The providers' side of a project: the marks for them, which of them carry it out, and what
      they measured. Their resource ids do not overlap, so one map holds all of it; a resource
      missing from it is not measured. */
  datatype Side = Side(promote: bool, deletion: bool, bound: set<string>, inUse: map<Rid, nat>)

  datatype Node = Node(
    kind: Kind,
    parent: Option<Id>,
    status: Status,
    limit: Quota,
    inherits: bool,
    allocations: seq<Allocation>,
    maxTerm: Option<int>,
    end: Option<Time>,
    pending: Option<Proposal>,
    owner: Token,
    members: set<Member>,
    policy: Policy,
    log: Log,
    side: Side)

  type Store = map<Id, Node>

  /** Whether an auto-approve policy grants from the whole budget. */
  predicate IsPool(auto: Option<Quota>) {
    auto.Some? && auto.value == map[]
  }

  /** How many history entries the node ever had. */
  function Revision(n: Node): nat {
    n.log.dropped + n.log.kept
  }

  function Capped(log: Log): (l: Log)
    ensures l.kept <= MAX_HISTORY && l.dropped + l.kept == log.dropped + log.kept
  {
    if log.kept > MAX_HISTORY then Log(MAX_HISTORY, log.dropped + (log.kept - MAX_HISTORY)) else log
  }

  /** What a store keeps of a written node: the oldest history entries beyond the cap go. */
  function CapHistory(n: Node): Node {
    n.(log := Capped(n.log))
  }

  /** Writing a node: the store caps its history. */
  function Put(s: Store, id: Id, n: Node): Store {
    s[id := CapHistory(n)]
  }

  function More(log: Log, k: nat): Log {
    log.(kept := log.kept + k)
  }

  /** The node with k more history entries. */
  function Logged(n: Node, k: nat): Node {
    n.(log := More(n.log, k))
  }

  /** What a budget is billed for beyond the limits of its active projects. */
  datatype Accounting = Accounting(chargeInUse: bool, chargeReleased: bool, chargeArchived: bool)

  const ALL_OFF := Accounting(false, false, false)

  /** The resource catalogue, split by kind: counts take part in arithmetic, bools are
      availabilities held as 0 or 1. */
  datatype Config = Config(
    counts: seq<Rid>,
    bools: seq<Rid>,
    withdrawn: set<Rid>,
    max: map<Rid, int>,
    onByDefault: set<Rid>,
    area: map<Rid, string>,
    storage: set<Rid>,
    acc: Accounting)
  {
    predicate Valid() {
      forall r :: r in counts ==> r !in bools
    }
  }
}
