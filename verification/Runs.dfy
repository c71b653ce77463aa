/** Runs of the tree service: sequences of operations, reports and rewrites from a bootstrapped
    store. */
module Runs {
  import opened Model
  import opened Chains
  import opened Charges
  import opened Rules
  import opened Steps
  import opened Reports

  datatype Op =
    | OpCreate(id: Id, create: CreateRequest)
    | OpUpdate(id: Id, update: UpdateRequest)
    | OpChange(id: Id, change: ChangeRequest)
    | OpApprove(id: Id, approve: ApproveRequest)
    | OpReject(id: Id)
    | OpRelease(id: Id, delete: bool, deletable: bool)
    | OpDelete(id: Id)
    | OpMove(id: Id, target: Id)
    | OpTransfer(id: Id, owner: Token)
    | OpPromote(id: Id, promote: PromoteRequest)
    | OpAllocate(id: Id, budget: Id, amount: Quota)
    | OpRewrite(rewrite: Rewrite)
    | OpGrantRoot(r: Rid)
    | OpReport(report: Report)

  /** What an operation makes of a store; a refused one changes nothing. */
  ghost function OutcomeOf(cfg: Config, s: Store, c: Caller, op: Op): Outcome {
    match op
    case OpCreate(id, req) => Create(cfg, s, c, id, req)
    case OpUpdate(id, req) => Update(cfg, s, c, id, req)
    case OpChange(id, req) => RequestChange(cfg, s, c, id, req)
    case OpApprove(id, req) => Approve(cfg, s, c, id, req)
    case OpReject(id) => Reject(s, c, id)
    case OpRelease(id, delete, deletable) => Release(s, c, id, delete, deletable)
    case OpDelete(id) => Delete(s, c, id)
    case OpMove(id, target) => Move(cfg, s, c, id, target)
    case OpTransfer(id, owner) => Transfer(s, c, id, owner)
    case OpPromote(id, req) => Promote(cfg, s, c, id, req)
    case OpAllocate(id, b, amount) => Allocate(cfg, s, c, id, b, amount)
    case OpRewrite(w) => Ok(RewriteAll(s, w))
    case OpGrantRoot(r) => Ok(AdoptAvailability(s, r))
    case OpReport(w) => Ok(ApplyReport(s, w))
  }

  ghost function Next(cfg: Config, s: Store, c: Caller, op: Op): Store {
    var o := OutcomeOf(cfg, s, c, op);
    if o.Ok? then o.value else s
  }

  /** New nodes get identifiers nothing else has, and only availabilities leave the catalogue. */
  predicate Enabled(cfg: Config, s: Store, op: Op) {
    && (op.OpCreate? ==> op.id !in s)
    && (op.OpRewrite? ==> op.rewrite.r in cfg.bools)
    && (op.OpGrantRoot? ==> op.r in cfg.bools)
    && (op.OpReport? ==> ReportEnabled(s, op.report))
  }

  // The operations in groups, so that what they keep is proved group by group.

  predicate Asks(op: Op) {
    op.OpCreate? || op.OpUpdate? || op.OpChange?
  }

  predicate Decides(op: Op) {
    op.OpApprove? || op.OpReject? || op.OpRelease? || op.OpDelete?
  }

  predicate Moves(op: Op) {
    op.OpMove? || op.OpTransfer?
  }

  predicate Draws(op: Op) {
    op.OpPromote? || op.OpAllocate?
  }
}
