# The budget tree, verified

This project models the budget tree of the management service and proves what it is built to promise. A tree of
budgets (inner nodes) and projects (leaves) is worked on by people - creating, asking for changes, approving,
rejecting, releasing, moving, allocating, editing, deleting - and by providers that report what they measured and
archived beside them. Around it stand the catalogue of availabilities root admins withdraw and remove, the policies
that hold along a chain of budgets, the inbox, the reconcile pass of the AI service and the usage report.

How it is laid out:

- `Model`, `Chains`, `Charges`, `Rules`, `Steps`, `Reports`, `Runs`: the data, the chain of budgets above a node, what
  a project costs whom, the rules, and one function per operation that says what it makes of a store (`Next`).
- `Nodes`, `Rollup`, `Inheritance`, `Cascades`, `TreeChecks`, `TreeService`: the service itself - the stored nodes, the
  usage rollup, the checks and the operations as classes with their loops - each method proved against the functions
  above. `Assurance` ties the two together.
- `Shape`, `Values`, `Sources`, `Locality`, `Capacity`, `CapacityTree`, `Safety`, `Lifetimes`, `Terms`,
  `Availabilities`, `Holdings`, `Nesting`, `Shares`: one invariant each, kept by every step, or by every step but the
  requests named, and exactly then; `Bindings` is which budget's limit binds where. `Reachable` takes them from a new
  deployment through every run.
- `Interleaving`: the same steps with reading, checking and writing apart and lock-free writers in between. `Turns`
  takes the invariants through runs of those.
- `Revisions`, `Shown`, `Statuses`, `Proposals`, `Listings`, `Policies`, `Ancestors`, `Catalogue`, `CatalogueAdmin`,
  `Reconcile`, `UsageReport`: what was shown is what is approved, how statuses run, the inbox, policies along a chain,
  the catalogue, the AI service, the books.
- `Waiting`, `Cases`, `Edges`: requests on small trees that show where a promise does not hold.

The methods of the service ask for a store that is shaped, sane and billed in amounts 64 bits hold. The first two hold
of every reachable store (`Shape.ShapeNext`, `Values.SaneNext`), the third wherever the accounting switches are off
(`Assurance.BilledWhenOff`).

Stores are maps from ids to nodes; a missing amount reads as 0 and -1 is unlimited. 64-bit sums are modelled with
their range and saturation. Ends and timestamps are integers. Reasons, names, attributes and the texts of histories
are not modelled; a history is how many entries it holds and how many were dropped. Who is asking, the clock and new
ids come in as parameters.

## Model

| member | source | states |
|---|---|---|
| Safety.CapacitySafety | internal/core/tree/rule_limits.go:116-146 | Safety over every run with the accounting switches off that allocates to active projects only: after every create, change, approval, rejection, release, move, allocation, edit, withdrawal, deletion, report and rewrite, in any order and by any callers, every budget with a limit of its own hands out no more of any quantity than that limit, counting what its active projects hold and what they draw from it or below it. |
| Safety.NoBudgetOverrun | internal/core/tree/rule_limits.go:392-446 | The same said of a new deployment: from the bootstrapped store on, no legal run ends with a budget charged beyond its limit. |
| Safety.SafeNext | internal/core/tree/op_lifecycle.go:23-294 | One step of any kind keeps the whole invariant: tree shape, sane amounts, allocation sources, no draws by waiting requests, and every limit. |
| CapacityTree.BoundedMove | internal/core/tree/op_move.go:47-87 | An accepted move of a project or a whole budget overruns no budget, neither those gained above nor those left: what the subtree is charged on its way up is what was checked at the target. |
| Capacity.BoundedDirect | internal/core/tree/op_lifecycle.go:868-891 | A change applied without a manager overruns no budget, mixed grow-and-shrink changes included: each quantity is given back or fits. |
| Capacity.FloorIsExact | internal/core/tree/rule_limits.go:401-418 | A new budget limit that passes the check of what is in use is no less than what the budget is charged in exact arithmetic. |
| Interleaving.InterleavedSafety | internal/core/tree/service.go:58-63 | The same safety where the lock holder reads, checks and writes in separate steps and provider observations, archivings, removals, imports, adoptions, attribute edits and deletion marks come between them in any number and order. |
| Interleaving.WriteBackDrifts | internal/core/tree/sync_provider.go:83-282 | What an operation writes back over the store as it is by then differs from what it would have written at once only by what lock-free writers may change, or it is refused; no active project's charge changes between check and write. |
| Interleaving.DriftUsage | internal/core/tree/service.go:58-63 | With the switches off no lock-free write, in any number, changes what any budget is charged: every way into or out of the charged statuses holds the lock. |
| Interleaving.TurnsShaped | internal/core/tree/op_attributes.go:143-148 | In every interleaved run, without further hypotheses, the tree stays a tree. |
| Assurance.Serve | internal/core/tree/service.go:58-63 | The service as written, called any sequence of operations with reports in between, ends exactly in the state of the abstract run, and within every limit. |
| Assurance.Perform | internal/core/tree/op_lifecycle.go:23-294 | Each call does what the step says and nothing else: accepted, the store is the next one; refused, it is as it was and the error is the step's. |
| Assurance.NeatNext | internal/core/model/model.go:575-580 | No step leaves a history longer than the store keeps. |
| Assurance.BootstrapSecure | internal/core/tree/service.go:58-63 | A new deployment meets what every call of the service asks for. |
| Turns.SoundInTurns | internal/core/tree/service.go:58-63 | With reading, checking and writing apart and lock-free writers in between: as long as no turn makes one of the requests that break them, ends and caps are in line, an availability comes from one place and from holders, and no budget exceeds the one above. |
| Turns.NeverOutlivesInTurns | internal/core/tree/rule_terms.go:31-67 | And without any hypothesis: no active node outlives a budget above it, and a live project draws only from budgets strictly above its own. |
| Turns.DriftSound | internal/core/tree/sync_provider.go:83-282 | No lock-free write breaks any of that. |
| Rollup.BuildRolledUpUsage | internal/core/tree/calc_rollup.go:174-213 | The charge loop yields for every tracked budget and status the saturated sum, project by project, of the own cost where the project is below it and of each allocation whose source is it or below it; the unguarded climb ends at the root. |
| Rollup.RollupRefines | internal/core/tree/calc_rollup.go:45-75 | Summed over the statuses, the rollup of the listed projects is, saturated once, the exact sum over the store of what each charged project under the tracked budgets costs the budget, however many projects there are and in whatever order they are listed. |
| Rollup.StatusesSaturate | internal/core/tree/calc_rollup.go:369-374 | Saturating per status and again over the statuses equals saturating the exact sum once, for non-negative costs. |
| Rollup.AddIntsExact | internal/core/tree/calc_rollup.go:360-366 | 64-bit addition reports an overflow exactly when the unbounded sum leaves the range, and is exact otherwise. |
| Rollup.LeafCost | internal/core/tree/calc_rollup.go:260-265 | What a project is billed: archived storage as measured, otherwise its limit, or its measured use beyond what its allocations cover where in-use charging is on; and whether its allocations count. |
| Rollup.TotalOf | internal/core/model/model.go:343-359 | The per-status usage summed with saturation. |
| TreeChecks.Checks.BuildSubtreeParentMap | internal/core/tree/calc_rollup.go:17-43 | The level-by-level search finds exactly the budgets at or below the roots, each with its parent. |
| TreeChecks.Checks.LoadSubtreeUsage | internal/core/tree/calc_rollup.go:51-75 | For every budget of the searched subtrees: the saturated exact sum of what the projects under them cost it. |
| TreeChecks.Checks.CheckCapacity | internal/core/tree/rule_limits.go:116-146 | Accepts exactly if every budget of the chain with a limit of its own has room for the addition once the subtraction is given back. |
| Locality.UsageIsLocal | internal/core/tree/calc_rollup.go:45-75 | Whatever the accounting switches: where charged projects draw only from budgets above them, a budget's usage computed over its own subtree is its usage computed over the whole tree, so limit edits and capacity checks agree. |
| Locality.UsageIsLocalExact | internal/core/tree/rule_limits.go:407-418 | And the two agree on a budget exactly if no charged project from elsewhere draws from it or below it. |
| Locality.RoomIsExact | internal/core/tree/rule_limits.go:130-143 | A capacity check passed in saturating 64-bit arithmetic holds in unbounded arithmetic. |
| Locality.RoomIsComplete | internal/core/tree/calc_rollup.go:346-399 | And a budget with finite limits that has room in unbounded arithmetic passes: no refusal is the fault of saturation. |
| Waiting.ApproveExact | internal/core/tree/op_lifecycle.go:958-965 | An accepted approval of a waiting project keeps every budget within its limit if and only if there was room for its limit together with the allocations it drew while waiting; the approval itself looks at the limit alone. |
| Waiting.TeamOverrun | internal/core/tree/op_allocations.go:54-74 | Two accepted operations after which a team of ten cores carries fifteen: an allocation to a waiting project, and its approval. |
| Waiting.WaitingDrawsFree | internal/core/tree/calc_rollup.go:243-252 | Allocations of a waiting project are charged to nobody. |
| Shape.ShapeNext | internal/core/tree/op_move.go:36-45 | Every step keeps one rooted acyclic tree: the root the only parentless node, no dangling parent, every node under an active budget; moves under their cycle guard and deletions of whole subtrees included. |
| Chains.CycleGuardNeeded | internal/core/tree/op_move.go:36-45 | Without the guard the tree is lost: a budget moved below itself has no chain to the root. |
| Chains.MoveBudget | internal/core/tree/op_move.go:89-136 | After a move below the guard, what is above a budget is exactly what was above it up to the moved one and then what is above the target. |
| TreeChecks.Checks.NodeChain | internal/core/tree/rule_authz.go:13-33 | In a tree the walk ends at the root and returns the chain with the nodes as stored; its cycle guard never strikes there. |
| Statuses.DeletedAreDecided | internal/core/tree/op_retire.go:165-223 | A deletion removes exactly the descendant closure, and of what still waits, is imported or is an approved project at most the deleted budget itself. |
| TreeService.Service.DeleteNode | internal/core/tree/op_retire.go:165-223 | Deletes the closure or refuses with the reason and changes nothing. |
| Reachable.NeverOutlives | internal/core/tree/rule_terms.go:31-67 | In every reachable state an approved or change-pending node below a budget that ends has an end, no later than that of any budget above it. |
| Lifetimes.TimelyNext | internal/core/tree/op_lifecycle.go:159-191 | Every step keeps that: ends are fitted on creation, direct change and promotion, cut on approval and move, and carried down by edits. |
| Reachable.InLineRunExact | internal/core/tree/op_lifecycle.go:616-632 | A run keeps the cap of every live budget in line with the one above, all along, if and only if it has no accepted edit that panics before carrying its term down above a budget that allows longer. |
| Reachable.NearestCapBinds | internal/core/tree/rule_terms.go:69-140 | In every state that runs without such edits reach a live budget below a capped one is capped, no looser than any above, and the cap and end folded over the chain of an active budget are its own. |
| Reachable.InLineNextExact | internal/core/tree/rule_terms.go:184-230 | A step keeps the caps in line, through creations, edits, moves and cascades, if and only if it is no such edit. |
| Terms.PanickingUpdateExact | internal/core/tree/op_lifecycle.go:616-632 | An accepted edit that panics before carrying its term down keeps the caps in line if and only if no live budget right below allows longer than the term it sets. |
| Cases.LongerTermBelow | internal/core/tree/op_lifecycle.go:538-543 | Such an edit: end cleared and set, term set to ten days, and the budget below keeps a hundred. |
| Terms.EndsIdempotent | internal/core/tree/rule_terms.go:150-182 | A second cascade of ends changes nothing. |
| Terms.TermsIdempotent | internal/core/tree/rule_terms.go:184-217 | Neither does a second cascade of terms on the same day. |
| Terms.EndsReachAll | internal/core/tree/rule_terms.go:232-259 | A cascade of ends reaches every live node below, changes nothing else, only shortens and raises the revision of what it changes by one. |
| Terms.TermsReachAll | internal/core/tree/rule_terms.go:184-230 | A cascade of terms reaches every live node below, budgets are capped and projects end within the term; nothing else is changed, nothing lengthened. |
| TreeService.Service.ShortenSubtreeEnds | internal/core/tree/rule_terms.go:155-182 | The walk over stored nodes, level by level, changes every live descendant once and nothing else. |
| TreeService.Service.ShortenSubtreeTerms | internal/core/tree/rule_terms.go:189-217 | The same for terms: live budgets below are capped, live projects cut. |
| Reachable.DrawsFromStrictlyAbove | internal/core/tree/op_allocations.go:62-74 | In every reachable state each allocation of a live project comes from a strict ancestor of its own budget, at most one per source. |
| Sources.SourcedNext | internal/core/tree/op_allocations.go:266-303 | Every step keeps it: allocation edits, moves of the project or of any budget above it, promotions and subtree deletions. |
| TreeChecks.Checks.CheckAllocationsAfterMove | internal/core/tree/op_allocations.go:266-303 | Accepts exactly if every non-terminal project that moves would still draw from above itself. |
| Reachable.OnceRunExact | internal/core/tree/op_allocations.go:215-259 | A run keeps every availability of every project at one place, all along, if and only if no accepted allocation doubles what the binding budget grants already. |
| Reachable.HeldOnce | internal/core/model/model.go:190-208 | In every state that runs without such allocations reach a project that is no import holds an availability in total 0 or 1 times. |
| Reachable.HeldOnceOwn | internal/core/model/model.go:190-208 | Where nothing makes a budget inherit no allocation does: whatever else is done, a project holds an availability 0 or 1 times. |
| Reachable.OnceNextExact | internal/core/tree/op_allocations.go:215-259 | A step keeps every availability at one place if and only if it is no such allocation. |
| Availabilities.AllocateOnceExact | internal/core/tree/op_allocations.go:233-243 | An accepted allocation leaves each availability at one place if and only if the binding budget above an inheriting source does not grant it already. |
| Availabilities.NetworkTwice | internal/core/tree/op_allocations.go:215-228 | Such an allocation: a project with one network twice. |
| Holdings.BackedNextExact | internal/core/tree/rule_limits.go:25-101 | An accepted step of any kind leaves everybody who holds an availability with a budget that binds there and holds it if and only if it is neither an edit that stops inheriting with a limit that does not grant what is reached or drawn through the budget, nor a move of an inheriting budget to where what is reached or drawn through it is not provided. |
| Holdings.BackedUpdateExact | internal/core/tree/op_lifecycle.go:594-612 | Of edits it is exactly those that stop inheriting and whose limit withholds something active nodes reach through the budget or draw from it. |
| Holdings.BackedMoveExact | internal/core/tree/op_move.go:141-170 | Of moves exactly those of an inheriting budget through which somebody has an availability that the budget binding at the target does not hold, direct projects included. |
| Reachable.BackedRunExact | internal/core/tree/rule_limits.go:337-384 | A run keeps everybody backed, all along, if and only if it has no such request. |
| Reachable.HeldBelowHolders | internal/core/tree/rule_limits.go:25-101 | In every state that runs without such requests reach, inheriting budgets included: an active node that is granted an availability hangs where the budget that binds holds it (a project also where that is the root), and what a live project draws comes from where a holder binds. |
| Nesting.NestedNextExact | internal/core/tree/rule_limits.go:333-353 | An accepted step of any kind leaves every active budget with a limit of its own within the limit that binds above it if and only if it does not set a limit, by an edit or by the approval of a change, that a budget bound through it exceeds. |
| Nesting.NestedUpdateExact | internal/core/tree/op_lifecycle.go:594-612 | An accepted edit keeps it if and only if the budget inherits afterwards or every budget bound through it fits the limit it then has. |
| Nesting.NestedApproveExact | internal/core/tree/op_lifecycle.go:958-975 | An accepted approval keeps it if and only if it grants no change of a limit that a budget bound through it exceeds. |
| Reachable.NestedRunExact | internal/core/tree/rule_limits.go:333-353 | A run keeps every budget within the one that binds above it, all along, if and only if it has no such request. |
| Reachable.WithinAbove | internal/core/tree/rule_limits.go:333-353 | In every state that runs without such requests reach an active budget with a limit of its own is within the limit that binds above it, in every resource. |
| Bindings.BindOnward | internal/core/tree/rule_limits.go:324-331 | Which budget binds after one budget was written otherwise or moved: where that one is reached over inheriting budgets, what binds at it; anywhere else what bound before. |
| TreeChecks.Checks.DescendantsHolding | internal/core/tree/rule_limits.go:54-101 | Finds exactly the availabilities some descendant holds by its limit or by an allocation from the subtree. |
| TreeChecks.Checks.CheckBudgetLimit | internal/core/tree/rule_limits.go:392-420 | Accepts exactly if the limit is valid, fits the budget that binds above and, where it is in force, withdraws nothing still held and is no less than what is in use. |
| TreeChecks.Checks.CheckLeafLimit | internal/core/tree/rule_limits.go:430-446 | Accepts exactly if the limit is valid, held by the binding budget, clear of the allocations and, where committed, has room. |
| Shares.NeverBeyondShare | internal/core/tree/rule_autoapprove.go:28-54 | With in-use charging off, in every run in which no manager creates, approves, moves in or hands over a project right under the budget or edits its share: what any requester's projects there are charged never exceeds the share, changes that grow and shrink at once included. |
| Shares.SharedNext | internal/core/tree/calc_rollup.go:215-236 | One such step keeps every requester within the share. |
| Shares.SharedAtFirst | internal/core/tree/rule_autoapprove.go:11-18 | A budget nothing hangs under yet starts with every requester within its share. |
| Shares.SharedByDirect | internal/core/tree/op_lifecycle.go:868-891 | A change applied on the spot keeps its owner within the share: a pure shrink, or one the policy would grant as a new request. |
| Shares.DefaultsIdempotent | internal/core/tree/rule_limits.go:286-322 | Filling in default availabilities twice is filling them in once. |
| Shares.DefaultsAccepted | internal/core/tree/rule_limits.go:367-384 | The check of a new project's limit accepts it with the defaults filled in if and only if it accepts it without. |
| Shares.DefaultsKeepNamed | internal/core/tree/rule_limits.go:286-322 | What a request names, an explicit 0 included, is left as asked. |
| Shares.ForgottenShare | internal/core/model/model.go:157-161 | A rewrite turns a per-requester share into a whole-budget pool if and only if it forgets the one resource the share names. |
| TreeChecks.Checks.OwnerActiveUsage | internal/core/tree/calc_rollup.go:218-236 | Sums exactly what the owner's charged projects directly under the budget cost it. |
| TreeChecks.Checks.CheckAutoApprovable | internal/core/tree/rule_autoapprove.go:32-54 | Grants exactly if the policy is on, the budget approved, the owner stays within the share and every budget above has room. |
| TreeChecks.Checks.WithDefaultAvailabilities | internal/core/tree/rule_limits.go:286-322 | Computes the limit with the defaults the lemmas above are about. |
| Revisions.ApprovesWhatWasSeen | internal/core/tree/op_lifecycle.go:917-1002 | Whatever happened in between, catalogue rewrites and import adoption apart: an accepted approval naming the revision of a state somebody was shown, without a modified limit, grants exactly the limit and members shown there, and the end shown or the earlier one of the budgets above. |
| Revisions.RevisionRun | internal/core/model/model.go:563-580 | In every such run the revision never falls, and equal revisions mean the same limit, proposal, end and members. |
| Revisions.RevisionNext | internal/core/tree/op_lifecycle.go:1014-1023 | Every such step either raises a node's revision or leaves everything a decision is made on. |
| Revisions.OperationRaises | internal/core/model/model.go:563-580 | Every accepted operation strictly raises the revision of the node it is about, capped histories included. |
| Shown.ApprovesWhatWasShown | internal/core/tree/op_lifecycle.go:917-1002 | In every run of interleaved turns in which the catalogue leaves the node alone: an approval naming the revision of a state shown between two turns, refused neither at the check nor at the write, grants the limit and members shown there, and the end shown or the earlier one of the budgets above, whatever was done and noted in between. |
| Shown.ApprovesWhatWasShownAside | internal/core/tree/op_lifecycle.go:917-1002 | The same of a state shown while a turn is on, unless that turn writes a copy of the node over at least as many notes, made since it was read, as it adds entries. |
| Shown.CopyRaisesExact | internal/core/tree/op_attributes.go:143-148 | A copy written back has a higher revision than what was shown at any point since the read if and only if fewer notes were made on the node until then than the operation adds entries; the difference is exactly that. |
| Shown.EntriesAdded | internal/core/model/model.go:563-580 | How many that is: one for an edit, an amended or kept request, an allocation and a promotion, two for a change that takes effect at once, one to three for a move. |
| Shown.TurnOnward | internal/core/model/model.go:563-580 | Any other turn in which the catalogue leaves the node alone takes it from whatever it was during the turn to a higher revision or to the same state. |
| Shown.StepShowsExact | internal/core/tree/op_lifecycle.go:1014-1023 | In one step the revision rises or everything a decision is made on stays, if and only if the step is no rewrite of the catalogue that alters the node. |
| Shown.StaleCopy | internal/core/tree/op_lifecycle.go:746-774 | A request for five cores is shown at revision 2 while its change to ten is under way: the copy written over the note has revision 2 as well, and whoever approves revision 2 grants ten. |
| Statuses.NeverAgain | internal/core/tree/service.go:206-218 | In every run a rejected node stays rejected, a released one released or archived, an archived one archived. |
| Statuses.NeverAgainInterleaved | internal/core/tree/sync_provider.go:106-116 | The same with lock-free writers between reading, checking and writing, over any run of turns. |
| Proposals.RejectionRestores | internal/core/tree/op_lifecycle.go:1036-1089 | However often changes were proposed, amended or rejected and whatever else was done and reported, as long as nothing was applied to the node, it was not edited or moved and no end was carried down to it: the rejection leaves limit, members, end and status as last approved. |
| Proposals.ApprovedStays | internal/core/tree/op_lifecycle.go:776-840 | All through such a run what was approved stays beside the proposals. |
| Statuses.RootUndecided | internal/core/tree/rule_authz.go:54-57 | A root that asked for a change can be decided on by nobody. |
| Statuses.SomebodyAbove | internal/core/tree/rule_authz.go:46-68 | Where the root has managers, some token has approval authority over a node if and only if it is not the root. |
| Statuses.DecidableExact | internal/core/tree/op_lifecycle.go:1036-1060 | So what waits can be decided by somebody if and only if it is not the root. |
| Statuses.RootWaits | internal/core/tree/op_lifecycle.go:656-665 | So it waits through every step, and meanwhile nothing is created right under it. |
| Cases.RootAsks | internal/core/tree/op_lifecycle.go:639-846 | The request itself is accepted: the root waits from then on. |
| Cases.PendingDeleted | internal/core/tree/op_retire.go:165-223 | A request for a budget is deleted without anybody having decided on it. |
| Listings.Inbox.UndelegatedBudgetIds | internal/core/tree/rule_authz.go:91-130 | The search returns exactly the budgets whose nearest ancestor-or-self with managers names the caller. |
| Listings.Inbox.ListToManage | internal/core/tree/op_query.go:180-235 | Lists exactly what waits under those budgets or, with the subtree, under any budget the caller manages. |
| Listings.ListedMayBeApproved | internal/core/tree/rule_authz.go:46-68 | Every request in the direct inbox is one the caller may approve. |
| Listings.SomebodyDecides | internal/core/tree/rule_authz.go:91-98 | Where the root has managers every budget is in some token's own inbox. |
| Listings.OneDesk | internal/core/tree/rule_authz.go:91-98 | Two callers who answer for the same budget are named at the same place above it. |
| Policies.InAnyOrder | internal/core/model/release.go:113-120 | Each fold along a chain depends on the budgets in it alone, not on their order or repetition. |
| Policies.ResolveReleaseMax | internal/core/model/release.go:114-120 | The greatest lower bound, field by field, of what the chain sets: absent loosest, 0 hours next. |
| Policies.ResolveScratch | internal/core/model/scratch.go:25-31 | The greatest lower bound of the storages set. |
| Policies.ResolveBatchPriority | internal/core/model/batch_priority.go:29-35 | The greatest lower bound of the priorities set: preemptible below guaranteed. |
| Policies.ResolveBatchJobs | internal/core/model/batch_jobs.go:33-50 | The greatest lower bound over the budgets that do not inherit, off absorbing; off where there is none. |
| Policies.ValidateReleaseMax | internal/core/model/release.go:135-171 | Accepts exactly the values in bounds each of which is what then applies below. |
| Policies.ReleaseApplies | internal/core/model/release.go:103-120 | What a budget adds to a chain is what applies then, and what it does not set comes from above. |
| Policies.ScratchApplies | internal/core/model/scratch.go:34-45 | A storage is accepted exactly if it is in bounds and is what then applies below. |
| Policies.BatchPriorityApplies | internal/core/model/batch_priority.go:38-49 | A priority is accepted exactly if it is known and is what then applies below. |
| Policies.BatchJobsApply | internal/core/model/batch_jobs.go:53-74 | Batch jobs are accepted below the root exactly if they are in bounds, some are allowed above, and they are what then applies below. |
| Policies.StopsInheriting | internal/core/tree/op_lifecycle.go:597-604 | A budget that stops inheriting and keeps the batch jobs it passed on changes nothing below. |
| Policies.StrictestTightens | internal/core/model/release.go:7-7 | What is added to a chain only tightens what applies. |
| Ancestors.Decorator.WalkAncestors | internal/core/tree/calc_decorate.go:214-248 | In trees of up to 64 levels the level-by-level walk learns, for every start, the whole chain with its stored policies. |
| Ancestors.Decorator.Decorate | internal/core/tree/calc_decorate.go:55-96 | Every listed node is shown exactly the fold of the budgets above it: strictest release times, storage and priority, and the batch jobs. |
| Ancestors.Resolve | internal/core/tree/op_lifecycle.go:171-186 | The same fold, computed chain by chain as the operations do. |
| Ancestors.ShownIsEnforced | internal/core/tree/calc_decorate.go:98-145 | The two implementations give the same values. |
| Catalogue.WithdrawalLeavesNone | internal/core/tree/op_catalog.go:74-82 | After a withdrawal every stored amount of the availability is 0 and nobody holds it, the root included. |
| Catalogue.RewriteIdempotent | internal/core/tree/op_catalog.go:163-211 | Repeating a withdrawal or a removal touches no node. |
| Catalogue.RemovalLeavesNoKey | internal/core/tree/op_catalog.go:88-96 | After a removal the id is a key of no amount anywhere. |
| Catalogue.OthersKept | internal/core/tree/op_catalog.go:163-220 | Of everything else every project holds what it held, allocations that go because nothing is left in them included. |
| Catalogue.UnheldNextExact | internal/core/tree/op_lifecycle.go:958-975 | An accepted step grants an availability that is withdrawn and unheld if and only if it approves an inheriting budget with a modified limit of it, has the root adopt it, or imports or refreshes an import with it. |
| Catalogue.WithdrawnForGood | internal/core/tree/op_catalog.go:71-82 | Once withdrawn everywhere, an availability stays unheld all along a run in which it stays withdrawn, requests from before included, if and only if the run has no such step. |
| Cases.WithdrawnGranted | internal/core/tree/op_lifecycle.go:958-975 | One of those: an inheriting budget approved with a modified limit gets an availability nobody is to get. |
| Cases.ShareForgotten | internal/core/model/model.go:157-161 | A share that names the network alone is accepted, and once the network is withdrawn and removed it is a pool of the whole budget. |
| CatalogueAdmin.Admin.Withdraw | internal/provider/openstack/catalog/admin.go:145-152 | State first, then the tree: afterwards the entry is withdrawn and nobody holds it; a second withdrawal changes no node; it fails only before anything is changed. |
| CatalogueAdmin.Admin.Add | internal/provider/openstack/catalog/admin.go:121-135 | Only what is not in use is added, and the root alone is granted it; refused, nothing is changed. |
| CatalogueAdmin.Admin.Restore | internal/provider/openstack/catalog/admin.go:156-162 | The entry is offered again and the root alone is granted it. |
| CatalogueAdmin.Admin.Remove | internal/provider/openstack/catalog/admin.go:168-203 | Reached only from withdrawn with no holder and no grant left at the cloud; then no amount has the id and the entry is removed. Where storing that fails, the amounts are gone and the entry stays withdrawn. |
| CatalogueAdmin.Holders | internal/core/tree/op_catalog.go:37-69 | Lists exactly who but the root holds it, and by what. |
| CatalogueAdmin.Entries.SetState | internal/provider/openstack/catalog/catalog.go:276-292 | Moves an entry between the states allowed and leaves the others; stored and published entries stay the same. |
| CatalogueAdmin.Entries.Write | internal/provider/openstack/catalog/catalog.go:296-313 | Stores and publishes together, or neither: the published catalogue is always one the service could have started with. |
| CatalogueAdmin.Entries.Add | internal/provider/openstack/catalog/catalog.go:232-255 | Only a new id or a removed one is added, and no quantity's. |
| Reconcile.Syncer.Pass | internal/provider/aiaas/sync.go:81-184 | Whichever calls fail: afterwards exactly the projects are there, and exactly the reports made on the leaves, that the rules say leaf by leaf, and the counts of deletions are those of the projects gone. |
| Reconcile.ExactlyTheLeaves | internal/provider/aiaas/sync.go:72-80 | Where no call fails there is a project for exactly the listed leaves not due for deletion. |
| Reconcile.SecondPassIdle | internal/provider/aiaas/sync.go:72-80 | And a second pass at the same time deletes nothing and changes neither the projects there nor the tree. |
| Reconcile.CatchesUp | internal/provider/aiaas/sync.go:156-164 | Whatever calls failed: a later pass without failures leaves the projects and the tree as one such pass would have done alone. |
| Reconcile.FailureDeletesNothing | internal/provider/aiaas/sync.go:156-164 | No failed call costs a project that is to stay. |
| Reconcile.EndOf | internal/provider/aiaas/sync.go:187-209 | The last day: the end, or for a retired leaf the day before its last release where that is sooner. |
| Reconcile.NotBeforeTheEnd | internal/provider/aiaas/sync.go:212-221 | Nothing is due before its last day and its grace are over. |
| UsageReport.BuildReport | internal/core/usage/report.go:186-260 | The days and the projects both sum to the total, which is that of all rows, and count every row once; each day and each project with its attributes occurs once and is the sum of its own rows, a project named as on its last day. |
| UsageReport.PeriodsAddUp | internal/core/usage/report.go:148-159 | Reports over adjoining periods add up to the report over both. |
| Edges.ParentLowered | internal/core/tree/rule_limits.go:333-353 | A budget is lowered to five cores while the one below it keeps eight. |
| Edges.ParentApprovedLower | internal/core/tree/op_lifecycle.go:958-975 | The same by the approval of a change request. |
| Edges.LenderLeftBehind | internal/core/tree/op_allocations.go:266-303 | With released projects charged, a budget moves away from the budget its released project draws from: the move is accepted, the source is still charged five cores, its own subtree shows none, and its limit may be lowered to nothing. |
| Edges.StoppedInheriting | internal/core/tree/op_lifecycle.go:594-612 | A budget stops inheriting with a limit of nothing while its project keeps an availability. |
| Edges.InheritingMoved | internal/core/tree/op_move.go:141-170 | An inheriting budget moves to where an availability is not held while its project keeps it. |
| Values.SaneNext | internal/core/tree/rule_limits.go:149-210 | Every step keeps amounts sane: what active and retired projects hold and draw lies between 0 and the largest amount, what budgets allow between unlimited and it. |
| Assurance.BilledWhenOff | internal/core/tree/calc_rollup.go:243-329 | With the switches off what is billed is within the amounts the rollup is proved for. |
| TreeChecks.Checks.ManagesNode | internal/core/tree/rule_authz.go:38-44 | True exactly if the caller is named at the node or at a budget above it. |
| TreeChecks.Checks.ManagesParentChain | internal/core/tree/rule_authz.go:50-68 | True exactly if the caller is named at a budget strictly above. |
| TreeChecks.Checks.ChainEndOf | internal/core/tree/rule_terms.go:34-50 | The earliest end along the chain, none where nothing ends. |
| TreeChecks.Checks.ChainMaxTermOf | internal/core/tree/rule_terms.go:71-79 | The shortest term along the chain. |
| TreeChecks.Checks.BindingOf | internal/core/tree/rule_limits.go:324-331 | The nearest budget with a limit of its own. |
| TreeChecks.Checks.CheckAvailabilityWithdrawal | internal/core/tree/rule_limits.go:25-50 | Accepts exactly if nothing the budget gives up is still held below it. |
| TreeChecks.Checks.CheckFloor | internal/core/tree/rule_limits.go:401-418 | Accepts exactly if the limit is no less than the saturated usage of the subtree. |
| TreeChecks.Checks.CheckShare | internal/core/tree/rule_autoapprove.go:36-47 | Accepts exactly if the owner stays within the share in checked 64-bit arithmetic. |
| TreeChecks.Checks.LoadTarget | internal/core/tree/rule_limits.go:452-482 | Accepts exactly an approved budget, not the collection of imports, that the caller manages together with what is above the node. |
| Rollup.Charge | internal/core/tree/calc_rollup.go:184-199 | Charges every tracked budget from the start of the climb up to the root once, and no other. |
| Rollup.QuotaAddChecked | internal/core/tree/calc_rollup.go:346-357 | Adds amount by amount, and fails exactly if some sum leaves 64 bits. |
| Rollup.Shortfall | internal/core/tree/calc_rollup.go:380-387 | Names a resource that does not fit exactly if there is one. |
| Ancestors.Decorator.ChainAbove | internal/core/tree/calc_decorate.go:173-187 | Above a fully loaded budget it returns the chain; its cycle guard never strikes there. |
| Ancestors.Decorator.Inherited | internal/core/tree/calc_decorate.go:99-145 | The fold of what the budgets above a node set, read off what the walk learnt. |
| Reconcile.Syncer.SyncLeaf | internal/provider/aiaas/sync.go:110-170 | One leaf: its project there, the report on it and the counts are those its state and the failures call for. |
| Reconcile.Syncer.CarryLeaf | internal/provider/aiaas/sync.go:144-170 | A leaf that is not due is carried out with its days, a retired one ended the day before. |
| Reconcile.Syncer.ListLeaves | internal/core/tree/sync_provider.go:51-73 | Exactly the active and retired projects the provider carries out or that hold something of it. |
| UsageReport.GroupRows | internal/core/usage/report.go:191-220 | Every row joins its day and its project; every group holds exactly its rows, with the last name, the last active day and the backfilled days. |
| TreeService.Service.GrantRoot | internal/core/tree/op_catalog.go:143-157 | The root, and nobody else, is granted the availability. |
| TreeService.Service.CreateNode | internal/core/tree/op_lifecycle.go:23-294 | Creates the node with the fitted end, term, defaults and status the rules give, or refuses with the reason and changes nothing. |
| TreeService.Service.UpdateNode | internal/core/tree/op_lifecycle.go:376-632 | Edits, writes and carries down; tells exactly when a request that clears and sets the end, or the term, is written and then panics, before or after the end was carried down. |
| TreeService.Service.RequestChangeOf | internal/core/tree/op_lifecycle.go:639-846 | Amends, applies or keeps the proposal as the decision says, or refuses. |
| TreeService.Service.LeafChangeDecision | internal/core/tree/op_lifecycle.go:868-891 | Direct, waiting or beyond the policy, part by part. |
| TreeService.Service.ApproveNode | internal/core/tree/op_lifecycle.go:897-1012 | Grants the final limit with the end cut to the bound and carried down, or refuses on status, rights, revision or capacity. |
| TreeService.Service.RejectNode | internal/core/tree/op_lifecycle.go:1036-1089 | Rejects a request, restores an approved node, or refuses. |
| TreeService.Service.ReleaseNode | internal/core/tree/op_retire.go:17-67 | Releases an approved project, marked for deletion where asked. |
| TreeService.Service.ReparentNode | internal/core/tree/op_move.go:18-138 | Moves under the cycle guard, capacity and allocation checks, and carries ends and terms down. |
| TreeService.Service.TransferOwner | internal/core/tree/op_move.go:174-227 | Hands a project over, and nothing else. |
| TreeService.Service.PromoteNode | internal/core/tree/op_move.go:242-314 | Takes an import under a budget that has room, as a request to be adopted. |
| TreeService.Service.SetAllocation | internal/core/tree/op_allocations.go:39-163 | Sets what a project draws from one budget above, or refuses; other allocations keep. |
| TreeService.Service.RewriteEverything | internal/core/tree/op_catalog.go:163-211 | Rewrites every stored amount; counts nothing exactly where nothing is stored of it. |
| TreeService.Service.Record | internal/core/tree/sync_provider.go:83-282 | Each report changes the stored node as it is then, or removes it where it may. |
| TreeChecks.Checks.CheckInheritingMove | internal/core/tree/op_move.go:141-170 | Checks exactly the budgets with limits of their own right below those that inherited through the moved one. |
| TreeChecks.Checks.LoadLive | internal/core/tree/service.go:206-218 | Loads a node that is there, not imported and not past changing, or says why not. |
| Nodes.NodeStore.UpsertNode | internal/core/nodestore/memory.go:102-115 | Replaces the stored node by the copy given, its history capped, or adds it. |
| Nodes.NodeStore.UpdateNode | internal/core/nodestore/memory.go:117-138 | Changes the node as it is stored now, or leaves it; atomic where UpsertNode writes a copy. |
| Nodes.NodeStore.DeleteNodeIf | internal/core/nodestore/memory.go:140-155 | Deletes exactly if the stored node satisfies the predicate. |
| Nodes.NodeStore.ListNodes | internal/core/nodestore/memory.go:75-87 | Lists exactly the matching nodes, each once. |

## Findings

Where the code does not do what its comments say, the model follows the code. The members named prove it.

- Allocations of a waiting project are charged to nobody, and its approval makes room for its limit only. A team of
  ten cores can carry fifteen (`Waiting.TeamOverrun`); when it goes wrong is `Waiting.ApproveExact`.
- An edit that both clears and sets the end is stored and then panics before its term is carried down, so a budget
  below can allow longer than the one above (`Cases.LongerTermBelow`, `Terms.PanickingUpdateExact`). One that both
  clears and sets the term panics after the end was carried down (`TreeService.Service.UpdateNode`).
- The check of an allocation looks past the budget that binds instead of the one that allocates. Where the allocating
  budget inherits, a project can hold one availability twice (`Availabilities.NetworkTwice`,
  `Availabilities.AllocateOnceExact`).
- A deletion looks at the status of everything below the budget, not at the budget's own: a request for a budget can
  be deleted undecided (`Cases.PendingDeleted`, `Statuses.DeletedAreDecided`).
- A revision only ever grows in one step (`Revisions.RevisionRun`), not where a copy is written back: an operation
  that read a node before somebody noted something on it drops the note, and its own entry takes the same number. An
  approval can then grant what nobody was shown (`Shown.StaleCopy`). When it goes wrong is `Shown.CopyRaisesExact`;
  everywhere else what was shown is what is granted (`Shown.ApprovesWhatWasShown`,
  `Shown.ApprovesWhatWasShownAside`).
- A change request on the root is accepted and can be decided by nobody; until then nothing is created right under
  the root (`Cases.RootAsks`, `Statuses.RootWaits`). Where the root has managers it is the
  one node of which that is true (`Statuses.DecidableExact`).
- An inheriting budget that waits is approved with whatever modified limit a manager names, unchecked: an availability
  that was withdrawn comes back (`Cases.WithdrawnGranted`). It is the one operation of people that does
  (`Catalogue.UnheldNextExact`, `Catalogue.WithdrawnForGood`).
- That a child's limit never exceeds its parent's is checked on every edge and does not hold: a parent can be lowered
  below its child, by an edit (`Edges.ParentLowered`) or by a change that is approved (`Edges.ParentApprovedLower`),
  because only what is used counts then. When is `Nesting.NestedNextExact`, over runs `Reachable.NestedRunExact`.
- Switching inheritance off with a limit of its own skips the check of what is withdrawn (`Edges.StoppedInheriting`),
  and moving an inheriting budget looks at the budgets below it, not at its direct projects (`Edges.InheritingMoved`).
  When somebody is left with an availability that is not held above is `Holdings.BackedNextExact`, over runs
  `Reachable.BackedRunExact`.
- Forgetting a resource turns a per-requester share that names nothing else into a pool of the whole budget
  (`Cases.ShareForgotten`, `Shares.ForgottenShare`).
- Usage computed over a budget's own subtree and over the whole tree differ where a charged project from elsewhere
  draws from below it (`Locality.UsageIsLocalExact`). With the switches off no reachable store has one
  (`Reachable.DrawsFromStrictlyAbove`). With released projects charged the check of allocations after a move passes
  over them, and a limit may then be lowered below what it is charged (`Edges.LenderLeftBehind`).
- The branch of `ReparentNode` for released and archived nodes is never reached: loading the node refuses them first
  (`TreeChecks.Checks.LoadLive`).

## Left out

- CapacitySafety: needs the three accounting switches off and allocations made to active projects only. With in-use
  charging, lowering an allocation moves charge to the project's own budget unchecked; with archived projects charged
  a report raises the charge; and an allocation made while a project waits is the first finding above.
- SafeNext: the same two conditions.
- NoBudgetOverrun: the same two conditions.
- InterleavedSafety: the same two conditions; within a turn the checks see one store and a cascade is one step, so
  reports come after the read and after the checks, not between two checks or two nodes of a cascade.
- Serve: the same two conditions, and one catalogue all through the run.
- SharedNext: the same conditions as NeverBeyondShare.
- SharedByDirect: in-use charging off.
- BoundedMove: the switches off; with them on what the moved subtree is charged can change by a report alone.
- BoundedDirect: the switches off.
- FloorIsExact: the switches off.
- DriftUsage: the switches off; with them on a report changes what is charged.
- RoomIsExact: the switches off.
- RoomIsComplete: the switches off.
- ApproveExact: the switches off.
- WaitingDrawsFree: the switches off.
- Perform: asks for amounts a 64-bit int holds, which is proved with the switches off (BilledWhenOff).
- NearestCapBinds: runs without the edits that break it, which InLineRunExact shows to be exactly those to leave out.
- HeldOnce: runs without the allocations that break it, which OnceRunExact shows to be exactly those to leave out.
- HeldBelowHolders: runs without the requests that break it, exactly those by BackedRunExact.
- WithinAbove: runs without the requests that break it, exactly those by NestedRunExact.
- SoundInTurns: turns without the requests that break it; that such a turn does break it is stated for the step alone.
- NeverBeyondShare: in-use charging off; where archived projects are charged, no reports, which can raise what they
  cost; no grant by a manager right under the budget.
- RevisionRun: one operation after the other, and without rewrites of the catalogue; Shown has them apart.
- RevisionNext: one operation, no rewrite of the catalogue; StepShowsExact has the rest.
- OperationRaises: one operation; CopyRaisesExact says when a copy raises what is stored by then.
- ApprovesWhatWasSeen: one operation after the other, and without rewrites of the catalogue; ApprovesWhatWasShown is
  the interleaved form, in which the catalogue leaves the node alone.
- TotalOf: non-negative amounts, as the usage of every sane store is.
- CheckShare: the owner's total is summed unbounded before the 64-bit check.
- DescendantsHolding: for which availabilities it lists anybody, not whom it names.
- CreateNode: release times, storage, batch priority and batch jobs, and the count of an owner's projects.
- UpdateNode: the same fields.
- Withdraw: the rewrite of the tree is taken never to fail; so are the grants at the root in Add and Restore and the
  rewrite in Remove.
- Add: the grant at the root is taken never to fail.
- Restore: the grant at the root is taken never to fail.
- Remove: the rewrite of the tree is taken never to fail.
- Pass: listing the leaves and recording on them are taken never to fail; only the calls to the service do.
- OwnerActiveUsage: sums in unbounded integers where the source adds 64-bit ones; an overflow takes nine thousand
  million projects of one owner.
- Decorate: trees of at most 64 levels, beyond which the walk stops.
- Edits of release times, storage, batch priority and batch jobs are not steps of the runs: their folds and checks are
  modelled, the fields are not changed by the modelled operations.
- GPU class renames, and the adoption of classes new to the catalogue.
- Ceilings on members and on projects per owner, reasons, names, group existence, attributes and who may see them.
- How an availability is presented, and what the status of one shows.
- Order, pages and search of listings; the order in which maps give up their keys, which nothing proved depends on.
- Timestamps that do not read as dates.
- Which provider deletes on request: it comes in as a parameter of the release.
- What a project is told at the AI service besides its days; utilisation and prices in the usage report, and rounding.
- HTTP, tokens, roles, the database and the cloud clients.
