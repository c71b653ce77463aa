/** What holds in every reachable state: the invariants hold of a new deployment, every run keeps them, and
    what they promise holds whenever somebody looks. */
module Reachable {
  import opened Model
  import opened Chains
  import opened Charges
  import opened Rules
  import opened Steps
  import opened Reports
  import opened Runs
  import opened Shape
  import opened Values
  import opened Sources
  import opened Locality
  import opened Safety
  import opened Lifetimes
  import opened Terms
  import opened Availabilities
  import opened Bindings
  import opened Holdings
  import opened Nesting

  type Step = (Store, Op) -> bool

  // ── All along a run ─────────────────────────────────────────────────────────

  /** inv holds of every state of the run. */
  ghost predicate Throughout(inv: Store -> bool, s: Store, run: seq<Event>) {
    forall k {:trigger run[..k]} :: 0 <= k <= |run| ==> inv(Final(s, run[..k]))
  }

  /** No event of the run is bad where it happens. */
  ghost predicate Never(bad: (Store, Event) -> bool, s: Store, run: seq<Event>) {
    forall k {:trigger run[k]} :: 0 <= k < |run| ==> !bad(Final(s, run[..k]), run[k])
  }

  /** The event is accepted there. */
  ghost predicate Accepted(s: Store, e: Event) {
    OutcomeOf(e.cfg, s, e.caller, e.op).Ok?
  }

  /** Event k of the run breaks inv, where it held, exactly if it is bad. */
  ghost predicate ExactAt(inv: Store -> bool, bad: (Store, Event) -> bool, s: Store, run: seq<Event>, k: nat)
    requires k < |run|
  {
    inv(Final(s, run[..k])) ==> (inv(Final(s, run[..k + 1])) <==> !bad(Final(s, run[..k]), run[k]))
  }

  /** Where each event breaks inv exactly if it is bad, inv holds all along exactly if none is. */
  lemma ThroughoutExact(inv: Store -> bool, bad: (Store, Event) -> bool, s: Store, run: seq<Event>)
    requires inv(s) && forall k :: 0 <= k < |run| ==> ExactAt(inv, bad, s, run, k)
    ensures Throughout(inv, s, run) <==> Never(bad, s, run)
  {
    assert run[..0] == [];
    if Throughout(inv, s, run) {
      forall k | 0 <= k < |run| ensures !bad(Final(s, run[..k]), run[k]) {
        assert ExactAt(inv, bad, s, run, k) && inv(Final(s, run[..k])) && inv(Final(s, run[..k + 1]));
      }
    }
    if Never(bad, s, run) {
      forall k | 0 <= k <= |run| ensures inv(Final(s, run[..k])) { NeverBroken(inv, bad, s, run, k); }
    }
  }

  lemma {:induction false} NeverBroken(inv: Store -> bool, bad: (Store, Event) -> bool, s: Store, run: seq<Event>,
                                       k: nat)
    requires k <= |run| && inv(s) && Never(bad, s, run)
    requires forall j :: 0 <= j < |run| ==> ExactAt(inv, bad, s, run, j)
    ensures inv(Final(s, run[..k]))
  {
    if k == 0 {
      assert run[..0] == [];
    } else {
      NeverBroken(inv, bad, s, run, k - 1);
      assert ExactAt(inv, bad, s, run, k - 1) && !bad(Final(s, run[..k - 1]), run[k - 1]);
    }
  }

  lemma AtLast(inv: Store -> bool, s: Store, run: seq<Event>)
    requires Throughout(inv, s, run)
    ensures inv(Final(s, run))
  {
    assert run[..|run|] == run;
  }

  /** What is legal of a run is legal of each event of it. */
  lemma {:induction false} LegalAt(cfg: Config, s: Store, run: seq<Event>, step: Step, k: nat)
    requires Legal(cfg, s, run, step) && k < |run|
    ensures Legal(cfg, s, run[..k], step) && SameKinds(cfg, run[k].cfg)
    ensures Enabled(run[k].cfg, Final(s, run[..k]), run[k].op) && step(Final(s, run[..k]), run[k].op)
    ensures Final(s, run[..k + 1]) == Next(run[k].cfg, Final(s, run[..k]), run[k].caller, run[k].op)
  {
    assert run[..k + 1][..k] == run[..k];
    if k < |run| - 1 {
      var before := run[..|run| - 1];
      LegalAt(cfg, s, before, step, k);
      assert before[..k] == run[..k];
    }
  }

  // ── Lifetimes ───────────────────────────────────────────────────────────────

  lemma BootstrapTimely(cfg: Config, admins: set<Token>)
    ensures Timely(Bootstrapped(cfg, admins)) && InLine(Bootstrapped(cfg, admins))
  {
    var s := Bootstrapped(cfg, admins);
    forall id | id in s ensures EndsInTime(s, id) && TermInLine(s, id) {
    }
  }

  lemma {:induction false} TimelyRun(cfg: Config, s: Store, run: seq<Event>, step: Step)
    requires Shaped(s) && Timely(s) && Legal(cfg, s, run, step)
    ensures Timely(Final(s, run))
  {
    if run != [] {
      var e, before := run[|run| - 1], run[..|run| - 1];
      TimelyRun(cfg, s, before, step);
      ShapedRun(cfg, s, before, step);
      TimelyNext(e.cfg, Final(s, before), e.caller, e.op);
    }
  }

  /** In every reachable state no active node outlives any budget above it. */
  lemma NeverOutlives(cfg: Config, admins: set<Token>, run: seq<Event>, step: Step, id: Id, b: Id)
    requires Legal(cfg, Bootstrapped(cfg, admins), run, step)
    requires var s := Final(Bootstrapped(cfg, admins), run);
             id in s && Active(s[id].status) && b in Above(s, s[id])
    ensures var s := Final(Bootstrapped(cfg, admins), run); b in s && Respects(s[id].end, s[b].end)
  {
    BootstrapShaped(cfg, admins);
    BootstrapTimely(cfg, admins);
    ShapedRun(cfg, Bootstrapped(cfg, admins), run, step);
    TimelyRun(cfg, Bootstrapped(cfg, admins), run, step);
    NothingOutlives(Final(Bootstrapped(cfg, admins), run), id, b);
  }

  // ── Allocation sources ──────────────────────────────────────────────────────

  /** Amounts are sane and allocations come from above. */
  ghost predicate Settled(cfg: Config, s: Store) {
    cfg.Valid() && Shaped(s) && Sane(cfg, s) && Sourced(s)
  }

  lemma SettledElsewhere(cfg: Config, other: Config, s: Store)
    requires Settled(cfg, s) && SameKinds(cfg, other)
    ensures Settled(other, s)
  {
    forall id | id in s ensures SaneNode(other, s[id]) { assert SaneNode(cfg, s[id]); }
  }

  lemma BootstrapSettled(cfg: Config, admins: set<Token>)
    requires cfg.Valid()
    ensures Settled(cfg, Bootstrapped(cfg, admins))
  {
    var s := Bootstrapped(cfg, admins);
    BootstrapShaped(cfg, admins);
    forall id | id in s ensures SaneNode(cfg, s[id]) && SourcedNode(Budgets(s), s[id]) {
    }
  }

  lemma {:induction false} SettledRun(cfg: Config, s: Store, run: seq<Event>, step: Step)
    requires Settled(cfg, s) && Legal(cfg, s, run, step)
    ensures Settled(cfg, Final(s, run))
  {
    if run != [] {
      var e, before := run[|run| - 1], run[..|run| - 1];
      SettledRun(cfg, s, before, step);
      var t := Final(s, before);
      SettledElsewhere(cfg, e.cfg, t);
      ShapeNext(e.cfg, t, e.caller, e.op);
      SaneNext(e.cfg, t, e.caller, e.op);
      SourcedNext(e.cfg, t, e.caller, e.op);
      SettledElsewhere(e.cfg, cfg, Final(s, run));
    }
  }

  /** In every reachable state each allocation of a live project comes from a budget strictly above its own,
      and no two from the same. */
  lemma DrawsFromStrictlyAbove(cfg: Config, admins: set<Token>, run: seq<Event>, step: Step, id: Id)
    requires cfg.Valid() && Legal(cfg, Bootstrapped(cfg, admins), run, step)
    requires var s := Final(Bootstrapped(cfg, admins), run); id in s && s[id].kind == Project && Live(s[id].status)
    ensures var s := Final(Bootstrapped(cfg, admins), run);
            && s[id].parent.Some? && Distinct(s[id].allocations)
            && forall a :: a in s[id].allocations ==> a.budget in Above(s, s[id]) && a.budget != s[id].parent.value
  {
    BootstrapSettled(cfg, admins);
    SettledRun(cfg, Bootstrapped(cfg, admins), run, step);
    var s := Final(Bootstrapped(cfg, admins), run);
    assert Hangs(s, s[id]) && SourcedNode(Budgets(s), s[id]);
    forall a | a in s[id].allocations ensures a.budget in Above(s, s[id]) && a.budget != s[id].parent.value {
      assert From(Budgets(s), s[id].parent.value, a);
    }
  }

  // ── Terms ───────────────────────────────────────────────────────────────────

  /** An edit that panics before its term is carried down, above a budget that allows longer. */
  ghost predicate BreaksTerms(s: Store, op: Op) {
    op.OpUpdate? && PanicsEarly(op.update) && SetsTerm(op.update)
    && exists d ::
        d in s && LiveBudget(s[d]) && s[d].parent == Some(op.id) && !Respects(s[d].maxTerm, op.update.maxTerm)
  }

  lemma InLineNextExact(cfg: Config, s: Store, c: Caller, op: Op)
    requires Shaped(s) && InLine(s) && Enabled(cfg, s, op)
    ensures InLine(Next(cfg, s, c, op)) <==> !(OutcomeOf(cfg, s, c, op).Ok? && BreaksTerms(s, op))
  {
    if OutcomeOf(cfg, s, c, op).Ok? {
      if op.OpUpdate? && PanicsEarly(op.update) && SetsTerm(op.update) {
        PanickingUpdateExact(cfg, s, c, op.id, op.update);
      } else {
        InLineNext(cfg, s, c, op);
      }
    }
  }

  ghost function TermBreaker(): (Store, Event) -> bool {
    (t, e) => Accepted(t, e) && BreaksTerms(t, e.op)
  }

  /** A run keeps the caps of budgets in line with those above, all along, exactly if it has no such edit. */
  lemma InLineRunExact(cfg: Config, s: Store, run: seq<Event>, step: Step)
    requires Shaped(s) && InLine(s) && Legal(cfg, s, run, step)
    ensures Throughout(InLine, s, run) <==> Never(TermBreaker(), s, run)
  {
    forall k | 0 <= k < |run| ensures ExactAt(InLine, TermBreaker(), s, run, k) {
      LegalAt(cfg, s, run, step, k);
      ShapedRun(cfg, s, run[..k], step);
      if InLine(Final(s, run[..k])) { InLineNextExact(run[k].cfg, Final(s, run[..k]), run[k].caller, run[k].op); }
    }
    ThroughoutExact(InLine, TermBreaker(), s, run);
  }

  /** A live budget allows no longer a term than any budget above it. */
  lemma {:induction false} NothingEscapes(s: Store, id: Id, b: Id)
    requires Shaped(s) && InLine(s) && id in s && LiveBudget(s[id]) && b in Above(s, s[id])
    ensures b in s && Respects(s[id].maxTerm, s[b].maxTerm)
    decreases |Above(s, s[id])|
  {
    var p := s[id].parent.value;
    ParentInLine(s, id);
    if b != p {
      NothingEscapes(s, p, b);
    }
  }

  lemma ParentInLine(s: Store, id: Id)
    requires Shaped(s) && InLine(s) && id in s && LiveBudget(s[id]) && s[id].parent.Some?
    ensures var p := s[id].parent.value;
            && p in s && LiveBudget(s[p]) && Respects(s[id].maxTerm, s[p].maxTerm)
            && Above(s, s[id]) == [p] + Above(s, s[p])
  {
    assert Hangs(s, s[id]) && TermInLine(s, id);
    var p := s[id].parent.value;
    ChainStep(Budgets(s), p);
    assert Budgets(s)[p] == s[p].parent;
    if s[p].parent.None? { assert [p] + Above(s, s[p]) == [p]; }
  }

  /** In every state that runs without such edits reach a live budget below a capped one is capped, and no
      looser; so the cap and the end that bind below an active budget are its own. */
  lemma NearestCapBinds(cfg: Config, admins: set<Token>, run: seq<Event>, step: Step, id: Id)
    requires Legal(cfg, Bootstrapped(cfg, admins), run, step) && Never(TermBreaker(), Bootstrapped(cfg, admins), run)
    requires var s := Final(Bootstrapped(cfg, admins), run); id in s && LiveBudget(s[id])
    ensures var s := Final(Bootstrapped(cfg, admins), run);
            && (forall b :: b in Above(s, s[id]) ==> b in s && Respects(s[id].maxTerm, s[b].maxTerm))
            && (Active(s[id].status) ==> ChainMaxTerm(s, Chain(Budgets(s), id)) == s[id].maxTerm
                                         && ChainEnd(s, Chain(Budgets(s), id)) == s[id].end)
  {
    var s := Final(Bootstrapped(cfg, admins), run);
    BootstrapShaped(cfg, admins);
    BootstrapTimely(cfg, admins);
    ShapedRun(cfg, Bootstrapped(cfg, admins), run, step);
    TimelyRun(cfg, Bootstrapped(cfg, admins), run, step);
    InLineRunExact(cfg, Bootstrapped(cfg, admins), run, step);
    AtLast(InLine, Bootstrapped(cfg, admins), run);
    forall b | b in Above(s, s[id]) ensures b in s && Respects(s[id].maxTerm, s[b].maxTerm) {
      NothingEscapes(s, id, b);
    }
    if Active(s[id].status) { NearestBinds(s, id); }
  }

  // ── Availabilities ──────────────────────────────────────────────────────────

  lemma OnceElsewhere(cfg: Config, other: Config, s: Store)
    requires Once(cfg, s) && SameKinds(cfg, other)
    ensures Once(other, s)
  {
    forall id | id in s ensures OnceNode(other, s[id]) { assert OnceNode(cfg, s[id]); }
  }

  lemma BootstrapOnce(cfg: Config, admins: set<Token>)
    requires cfg.Valid()
    ensures Once(cfg, Bootstrapped(cfg, admins))
  {
    var s := Bootstrapped(cfg, admins);
    assert |ROOT| != |UNASSIGNED|;
    forall id | id in s ensures OnceNode(cfg, s[id]) {
    }
  }

  /** An accepted allocation doubles what the binding budget grants already. */
  ghost function Doubler(): (Store, Event) -> bool {
    (t, e) => Accepted(t, e) && !SingleSource(e.cfg, t, e.op)
  }

  lemma OnceNextExact(cfg: Config, s: Store, c: Caller, op: Op)
    requires Settled(cfg, s) && Once(cfg, s)
    ensures Once(cfg, Next(cfg, s, c, op)) <==> !(OutcomeOf(cfg, s, c, op).Ok? && !SingleSource(cfg, s, op))
  {
    if OutcomeOf(cfg, s, c, op).Ok? {
      if !SingleSource(cfg, s, op) {
        AllocateFacts(cfg, s, c, op.id, op.budget, op.amount);
        AllocateOnceExact(cfg, s, c, op.id, op.budget, op.amount);
        assert !OnceNode(cfg, Next(cfg, s, c, op)[op.id]);
      } else {
        OnceNext(cfg, s, c, op);
      }
    }
  }

  ghost function OnceIn(cfg: Config): Store -> bool {
    t => Once(cfg, t)
  }

  lemma OnceStep(cfg: Config, t: Store, e: Event)
    requires Settled(cfg, t) && SameKinds(cfg, e.cfg) && Once(cfg, t)
    ensures Once(cfg, Next(e.cfg, t, e.caller, e.op)) <==> !(Accepted(t, e) && !SingleSource(e.cfg, t, e.op))
  {
    var u := Next(e.cfg, t, e.caller, e.op);
    SettledElsewhere(cfg, e.cfg, t);
    OnceElsewhere(cfg, e.cfg, t);
    OnceNextExact(e.cfg, t, e.caller, e.op);
    if Once(e.cfg, u) { OnceElsewhere(e.cfg, cfg, u); }
    if Once(cfg, u) { OnceElsewhere(cfg, e.cfg, u); }
  }

  /** A run keeps every availability of every project at one place, all along, exactly if it has no such
      allocation. */
  lemma OnceRunExact(cfg: Config, s: Store, run: seq<Event>, step: Step)
    requires Settled(cfg, s) && Once(cfg, s) && Legal(cfg, s, run, step)
    ensures Throughout(OnceIn(cfg), s, run) <==> Never(Doubler(), s, run)
  {
    forall k | 0 <= k < |run| ensures ExactAt(OnceIn(cfg), Doubler(), s, run, k) {
      LegalAt(cfg, s, run, step, k);
      SettledRun(cfg, s, run[..k], step);
      if Once(cfg, Final(s, run[..k])) { OnceStep(cfg, Final(s, run[..k]), run[k]); }
    }
    ThroughoutExact(OnceIn(cfg), Doubler(), s, run);
  }

  /** In every state that runs without such allocations reach, a project holds an availability once or not at
      all. */
  lemma HeldOnce(cfg: Config, admins: set<Token>, run: seq<Event>, step: Step, id: Id, r: Rid)
    requires cfg.Valid() && Legal(cfg, Bootstrapped(cfg, admins), run, step) && r in cfg.bools
    requires Never(Doubler(), Bootstrapped(cfg, admins), run)
    requires var s := Final(Bootstrapped(cfg, admins), run);
             id in s && s[id].kind == Project && s[id].status != Imported
    ensures EffectiveLimit(Final(Bootstrapped(cfg, admins), run)[id], r) in {0, 1}
  {
    BootstrapSettled(cfg, admins);
    BootstrapOnce(cfg, admins);
    OnceRunExact(cfg, Bootstrapped(cfg, admins), run, step);
    AtLast(OnceIn(cfg), Bootstrapped(cfg, admins), run);
    EffectivelyOnce(cfg, Final(Bootstrapped(cfg, admins), run), id, r);
  }

  // ── Where no budget inherits ────────────────────────────────────────────────

  /** Nothing makes a budget inherit. */
  predicate NoInheriting(op: Op) {
    && (op.OpCreate? ==> !op.create.inherits)
    && (op.OpUpdate? ==> op.update.inherits != Some(true))
  }

  predicate NoneInherits(s: Store, op: Op) {
    NoInheriting(op)
  }

  ghost predicate AllOwn(s: Store) {
    forall id {:trigger s[id]} :: id in s ==> !s[id].inherits
  }

  lemma OwnPut(s: Store, id: Id, n: Node)
    requires AllOwn(s) && !n.inherits
    ensures AllOwn(Put(s, id, n)) && AllOwn(s[id := n])
  {
  }

  lemma OwnBounds(s: Store, t: Store)
    requires AllOwn(s) && OnlyBounds(s, t)
    ensures AllOwn(t)
  {
    forall id | id in t ensures !t[id].inherits { assert SameButBounds(s[id], t[id]); }
  }

  lemma OwnUpdate(cfg: Config, s: Store, c: Caller, id: Id, req: UpdateRequest)
    requires AllOwn(s) && Update(cfg, s, c, id, req).Ok? && req.inherits != Some(true)
    ensures AllOwn(Update(cfg, s, c, id, req).value)
  {
    UpdateFacts(cfg, s, c, id, req);
    var t := Put(s, id, Edited(s, s[id], Above(s, s[id]), req));
    OnlyBoundsCarriedDown(t, id, req, c.now);
    OwnBounds(t, CarriedDown(t, id, req, c.now));
  }

  lemma OwnApprove(cfg: Config, s: Store, c: Caller, id: Id, req: ApproveRequest)
    requires AllOwn(s) && Approve(cfg, s, c, id, req).Ok?
    ensures AllOwn(Approve(cfg, s, c, id, req).value)
  {
    ApproveFacts(cfg, s, c, id, req);
    var d := Decided(s, s[id], req, c.now);
    OwnPut(s, id, d);
    if s[id].kind == Budget && d.end.Some? {
      OnlyBoundsByCascades(Put(s, id, d), id, d.end.value, 0, c.now);
      OwnBounds(Put(s, id, d), CascadeEnds(Put(s, id, d), id, d.end.value));
    }
  }

  lemma OwnMove(cfg: Config, s: Store, c: Caller, id: Id, target: Id)
    requires AllOwn(s) && Move(cfg, s, c, id, target).Ok?
    ensures AllOwn(Move(cfg, s, c, id, target).value)
  {
    MoveFacts(cfg, s, c, id, target);
    MovedNodeKeeps(s, s[id], target, c.now);
    var t := MoveWritten(s, id, target, c.now);
    OnlyBoundsCarried(t, id, MoveBound(s, s[id], target, c.now), c.now);
    OwnBounds(t, MoveCarried(t, id, MoveBound(s, s[id], target, c.now), c.now));
  }

  lemma OwnPlain(cfg: Config, s: Store, c: Caller, op: Op)
    requires AllOwn(s) && OutcomeOf(cfg, s, c, op).Ok?
    requires op.OpReject? || op.OpRelease? || op.OpTransfer? || op.OpDelete? || op.OpRewrite? || op.OpGrantRoot?
    ensures AllOwn(Next(cfg, s, c, op))
  {
  }

  lemma OwnReport(s: Store, w: Report)
    requires AllOwn(s)
    ensures AllOwn(ApplyReport(s, w))
  {
  }

  lemma OwnNext(cfg: Config, s: Store, c: Caller, op: Op)
    requires AllOwn(s) && NoInheriting(op)
    ensures AllOwn(Next(cfg, s, c, op))
  {
    if OutcomeOf(cfg, s, c, op).Ok? {
      match op
      case OpCreate(id, req) => var n := CreatedNode(cfg, s, c, id, req);
      case OpUpdate(id, req) => OwnUpdate(cfg, s, c, id, req);
      case OpChange(id, req) => var n := ChangedNode(cfg, s, c, id, req);
      case OpApprove(id, req) => OwnApprove(cfg, s, c, id, req);
      case OpMove(id, target) => OwnMove(cfg, s, c, id, target);
      case OpPromote(id, req) => PromoteFacts(cfg, s, c, id, req);
      case OpAllocate(id, b, q) => AllocateFacts(cfg, s, c, id, b, q);
      case OpReport(w) => OwnReport(s, w);
      case OpReject(_) => OwnPlain(cfg, s, c, op);
      case OpRelease(_, _, _) => OwnPlain(cfg, s, c, op);
      case OpTransfer(_, _) => OwnPlain(cfg, s, c, op);
      case OpDelete(_) => OwnPlain(cfg, s, c, op);
      case OpRewrite(_) => OwnPlain(cfg, s, c, op);
      case OpGrantRoot(_) => OwnPlain(cfg, s, c, op);
    }
  }

  /** An accepted allocation comes from a budget. */
  lemma AllocatesFromBudget(cfg: Config, s: Store, c: Caller, id: Id, b: Id, amount: Quota)
    requires Shaped(s) && Allocate(cfg, s, c, id, b, amount).Ok?
    ensures b in Budgets(s)
  {
    AllocateFacts(cfg, s, c, id, b, amount);
    ChainIn(Budgets(s), b, s[id].parent.value);
  }

  lemma OnceNextOwn(cfg: Config, s: Store, c: Caller, op: Op)
    requires Settled(cfg, s) && Once(cfg, s) && AllOwn(s)
    ensures Once(cfg, Next(cfg, s, c, op))
  {
    if OutcomeOf(cfg, s, c, op).Ok? {
      if op.OpAllocate? {
        AllocatesFromBudget(cfg, s, c, op.id, op.budget, op.amount);
        assert Rooted(Budgets(s), op.budget);
        if op.id in s { OwnLimitDrawsOnce(cfg, s, s[op.id], op.budget, NonZero(op.amount)); }
      }
      OnceNext(cfg, s, c, op);
    }
  }

  lemma {:induction false} OnceRunOwn(cfg: Config, s: Store, run: seq<Event>)
    requires Settled(cfg, s) && Once(cfg, s) && AllOwn(s) && Legal(cfg, s, run, NoneInherits)
    ensures Once(cfg, Final(s, run)) && AllOwn(Final(s, run))
  {
    if run != [] {
      var e, before := run[|run| - 1], run[..|run| - 1];
      OnceRunOwn(cfg, s, before);
      SettledRun(cfg, s, before, NoneInherits);
      var t := Final(s, before);
      SettledElsewhere(cfg, e.cfg, t);
      OnceElsewhere(cfg, e.cfg, t);
      OnceNextOwn(e.cfg, t, e.caller, e.op);
      OwnNext(e.cfg, t, e.caller, e.op);
      OnceElsewhere(e.cfg, cfg, Final(s, run));
    }
  }

  /** Where nothing makes a budget inherit, no allocation doubles anything: a project holds an availability once or
      not at all. */
  lemma HeldOnceOwn(cfg: Config, admins: set<Token>, run: seq<Event>, id: Id, r: Rid)
    requires cfg.Valid() && Legal(cfg, Bootstrapped(cfg, admins), run, NoneInherits) && r in cfg.bools
    requires var s := Final(Bootstrapped(cfg, admins), run);
             id in s && s[id].kind == Project && s[id].status != Imported
    ensures EffectiveLimit(Final(Bootstrapped(cfg, admins), run)[id], r) in {0, 1}
  {
    BootstrapSettled(cfg, admins);
    BootstrapOnce(cfg, admins);
    OnceRunOwn(cfg, Bootstrapped(cfg, admins), run);
    EffectivelyOnce(cfg, Final(Bootstrapped(cfg, admins), run), id, r);
  }

  // ── Holders and limits ──────────────────────────────────────────────────────

  lemma BootstrapBacked(cfg: Config, admins: set<Token>)
    requires cfg.Valid()
    ensures Backed(cfg, Bootstrapped(cfg, admins)) && Nested(cfg, Bootstrapped(cfg, admins))
  {
    var s := Bootstrapped(cfg, admins);
    assert |ROOT| != |UNASSIGNED|;
    BootstrapShaped(cfg, admins);
    BindStep(s, ROOT);
    assert Binder(s, ROOT) == Some(ROOT);
    forall id | id in s ensures BackedNode(cfg, s, s[id]) && NestedNode(cfg, s, s[id]) {
    }
  }

  lemma BackedElsewhere(cfg: Config, other: Config, s: Store)
    requires SameKinds(cfg, other)
    ensures Backed(cfg, s) <==> Backed(other, s)
    ensures Nested(cfg, s) <==> Nested(other, s)
  {
    forall id | id in s
      ensures BackedNode(cfg, s, s[id]) <==> BackedNode(other, s, s[id])
      ensures NestedNode(cfg, s, s[id]) <==> NestedNode(other, s, s[id])
    {
    }
  }

  /** An accepted request takes an availability from below somebody. */
  ghost function Lapser(): (Store, Event) -> bool {
    (t, e) => Accepted(t, e) && Lapses(e.cfg, t, e.op)
  }

  /** An accepted request sets a limit that a budget below exceeds. */
  ghost function Outgrower(): (Store, Event) -> bool {
    (t, e) => Accepted(t, e) && Outgrown(e.cfg, t, e.op)
  }

  ghost function BackedIn(cfg: Config): Store -> bool {
    t => Backed(cfg, t)
  }

  ghost function NestedIn(cfg: Config): Store -> bool {
    t => Nested(cfg, t)
  }

  lemma BackedStep(cfg: Config, t: Store, e: Event)
    requires Settled(cfg, t) && SameKinds(cfg, e.cfg) && Enabled(e.cfg, t, e.op)
    ensures var u := Next(e.cfg, t, e.caller, e.op);
            && (Backed(cfg, t) ==> (Backed(cfg, u) <==> !Lapser()(t, e)))
            && (Nested(cfg, t) ==> (Nested(cfg, u) <==> !Outgrower()(t, e)))
  {
    SettledElsewhere(cfg, e.cfg, t);
    BackedElsewhere(cfg, e.cfg, t);
    BackedElsewhere(cfg, e.cfg, Next(e.cfg, t, e.caller, e.op));
    ShapeNext(e.cfg, t, e.caller, e.op);
    SourcedNext(e.cfg, t, e.caller, e.op);
    if Accepted(t, e) {
      if Backed(cfg, t) { BackedNextExact(e.cfg, t, e.caller, e.op); }
      if Nested(cfg, t) { NestedNextExact(e.cfg, t, e.caller, e.op); }
    }
  }

  /** A run leaves everybody who holds an availability with budgets that hold it, all along, exactly if none of
      its accepted requests lapses. */
  lemma BackedRunExact(cfg: Config, s: Store, run: seq<Event>, step: Step)
    requires Settled(cfg, s) && Backed(cfg, s) && Legal(cfg, s, run, step)
    ensures Throughout(BackedIn(cfg), s, run) <==> Never(Lapser(), s, run)
  {
    forall k | 0 <= k < |run| ensures ExactAt(BackedIn(cfg), Lapser(), s, run, k) {
      LegalAt(cfg, s, run, step, k);
      SettledRun(cfg, s, run[..k], step);
      BackedStep(cfg, Final(s, run[..k]), run[k]);
    }
    ThroughoutExact(BackedIn(cfg), Lapser(), s, run);
  }

  /** A run keeps every budget within the one that binds above it, all along, exactly if none of its accepted
      requests sets a limit that a budget below exceeds. */
  lemma NestedRunExact(cfg: Config, s: Store, run: seq<Event>, step: Step)
    requires Settled(cfg, s) && Nested(cfg, s) && Legal(cfg, s, run, step)
    ensures Throughout(NestedIn(cfg), s, run) <==> Never(Outgrower(), s, run)
  {
    forall k | 0 <= k < |run| ensures ExactAt(NestedIn(cfg), Outgrower(), s, run, k) {
      LegalAt(cfg, s, run, step, k);
      SettledRun(cfg, s, run[..k], step);
      BackedStep(cfg, Final(s, run[..k]), run[k]);
    }
    ThroughoutExact(NestedIn(cfg), Outgrower(), s, run);
  }

  /** A node that is granted availability r has it from budgets that hold it. */
  ghost predicate HoldsFromHolders(s: Store, n: Node, r: Rid)
    requires n.parent.Some?
  {
    && (HasLimit(n) && Q(n.limit, r) == 1 ==> Provides(s, n.parent.value, r, n.kind == Project))
    && (n.kind == Project ==> forall a :: a in n.allocations && Q(a.limit, r) == 1 ==> Provides(s, a.budget, r, true))
  }

  lemma BackedFromHolders(cfg: Config, s: Store, id: Id, r: Rid)
    requires Backed(cfg, s) && r in cfg.bools && id in s && Active(s[id].status) && s[id].parent.Some?
    ensures HoldsFromHolders(s, s[id], r)
  {
    assert BackedNode(cfg, s, s[id]);
  }

  /** In every state that runs without such requests reach: an active node that is granted an availability hangs
      where a budget holding it binds - a project also where the root does - and what a project draws comes from
      where a holder binds. */
  lemma HeldBelowHolders(cfg: Config, admins: set<Token>, run: seq<Event>, step: Step, id: Id, r: Rid)
    requires cfg.Valid() && Legal(cfg, Bootstrapped(cfg, admins), run, step) && r in cfg.bools
    requires Never(Lapser(), Bootstrapped(cfg, admins), run)
    requires var s := Final(Bootstrapped(cfg, admins), run); id in s && Active(s[id].status) && s[id].parent.Some?
    ensures var s := Final(Bootstrapped(cfg, admins), run); HoldsFromHolders(s, s[id], r)
  {
    BootstrapSettled(cfg, admins);
    BootstrapBacked(cfg, admins);
    BackedRunExact(cfg, Bootstrapped(cfg, admins), run, step);
    AtLast(BackedIn(cfg), Bootstrapped(cfg, admins), run);
    BackedFromHolders(cfg, Final(Bootstrapped(cfg, admins), run), id, r);
  }

  /** In every state that runs without such requests reach, an active budget with a limit of its own is within the
      limit that binds above it. */
  lemma WithinAbove(cfg: Config, admins: set<Token>, run: seq<Event>, step: Step, id: Id)
    requires cfg.Valid() && Legal(cfg, Bootstrapped(cfg, admins), run, step)
    requires Never(Outgrower(), Bootstrapped(cfg, admins), run)
    requires var s := Final(Bootstrapped(cfg, admins), run);
             id in s && s[id].kind == Budget && Active(s[id].status) && !s[id].inherits && s[id].parent.Some?
    ensures var s := Final(Bootstrapped(cfg, admins), run); FitsUnder(cfg, s, s[id].parent.value, s[id].limit)
  {
    BootstrapSettled(cfg, admins);
    BootstrapBacked(cfg, admins);
    NestedRunExact(cfg, Bootstrapped(cfg, admins), run, step);
    AtLast(NestedIn(cfg), Bootstrapped(cfg, admins), run);
    assert NestedNode(cfg, Final(Bootstrapped(cfg, admins), run), Final(Bootstrapped(cfg, admins), run)[id]);
  }
}
