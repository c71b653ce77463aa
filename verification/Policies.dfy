/** What holds for the workspaces and jobs below a chain of budgets: the strictest value any of them sets,
    field by field (release.go, scratch.go, batch_priority.go and batch_jobs.go in internal/core/model). */
module Policies {
  import opened Model

  // ── Orders ──────────────────────────────────────────────────────────────────

  // v is no looser than cap; what is not set is loosest.

  predicate AmountWithin(v: Option<int>, cap: Option<int>) {
    cap.None? || (v.Some? && v.value <= cap.value)
  }

  /** 0 hours is no bound, looser than every other. */
  predicate HoursWithin(v: Option<int>, cap: Option<int>) {
    cap.None? || (v.Some? && (cap.value == 0 || (v.value != 0 && v.value <= cap.value)))
  }

  const PREEMPTIBLE := "preemptible"
  const GUARANTEED := "guaranteed"

  predicate PriorityKnown(v: Option<string>) {
    v.None? || v.value == PREEMPTIBLE || v.value == GUARANTEED
  }

  predicate PriorityWithin(v: Option<string>, cap: Option<string>) {
    cap.None? || (v.Some? && (v == cap || v.value == PREEMPTIBLE))
  }

  predicate TimesWithin(v: ReleaseTimes, cap: ReleaseTimes) {
    && AmountWithin(v.idleOpen, cap.idleOpen)
    && AmountWithin(v.idleClosed, cap.idleClosed)
    && HoursWithin(v.maxHours, cap.maxHours)
  }

  predicate ReleaseWithin(v: Option<ReleaseMax>, cap: Option<ReleaseMax>) {
    TimesWithin(OfKind(v, false), OfKind(cap, false)) && TimesWithin(OfKind(v, true), OfKind(cap, true))
  }

  /** No jobs at all is strictest. */
  predicate JobsWithin(v: Option<BatchJobs>, cap: Option<BatchJobs>) {
    v.None? || (cap.Some? && v.value.perPerson <= cap.value.perPerson && v.value.maxHours <= cap.value.maxHours)
  }

  // ── The stricter of two ─────────────────────────────────────────────────────

  function StricterAmount(a: Option<int>, b: Option<int>): Option<int> {
    if a.None? then b else if b.None? || a.value <= b.value then a else b
  }

  function StricterHours(a: Option<int>, b: Option<int>): Option<int> {
    if a.None? then b
    else if b.None? then a
    else if a.value == 0 then b
    else if b.value == 0 || a.value <= b.value then a
    else b
  }

  function StricterPriority(a: Option<string>, b: Option<string>): Option<string> {
    if a.None? then b else if b.None? || a.value == PREEMPTIBLE then a else b
  }

  const NO_TIMES := ReleaseTimes(None, None, None)

  predicate SetsNothing(r: Option<ReleaseMax>) {
    r.None? || (r.value.cpu == NO_TIMES && r.value.gpu == NO_TIMES)
  }

  function Normalized(r: Option<ReleaseMax>): Option<ReleaseMax> {
    if SetsNothing(r) then None else r
  }

  function OfKind(r: Option<ReleaseMax>, gpu: bool): ReleaseTimes {
    if r.None? then NO_TIMES else if gpu then r.value.gpu else r.value.cpu
  }

  function StricterTimes(a: ReleaseTimes, b: ReleaseTimes): ReleaseTimes {
    ReleaseTimes(StricterAmount(a.idleOpen, b.idleOpen), StricterAmount(a.idleClosed, b.idleClosed),
                 StricterHours(a.maxHours, b.maxHours))
  }

  function StricterRelease(a: Option<ReleaseMax>, b: Option<ReleaseMax>): Option<ReleaseMax> {
    if SetsNothing(a) then Normalized(b)
    else if SetsNothing(b) then Normalized(a)
    else Some(ReleaseMax(StricterTimes(a.value.cpu, b.value.cpu), StricterTimes(a.value.gpu, b.value.gpu)))
  }

  function StricterJobs(a: Option<BatchJobs>, b: Option<BatchJobs>): Option<BatchJobs> {
    if a.None? || b.None? then None
    else Some(BatchJobs(if a.value.perPerson <= b.value.perPerson then a.value.perPerson else b.value.perPerson,
                        if a.value.maxHours <= b.value.maxHours then a.value.maxHours else b.value.maxHours))
  }

  // ── Strictest along a chain ─────────────────────────────────────────────────

  /** out is the greatest lower bound of the values: within every one of them, and whatever else is within
      every one of them is within out. */
  ghost predicate Strictest<T(!new)>(within: (T, T) -> bool, out: T, values: seq<T>) {
    && (forall v :: v in values ==> within(out, v))
    && (forall y :: Within(within, y, values) ==> within(y, out))
  }

  ghost predicate Within<T>(within: (T, T) -> bool, y: T, values: seq<T>) {
    forall v :: v in values ==> within(y, v)
  }

  /** An order in which m is the stricter of two values a and b. */
  ghost predicate Meets<T(!new)>(within: (T, T) -> bool, m: T, a: T, b: T) {
    && within(m, a) && within(m, b)
    && (forall y :: within(y, a) && within(y, b) ==> within(y, m))
  }

  /** The strictest so far and one more value. */
  lemma StrictestStep<T(!new)>(within: (T, T) -> bool, out: T, values: seq<T>, b: T, m: T)
    requires forall x, y, z :: within(x, y) && within(y, z) ==> within(x, z)
    requires Strictest(within, out, values) && Meets(within, m, out, b)
    ensures Strictest(within, m, values + [b])
  {
    forall y | Within(within, y, values + [b]) ensures within(y, m) {
      assert Within(within, y, values) by {
        forall v | v in values ensures within(y, v) { assert v in values + [b]; }
      }
      assert b in values + [b];
    }
  }

  /** The strictest value does not depend on the order of the chain, nor on how often a value is in it. */
  lemma StrictestUnique<T(!new)>(within: (T, T) -> bool, a: T, xs: seq<T>, b: T, ys: seq<T>)
    requires forall v :: v in xs <==> v in ys
    requires Strictest(within, a, xs) && Strictest(within, b, ys)
    ensures within(a, b) && within(b, a)
  {
    assert Within(within, a, ys) && Within(within, b, xs);
  }

  /** What is added to a chain only tightens what applies. */
  lemma StrictestTightens<T(!new)>(within: (T, T) -> bool, a: T, xs: seq<T>, b: T, ys: seq<T>)
    requires forall v :: v in xs ==> v in ys
    requires Strictest(within, a, xs) && Strictest(within, b, ys)
    ensures within(b, a)
  {
    assert Within(within, b, xs);
  }

  /** A value is within what applies above exactly if it is what then applies. */
  lemma StrictestOwn<T(!new)>(within: (T, T) -> bool, own: T, above: T, values: seq<T>)
    requires forall x, y, z :: within(x, y) && within(y, z) ==> within(x, z)
    requires within(own, own) && Strictest(within, above, values)
    ensures within(own, above) <==> Strictest(within, own, values + [own])
  {
    if within(own, above) {
      assert Meets(within, own, above, own);
      StrictestStep(within, above, values, own, own);
    }
    if Strictest(within, own, values + [own]) {
      forall v | v in values ensures within(own, v) { assert v in values + [own]; }
      assert Within(within, own, values);
    }
  }

  // ── The orders are orders ───────────────────────────────────────────────────

  lemma AmountOrder()
    ensures forall x, y, z :: AmountWithin(x, y) && AmountWithin(y, z) ==> AmountWithin(x, z)
    ensures forall x, y :: AmountWithin(x, y) && AmountWithin(y, x) ==> x == y
    ensures forall a, b :: Meets(AmountWithin, StricterAmount(a, b), a, b)
  {
  }

  lemma HoursOrder()
    ensures forall x, y, z :: HoursWithin(x, y) && HoursWithin(y, z) ==> HoursWithin(x, z)
    ensures forall x, y :: HoursWithin(x, y) && HoursWithin(y, x) ==> x == y
    ensures forall a, b :: Meets(HoursWithin, StricterHours(a, b), a, b)
  {
  }

  lemma PriorityOrder()
    ensures forall x, y, z :: PriorityWithin(x, y) && PriorityWithin(y, z) ==> PriorityWithin(x, z)
    ensures forall x, y :: PriorityWithin(x, y) && PriorityWithin(y, x) ==> x == y
    ensures forall a, b :: PriorityKnown(a) && PriorityKnown(b) ==> Meets(PriorityWithin, StricterPriority(a, b), a, b)
  {
  }

  lemma JobsOrder()
    ensures forall x, y, z :: JobsWithin(x, y) && JobsWithin(y, z) ==> JobsWithin(x, z)
    ensures forall x, y :: JobsWithin(x, y) && JobsWithin(y, x) ==> x == y
    ensures forall a, b :: Meets(JobsWithin, StricterJobs(a, b), a, b)
  {
  }

  lemma TimesOrder(a: ReleaseTimes, b: ReleaseTimes)
    ensures Meets(TimesWithin, StricterTimes(a, b), a, b)
    ensures TimesWithin(a, b) && TimesWithin(b, a) ==> a == b
    ensures TimesWithin(a, NO_TIMES)
  {
    AmountOrder();
    HoursOrder();
  }

  lemma ReleaseMeets(a: Option<ReleaseMax>, b: Option<ReleaseMax>)
    ensures Meets(ReleaseWithin, StricterRelease(a, b), a, b)
    ensures Normalized(StricterRelease(a, b)) == StricterRelease(a, b)
    ensures ReleaseWithin(a, b) && ReleaseWithin(b, a) ==> Normalized(a) == Normalized(b)
  {
    TimesOrder(OfKind(a, false), OfKind(b, false));
    TimesOrder(OfKind(a, true), OfKind(b, true));
    var m := StricterRelease(a, b);
    assert OfKind(m, false) == StricterTimes(OfKind(a, false), OfKind(b, false));
    assert OfKind(m, true) == StricterTimes(OfKind(a, true), OfKind(b, true));
  }

  lemma ReleaseOrder()
    ensures forall x, y, z :: ReleaseWithin(x, y) && ReleaseWithin(y, z) ==> ReleaseWithin(x, z)
    ensures forall y :: ReleaseWithin(y, None)
  {
    HoursOrder();
  }

  // ── What applies below a chain of budgets ───────────────────────────────────

  ghost function Scratches(chain: seq<Node>): seq<Option<int>> {
    seq(|chain|, i requires 0 <= i < |chain| => chain[i].policy.house.scratch)
  }

  ghost function Priorities(chain: seq<Node>): seq<Option<string>> {
    seq(|chain|, i requires 0 <= i < |chain| => chain[i].policy.house.priority)
  }

  ghost function Releases(chain: seq<Node>): seq<Option<ReleaseMax>> {
    seq(|chain|, i requires 0 <= i < |chain| => chain[i].policy.house.release)
  }

  /** The least storage any budget of the chain sets. */
  method ResolveScratch(chain: seq<Node>) returns (out: Option<int>)
    ensures Strictest(AmountWithin, out, Scratches(chain))
  {
    out := None;
    assert Scratches(chain[..0]) == [];
    for i := 0 to |chain|
      invariant Strictest(AmountWithin, out, Scratches(chain[..i]))
    {
      var own := chain[i].policy.house.scratch;
      AmountOrder();
      StrictestStep(AmountWithin, out, Scratches(chain[..i]), own, StricterAmount(out, own));
      assert Scratches(chain[..i + 1]) == Scratches(chain[..i]) + [own];
      out := StricterAmount(out, own);
    }
    assert chain[..|chain|] == chain;
  }

  /** Preemptible where any budget of the chain says so. */
  method ResolveBatchPriority(chain: seq<Node>) returns (out: Option<string>)
    requires forall n :: n in chain ==> PriorityKnown(n.policy.house.priority)
    ensures PriorityKnown(out) && Strictest(PriorityWithin, out, Priorities(chain))
  {
    out := None;
    assert Priorities(chain[..0]) == [];
    for i := 0 to |chain|
      invariant PriorityKnown(out) && Strictest(PriorityWithin, out, Priorities(chain[..i]))
    {
      var own := chain[i].policy.house.priority;
      PriorityOrder();
      StrictestStep(PriorityWithin, out, Priorities(chain[..i]), own, StricterPriority(out, own));
      assert Priorities(chain[..i + 1]) == Priorities(chain[..i]) + [own];
      out := StricterPriority(out, own);
    }
    assert chain[..|chain|] == chain;
  }

  /** Of every release time the shortest any budget of the chain sets. */
  method ResolveReleaseMax(chain: seq<Node>) returns (out: Option<ReleaseMax>)
    ensures Strictest(ReleaseWithin, out, Releases(chain)) && out == Normalized(out)
  {
    out := None;
    assert Releases(chain[..0]) == [];
    for i := 0 to |chain|
      invariant Strictest(ReleaseWithin, out, Releases(chain[..i])) && out == Normalized(out)
    {
      var own := chain[i].policy.house.release;
      ReleaseOrder();
      ReleaseMeets(out, own);
      StrictestStep(ReleaseWithin, out, Releases(chain[..i]), own, StricterRelease(out, own));
      assert Releases(chain[..i + 1]) == Releases(chain[..i]) + [own];
      out := StricterRelease(out, own);
    }
    assert chain[..|chain|] == chain;
  }

  predicate On(jobs: Option<BatchJobs>) {
    jobs.Some? && jobs.value.perPerson > 0 && jobs.value.maxHours > 0
  }

  function Switched(jobs: Option<BatchJobs>): Option<BatchJobs> {
    if On(jobs) then jobs else None
  }

  /** What the budgets with a limit of their own say on batch jobs; those that inherit say nothing. */
  ghost function Switches(chain: seq<Node>): seq<Option<BatchJobs>> {
    if chain == [] then []
    else
      var n := chain[|chain| - 1];
      Switches(chain[..|chain| - 1]) + if n.inherits then [] else [Switched(n.policy.house.jobs)]
  }

  /** The batch jobs below a chain: the strictest any budget with a limit of its own has, none where one of
      them has none, and none where there is no such budget. */
  ghost predicate JobsApply(out: Option<BatchJobs>, chain: seq<Node>) {
    if Switches(chain) == [] then out.None? else Strictest(JobsWithin, out, Switches(chain))
  }

  method ResolveBatchJobs(chain: seq<Node>) returns (out: Option<BatchJobs>)
    ensures JobsApply(out, chain)
  {
    out := None;
    for i := 0 to |chain|
      invariant JobsApply(out, chain[..i]) && (out.None? ==> Switches(chain[..i]) == [])
    {
      var n := chain[i];
      assert chain[..i + 1][..i] == chain[..i];
      if n.inherits { continue; }
      JobsOrder();
      if !On(n.policy.house.jobs) {
        SwitchedOff(chain, i);
        return None;
      }
      var own := n.policy.house.jobs;
      if out.None? {
        StrictestOfOne(JobsWithin, own);
        out := own;
        continue;
      }
      StrictestStep(JobsWithin, out, Switches(chain[..i]), own, StricterJobs(out, own));
      out := StricterJobs(out, own);
    }
    assert chain[..|chain|] == chain;
  }

  lemma StrictestOfOne<T(!new)>(within: (T, T) -> bool, v: T)
    requires within(v, v)
    ensures Strictest(within, v, [v])
  {
    assert v in [v];
  }

  /** One budget that has no batch jobs switches them off for the chain. */
  lemma {:induction false} SwitchedOff(chain: seq<Node>, i: nat)
    requires i < |chain| && !chain[i].inherits && !On(chain[i].policy.house.jobs)
    ensures None in Switches(chain) && JobsApply(None, chain)
  {
    var rest := chain[..|chain| - 1];
    if i < |chain| - 1 {
      SwitchedOff(rest, i);
    }
    forall y | Within(JobsWithin, y, Switches(chain)) ensures JobsWithin(y, None) {
    }
  }

  // ── A budget's own values ───────────────────────────────────────────────────

  const MAX_SCRATCH := 200
  const MAX_IDLE := 24 * 60
  const MAX_HOURS := 30 * 24
  const MAX_JOB_HOURS := 24

  predicate ValidScratch(v: Option<int>, above: Option<int>) {
    v.None? || (1 <= v.value <= MAX_SCRATCH && !(above.Some? && v.value > above.value))
  }

  predicate ValidBatchPriority(v: Option<string>, above: Option<string>) {
    v.None? || ((v.value == GUARANTEED || v.value == PREEMPTIBLE)
                && !(above == Some(PREEMPTIBLE) && v.value == GUARANTEED))
  }

  predicate ValidBatchJobs(v: Option<BatchJobs>, above: Option<BatchJobs>, root: bool) {
    v.None?
    || (v.value.perPerson >= 1 && 1 <= v.value.maxHours <= MAX_JOB_HOURS
        && (root || (On(above) && v.value.perPerson <= above.value.perPerson
            && v.value.maxHours <= above.value.maxHours)))
  }

  /** A storage of its own is accepted exactly if it is in bounds and is what then applies below. */
  lemma ScratchApplies(v: int, above: Option<int>, chain: seq<Node>, n: Node)
    requires Strictest(AmountWithin, above, Scratches(chain)) && n.policy.house.scratch == Some(v)
    ensures ValidScratch(Some(v), above) <==>
        1 <= v <= MAX_SCRATCH && Strictest(AmountWithin, Some(v), Scratches(chain + [n]))
  {
    AmountOrder();
    StrictestOwn(AmountWithin, Some(v), above, Scratches(chain));
    assert Scratches(chain + [n]) == Scratches(chain) + [Some(v)];
  }

  lemma BatchPriorityApplies(v: string, above: Option<string>, chain: seq<Node>, n: Node)
    requires Strictest(PriorityWithin, above, Priorities(chain)) && n.policy.house.priority == Some(v)
        && PriorityKnown(above)
    ensures ValidBatchPriority(Some(v), above)
            <==> PriorityKnown(Some(v)) && Strictest(PriorityWithin, Some(v), Priorities(chain + [n]))
  {
    PriorityOrder();
    StrictestOwn(PriorityWithin, Some(v), above, Priorities(chain));
    assert Priorities(chain + [n]) == Priorities(chain) + [Some(v)];
  }

  predicate JobsInBounds(v: BatchJobs) {
    v.perPerson >= 1 && 1 <= v.maxHours <= MAX_JOB_HOURS
  }

  /** Batch jobs of its own are accepted below the root exactly if they are in bounds, the budgets above
      have some, and they are what then applies below; at the root, if they are in bounds. */
  lemma BatchJobsApply(v: BatchJobs, above: Option<BatchJobs>, chain: seq<Node>, n: Node)
    requires JobsApply(above, chain) && n.policy.house.jobs == Some(v) && !n.inherits
    ensures ValidBatchJobs(Some(v), above, false)
            <==> JobsInBounds(v) && Switches(chain) != [] && JobsApply(Some(v), chain + [n])
    ensures chain == [] ==> (ValidBatchJobs(Some(v), above, true) <==> JobsInBounds(v) && JobsApply(Some(v), [n]))
  {
    JobsOrder();
    assert (chain + [n])[..|chain|] == chain;
    assert Switches(chain + [n]) == Switches(chain) + [Switched(Some(v))];
    AllSwitched(chain);
    if Switches(chain) != [] {
      StrictestOwn(JobsWithin, Some(v), above, Switches(chain));
      SwitchedStrictest(above, chain);
    }
    if chain == [] {
      StrictestOfOne(JobsWithin, Switched(Some(v)));
      assert chain + [n] == [n];
    }
  }

  lemma {:induction false} AllSwitched(chain: seq<Node>)
    ensures forall v :: v in Switches(chain) ==> Switched(v) == v
  {
    if chain != [] {
      AllSwitched(chain[..|chain| - 1]);
    }
  }

  /** What applies is off, or on. */
  lemma SwitchedStrictest(out: Option<BatchJobs>, chain: seq<Node>)
    requires Switches(chain) != [] && Strictest(JobsWithin, out, Switches(chain))
    ensures Switched(out) == out
  {
    if out.Some? {
      AllSwitched(chain);
      var least := Some(BatchJobs(1, 1));
      forall v | v in Switches(chain) ensures JobsWithin(least, v) {
        assert JobsWithin(out, v);
      }
      assert Within(JobsWithin, least, Switches(chain));
    }
  }

  predicate IdleInBounds(v: Option<int>) {
    v.None? || 1 <= v.value <= MAX_IDLE
  }

  /** Only GPU workspaces may go on without a bound. */
  predicate HoursInBounds(v: Option<int>, gpu: bool) {
    v.None? || (0 <= v.value <= MAX_HOURS && (gpu || v.value != 0))
  }

  predicate TimesInBounds(t: ReleaseTimes, gpu: bool) {
    IdleInBounds(t.idleOpen) && IdleInBounds(t.idleClosed) && HoursInBounds(t.maxHours, gpu)
  }

  predicate ReleaseInBounds(r: Option<ReleaseMax>) {
    TimesInBounds(OfKind(r, false), false) && TimesInBounds(OfKind(r, true), true)
  }

  /** Every time that own sets is the one in out. */
  predicate TimesKept(own: ReleaseTimes, out: ReleaseTimes) {
    && (own.idleOpen.Some? ==> out.idleOpen == own.idleOpen)
    && (own.idleClosed.Some? ==> out.idleClosed == own.idleClosed)
    && (own.maxHours.Some? ==> out.maxHours == own.maxHours)
  }

  predicate ReleaseKept(own: Option<ReleaseMax>, out: Option<ReleaseMax>) {
    TimesKept(OfKind(own, false), OfKind(out, false)) && TimesKept(OfKind(own, true), OfKind(out, true))
  }

  /** Release times of its own are accepted exactly if they are in bounds and every one of them is the one
      that then applies below. */
  method ValidateReleaseMax(r: Option<ReleaseMax>, above: Option<ReleaseMax>) returns (ok: bool)
    requires ReleaseInBounds(above)
    ensures ok <==> ReleaseInBounds(r) && ReleaseKept(r, StricterRelease(above, r))
  {
    if r.None? { return true; }
    StricterByKind(above, r);
    var kinds := [false, true];
    for k := 0 to |kinds|
      invariant forall j :: 0 <= j < k ==> KindOk(OfKind(r, kinds[j]), OfKind(above, kinds[j]), kinds[j])
    {
      ok := ValidateTimes(OfKind(r, kinds[k]), OfKind(above, kinds[k]), kinds[k]);
      if !ok { return; }
    }
    assert KindOk(OfKind(r, kinds[0]), OfKind(above, kinds[0]), kinds[0]);
    assert KindOk(OfKind(r, kinds[1]), OfKind(above, kinds[1]), kinds[1]);
    return true;
  }

  predicate KindOk(own: ReleaseTimes, above: ReleaseTimes, gpu: bool) {
    TimesInBounds(own, gpu) && TimesKept(own, StricterTimes(above, own))
  }

  method ValidateTimes(own: ReleaseTimes, above: ReleaseTimes, gpu: bool) returns (ok: bool)
    requires TimesInBounds(above, gpu)
    ensures ok <==> KindOk(own, above, gpu)
  {
    var fields := [(own.idleOpen, above.idleOpen), (own.idleClosed, above.idleClosed)];
    for f := 0 to |fields|
      invariant forall j :: 0 <= j < f ==> ValidIdle(fields[j].0, fields[j].1)
    {
      if !ValidIdle(fields[f].0, fields[f].1) { return false; }
    }
    assert ValidIdle(fields[0].0, fields[0].1) && ValidIdle(fields[1].0, fields[1].1);
    return ValidHours(own.maxHours, above.maxHours, gpu);
  }

  predicate ValidIdle(v: Option<int>, max: Option<int>) {
    v.None? || !(v.value < 1 || v.value > MAX_IDLE || (max.Some? && v.value > max.value))
  }

  predicate ValidHours(v: Option<int>, above: Option<int>, gpu: bool) {
    v.None?
    || !(v.value < 0 || v.value > MAX_HOURS || (v.value == 0 && !gpu)
         || (above.Some? && above.value > 0 && (v.value == 0 || v.value > above.value)))
  }

  lemma StricterByKind(a: Option<ReleaseMax>, b: Option<ReleaseMax>)
    ensures forall gpu :: OfKind(StricterRelease(a, b), gpu) == StricterTimes(OfKind(a, gpu), OfKind(b, gpu))
  {
  }

  /** Accepted release times apply below as they were set; what is not set comes from above. */
  lemma ReleaseApplies(r: Option<ReleaseMax>, above: Option<ReleaseMax>, chain: seq<Node>, n: Node)
    requires Strictest(ReleaseWithin, above, Releases(chain)) && n.policy.house.release == r
    ensures Strictest(ReleaseWithin, StricterRelease(above, r), Releases(chain + [n]))
    ensures forall gpu ::
      var own, out, up := OfKind(r, gpu), OfKind(StricterRelease(above, r), gpu), OfKind(above, gpu);
      && (own.idleOpen.None? ==> out.idleOpen == up.idleOpen)
      && (own.idleClosed.None? ==> out.idleClosed == up.idleClosed)
      && (own.maxHours.None? ==> out.maxHours == up.maxHours)
  {
    ReleaseOrder();
    ReleaseMeets(above, r);
    StrictestStep(ReleaseWithin, above, Releases(chain), r, StricterRelease(above, r));
    assert Releases(chain + [n]) == Releases(chain) + [r];
    StricterByKind(above, r);
  }

  // ── In any order ────────────────────────────────────────────────────────────

  /** What applies below a chain of budgets depends on the budgets in it alone. */
  lemma InAnyOrder(chain: seq<Node>, other: seq<Node>, a: House, b: House)
    requires forall n :: n in chain <==> n in other
    requires Applies(a, chain) && Applies(b, other)
    ensures a.(release := Normalized(a.release)) == b.(release := Normalized(b.release))
  {
    SameValues(chain, other);
    AmountOrder();
    StrictestUnique(AmountWithin, a.scratch, Scratches(chain), b.scratch, Scratches(other));
    PriorityOrder();
    StrictestUnique(PriorityWithin, a.priority, Priorities(chain), b.priority, Priorities(other));
    ReleaseMeets(a.release, b.release);
    StrictestUnique(ReleaseWithin, a.release, Releases(chain), b.release, Releases(other));
    JobsInAnyOrder(chain, other, a.jobs, b.jobs);
  }

  /** h is what applies below the chain. */
  ghost predicate Applies(h: House, chain: seq<Node>) {
    && Strictest(AmountWithin, h.scratch, Scratches(chain))
    && Strictest(PriorityWithin, h.priority, Priorities(chain))
    && Strictest(ReleaseWithin, h.release, Releases(chain))
    && JobsApply(h.jobs, chain)
  }

  lemma SameValues(chain: seq<Node>, other: seq<Node>)
    requires forall n :: n in chain <==> n in other
    ensures forall v :: v in Scratches(chain) <==> v in Scratches(other)
    ensures forall v :: v in Priorities(chain) <==> v in Priorities(other)
    ensures forall v :: v in Releases(chain) <==> v in Releases(other)
  {
    ValuesOf(chain);
    ValuesOf(other);
  }

  lemma ValuesOf(chain: seq<Node>)
    ensures forall v :: v in Scratches(chain) <==> exists n :: n in chain && n.policy.house.scratch == v
    ensures forall v :: v in Priorities(chain) <==> exists n :: n in chain && n.policy.house.priority == v
    ensures forall v :: v in Releases(chain) <==> exists n :: n in chain && n.policy.house.release == v
  {
    forall n | n in chain
      ensures n.policy.house.scratch in Scratches(chain)
      ensures n.policy.house.priority in Priorities(chain)
      ensures n.policy.house.release in Releases(chain)
    {
      var i :| 0 <= i < |chain| && chain[i] == n;
      assert Scratches(chain)[i] == n.policy.house.scratch;
      assert Priorities(chain)[i] == n.policy.house.priority;
      assert Releases(chain)[i] == n.policy.house.release;
    }
  }

  lemma {:induction false} SwitchesOf(chain: seq<Node>)
    ensures forall v ::
        v in Switches(chain) <==> exists n :: n in chain && !n.inherits && Switched(n.policy.house.jobs) == v
  {
    if chain != [] {
      var n := chain[|chain| - 1];
      SwitchesOf(chain[..|chain| - 1]);
      assert chain == chain[..|chain| - 1] + [n];
    }
  }

  lemma JobsInAnyOrder(chain: seq<Node>, other: seq<Node>, a: Option<BatchJobs>, b: Option<BatchJobs>)
    requires forall n :: n in chain <==> n in other
    requires JobsApply(a, chain) && JobsApply(b, other)
    ensures a == b
  {
    SwitchesOf(chain);
    SwitchesOf(other);
    JobsOrder();
    forall v ensures v in Switches(chain) <==> v in Switches(other) {
    }
    assert Switches(chain) != [] ==> Switches(chain)[0] in Switches(other);
    assert Switches(other) != [] ==> Switches(other)[0] in Switches(chain);
    if Switches(chain) != [] {
      StrictestUnique(JobsWithin, a, Switches(chain), b, Switches(other));
    }
  }

  // ── Passing on ──────────────────────────────────────────────────────────────

  /** A budget that stops inheriting and takes the batch jobs it passed on as its own changes nothing below. */
  lemma StopsInheriting(below: seq<Node>, n: Node, above: seq<Node>, jobs: Option<BatchJobs>, m: Node,
                        out: Option<BatchJobs>)
    requires n.inherits && !m.inherits && Switches(above) != []
    requires JobsApply(jobs, above) && m.policy.house.jobs == jobs
    ensures JobsApply(out, below + [n] + above) <==> JobsApply(out, below + [m] + above)
  {
    SwitchedStrictest(jobs, above);
    SwitchesAppend(below + [n], above);
    SwitchesAppend(below + [m], above);
    SwitchesAppend(below, [n]);
    SwitchesAppend(below, [m]);
    assert [n][..0] == [] && [m][..0] == [];
    Redundant(out, Switches(below), jobs, Switches(above));
  }

  lemma {:induction false} SwitchesAppend(a: seq<Node>, b: seq<Node>)
    ensures Switches(a + b) == Switches(a) + Switches(b)
  {
    if b == [] {
      assert a + b == a;
    } else {
      SwitchesAppend(a, b[..|b| - 1]);
      assert (a + b)[..|a + b| - 1] == a + b[..|b| - 1];
    }
  }

  lemma StrictestOnlyByWithin<T(!new)>(within: (T, T) -> bool, out: T, xs: seq<T>, ys: seq<T>)
    requires forall y :: Within(within, y, xs) <==> Within(within, y, ys)
    ensures Strictest(within, out, xs) <==> Strictest(within, out, ys)
  {
    assert forall zs :: Strictest(within, out, zs) ==> Within(within, out, zs);
    assert Within(within, out, xs) <==> Within(within, out, ys);
  }

  /** The strictest of some values adds nothing to them. */
  lemma Redundant(out: Option<BatchJobs>, xs: seq<Option<BatchJobs>>, v: Option<BatchJobs>, ys: seq<Option<BatchJobs>>)
    requires Strictest(JobsWithin, v, ys)
    ensures Strictest(JobsWithin, out, xs + [] + ys) <==> Strictest(JobsWithin, out, xs + [v] + ys)
  {
    JobsOrder();
    forall y ensures Within(JobsWithin, y, xs + [] + ys) <==> Within(JobsWithin, y, xs + [v] + ys) {
      if Within(JobsWithin, y, xs + [] + ys) {
        forall w | w in ys ensures JobsWithin(y, w) { assert w in xs + [] + ys; }
        assert Within(JobsWithin, y, ys);
        assert JobsWithin(y, v);
        forall w | w in xs + [v] + ys ensures JobsWithin(y, w) { assert w == v || w in xs + [] + ys; }
      }
      if Within(JobsWithin, y, xs + [v] + ys) {
        forall w | w in xs + [] + ys ensures JobsWithin(y, w) { assert w in xs + [v] + ys; }
      }
    }
    StrictestOnlyByWithin(JobsWithin, out, xs + [] + ys, xs + [v] + ys);
  }
}
