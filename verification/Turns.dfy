/** What every step keeps is kept with the providers running beside the lock holder, and what holds in every
    reachable state holds in every one that turns of the lock reach. */
module Turns {
  import opened Model
  import opened Chains
  import opened Charges
  import opened Rules
  import opened Steps
  import opened Reports
  import opened Runs
  import opened Shape
  import opened Values
  import opened Sources
  import opened Safety
  import opened Lifetimes
  import opened Terms
  import opened Availabilities
  import opened Bindings
  import opened Holdings
  import opened Nesting
  import opened Reachable
  import opened Interleaving

  // ── Lock-free writes keep it ────────────────────────────────────────────────

  /** Trees before and after writes that take no lock: the budgets are as they were. */
  ghost predicate Drifting(cfg: Config, s: Store, t: Store) {
    Settled(cfg, s) && Settled(cfg, t) && Drifted(s, t) && Budgets(t) == Budgets(s)
  }

  lemma DriftSettled(cfg: Config, s: Store, t: Store)
    requires Settled(cfg, s) && Drifted(s, t)
    ensures Drifting(cfg, s, t)
  {
    assert forall id :: id in s ==> OwnShape(s[id]);
    DriftBudgets(s, t);
    DriftShaped(s, t);
    DriftSane(cfg, s, t);
    DriftSourced(cfg, s, t);
  }

  /** A budget, or an active node, is there before and after, and the same in everything but its history and
      what was measured. */
  lemma DriftKept(s: Store, t: Store, id: Id)
    requires Shaped(s) && Drifted(s, t) && id in t && (Active(t[id].status) || t[id].kind == Budget)
    ensures id in s && t[id] == s[id].(side := t[id].side, log := t[id].log)
  {
    assert DriftAt(s, t, id);
    if id in s { assert OwnShape(s[id]); }
  }

  lemma DriftTimely(cfg: Config, s: Store, t: Store)
    requires Drifting(cfg, s, t)
    ensures Timely(s) ==> Timely(t)
    ensures InLine(s) ==> InLine(t)
  {
    forall id | id in t
      ensures Timely(s) ==> EndsInTime(t, id)
      ensures InLine(s) ==> TermInLine(t, id)
    {
      if Active(t[id].status) || t[id].kind == Budget {
        DriftKept(s, t, id);
        assert Hangs(t, t[id]);
        if t[id].parent.Some? { DriftKept(s, t, t[id].parent.value); }
        if Timely(s) { assert EndsInTime(s, id); }
        if InLine(s) { assert TermInLine(s, id); }
      }
    }
  }

  lemma DriftOnce(cfg: Config, s: Store, t: Store)
    requires Drifting(cfg, s, t) && Once(cfg, s)
    ensures Once(cfg, t)
  {
    forall id | id in t ensures OnceNode(cfg, t[id]) {
      assert DriftAt(s, t, id);
      if id in s {
        assert OnceNode(cfg, s[id]) && SaneNode(cfg, s[id]);
        DriftOnceNode(cfg, s[id], t[id]);
      }
    }
  }

  lemma DriftOnceNode(cfg: Config, m: Node, n: Node)
    requires Drift(m, n) && OnceNode(cfg, m) && SaneNode(cfg, m)
    ensures OnceNode(cfg, n)
  {
  }

  lemma DriftBacked(cfg: Config, s: Store, t: Store)
    requires Drifting(cfg, s, t) && Backed(cfg, s)
    ensures Backed(cfg, t)
  {
    DriftWithin(cfg, s, t);
    forall id | id in t ensures BackedNode(cfg, t, t[id]) {
      assert DriftAt(s, t, id);
      if id in s && s[id].status != Imported {
        assert BackedNode(cfg, s, s[id]);
        BackedWithin(cfg, s, t, id, s[id]);
      } else {
        ImportBacked(cfg, s, t, id);
      }
    }
  }

  /** An import holds nothing yet, nor does the request it becomes. */
  lemma ImportBacked(cfg: Config, s: Store, t: Store, id: Id)
    requires Shaped(s) && Sane(cfg, s) && id in t && DriftAt(s, t, id) && (id in s ==> s[id].status == Imported)
    ensures BackedNode(cfg, t, t[id])
  {
    if id in s { assert SaneNode(cfg, s[id]) && OwnShape(s[id]); }
    assert t[id].kind == Project && t[id].allocations == [] && !Active(t[id].status);
  }

  lemma DriftWithin(cfg: Config, s: Store, t: Store)
    requires Drifting(cfg, s, t)
    ensures BudgetsWithin(s, t)
  {
    forall b | b in Budgets(t) ensures SameBudget(s[b], t[b]) { DriftKept(s, t, b); }
    SameBudgetsWithin(s, t);
  }

  lemma DriftNested(cfg: Config, s: Store, t: Store)
    requires Drifting(cfg, s, t) && Nested(cfg, s)
    ensures Nested(cfg, t)
  {
    forall b | b in Budgets(s) ensures SameBudget(s[b], t[b]) && (Active(t[b].status) ==> Active(s[b].status)) {
      assert b in Budgets(t);
      DriftKept(s, t, b);
    }
    NestedProjects(cfg, s, t);
  }

  // ── All of it together ──────────────────────────────────────────────────────

  /** Nothing outlives what it hangs under, caps are in line, an availability comes from one place and from
      budgets that hold it, and no budget exceeds the one above. */
  ghost predicate Sound(cfg: Config, s: Store) {
    Timely(s) && InLine(s) && Once(cfg, s) && Backed(cfg, s) && Nested(cfg, s)
  }

  /** The accepted requests that break a part of it. */
  ghost predicate Breaks(s: Store, e: Event) {
    TermBreaker()(s, e) || Doubler()(s, e) || Lapser()(s, e) || Outgrower()(s, e)
  }

  lemma DriftSound(cfg: Config, s: Store, t: Store)
    requires Drifting(cfg, s, t) && Sound(cfg, s)
    ensures Sound(cfg, t)
  {
    DriftTimely(cfg, s, t);
    DriftOnce(cfg, s, t);
    DriftBacked(cfg, s, t);
    DriftNested(cfg, s, t);
  }

  lemma SoundNext(cfg: Config, s: Store, e: Event)
    requires Settled(cfg, s) && SameKinds(cfg, e.cfg) && Sound(cfg, s) && Enabled(e.cfg, s, e.op) && !Breaks(s, e)
    ensures Sound(cfg, Next(e.cfg, s, e.caller, e.op))
  {
    TimelyNext(e.cfg, s, e.caller, e.op);
    InLineNextExact(e.cfg, s, e.caller, e.op);
    OnceStep(cfg, s, e);
    BackedStep(cfg, s, e);
  }

  lemma SettledNext(cfg: Config, s: Store, e: Event)
    requires Settled(cfg, s) && SameKinds(cfg, e.cfg) && Enabled(e.cfg, s, e.op)
    ensures Settled(cfg, Next(e.cfg, s, e.caller, e.op))
  {
    SettledElsewhere(cfg, e.cfg, s);
    ShapeNext(e.cfg, s, e.caller, e.op);
    SaneNext(e.cfg, s, e.caller, e.op);
    SourcedNext(e.cfg, s, e.caller, e.op);
    SettledElsewhere(e.cfg, cfg, Next(e.cfg, s, e.caller, e.op));
  }

  // ── Turns ───────────────────────────────────────────────────────────────────

  function EventOf(turn: Turn): Event {
    Event(turn.cfg, turn.caller, turn.op)
  }

  /** From what the checks saw over the step to what the turn leaves. */
  lemma TurnDrifts(cfg: Config, s: Store, turn: Turn, step: Step)
    requires Settled(cfg, s) && LegalTurn(cfg, s, turn, step)
    ensures var v, w, e := Checked(s, turn), AtWrite(s, turn), EventOf(turn);
            var a := Next(e.cfg, v, e.caller, e.op);
            && Drifting(cfg, s, v) && Drifting(cfg, s, w)
            && (TurnEnd(s, turn) == w || (Settled(cfg, a) && Drifting(cfg, a, TurnEnd(s, turn))))
  {
    var v, w, e := Checked(s, turn), AtWrite(s, turn), EventOf(turn);
    CheckedDrifts(s, turn);
    DriftSettled(cfg, s, v);
    DriftSettled(cfg, s, w);
    SettledNext(cfg, v, e);
    WriteBackDrifts(e.cfg, v, w, e.caller, e.op);
    if TurnEnd(s, turn) != w { DriftSettled(cfg, Next(e.cfg, v, e.caller, e.op), TurnEnd(s, turn)); }
  }

  lemma TurnSettled(cfg: Config, s: Store, turn: Turn, step: Step)
    requires Settled(cfg, s) && LegalTurn(cfg, s, turn, step)
    ensures Settled(cfg, TurnEnd(s, turn))
    ensures Timely(s) ==> Timely(TurnEnd(s, turn))
  {
    var v, w, e := Checked(s, turn), AtWrite(s, turn), EventOf(turn);
    TurnDrifts(cfg, s, turn, step);
    if Timely(s) {
      DriftTimely(cfg, s, v);
      DriftTimely(cfg, s, w);
      TimelyNext(e.cfg, v, e.caller, e.op);
      if TurnEnd(s, turn) != w { DriftTimely(cfg, Next(e.cfg, v, e.caller, e.op), TurnEnd(s, turn)); }
    }
  }

  lemma TurnSound(cfg: Config, s: Store, turn: Turn, step: Step)
    requires Settled(cfg, s) && Sound(cfg, s) && LegalTurn(cfg, s, turn, step)
    requires !Breaks(Checked(s, turn), EventOf(turn))
    ensures Sound(cfg, TurnEnd(s, turn))
  {
    var v, w, e := Checked(s, turn), AtWrite(s, turn), EventOf(turn);
    TurnDrifts(cfg, s, turn, step);
    DriftSound(cfg, s, v);
    DriftSound(cfg, s, w);
    SoundNext(cfg, v, e);
    if TurnEnd(s, turn) != w { DriftSound(cfg, Next(e.cfg, v, e.caller, e.op), TurnEnd(s, turn)); }
  }

  /** No turn makes such a request. */
  ghost predicate UnbrokenTurns(s: Store, turns: seq<Turn>) {
    turns == []
    || (UnbrokenTurns(s, turns[..|turns| - 1])
        && !Breaks(Checked(AfterTurns(s, turns[..|turns| - 1]), turns[|turns| - 1]), EventOf(turns[|turns| - 1])))
  }

  lemma {:induction false} TurnsSettled(cfg: Config, s: Store, turns: seq<Turn>, step: Step)
    requires Settled(cfg, s) && LegalTurns(cfg, s, turns, step)
    ensures Settled(cfg, AfterTurns(s, turns))
    ensures Timely(s) ==> Timely(AfterTurns(s, turns))
  {
    if turns != [] {
      TurnsSettled(cfg, s, turns[..|turns| - 1], step);
      TurnSettled(cfg, AfterTurns(s, turns[..|turns| - 1]), turns[|turns| - 1], step);
    }
  }

  lemma {:induction false} TurnsSound(cfg: Config, s: Store, turns: seq<Turn>, step: Step)
    requires Settled(cfg, s) && Sound(cfg, s) && LegalTurns(cfg, s, turns, step) && UnbrokenTurns(s, turns)
    ensures Sound(cfg, AfterTurns(s, turns))
  {
    if turns != [] {
      var before := turns[..|turns| - 1];
      TurnsSound(cfg, s, before, step);
      TurnsSettled(cfg, s, before, step);
      TurnSound(cfg, AfterTurns(s, before), turns[|turns| - 1], step);
    }
  }

  // ── What is promised ────────────────────────────────────────────────────────

  /** With the providers beside it: no active node outlives any budget above it, and a live project draws from
      budgets strictly above its own. */
  lemma NeverOutlivesInTurns(cfg: Config, admins: set<Token>, turns: seq<Turn>, step: Step, id: Id)
    requires cfg.Valid() && LegalTurns(cfg, Bootstrapped(cfg, admins), turns, step)
    requires id in AfterTurns(Bootstrapped(cfg, admins), turns)
    ensures var s := AfterTurns(Bootstrapped(cfg, admins), turns);
            && (Active(s[id].status) ==> forall b :: b in Above(s, s[id]) ==> b in s && Respects(s[id].end, s[b].end))
            && (s[id].kind == Project && Live(s[id].status) ==>
                forall a :: a in s[id].allocations ==> a.budget in Above(s, s[id]) && s[id].parent != Some(a.budget))
  {
    var s := AfterTurns(Bootstrapped(cfg, admins), turns);
    BootstrapSettled(cfg, admins);
    BootstrapTimely(cfg, admins);
    TurnsSettled(cfg, Bootstrapped(cfg, admins), turns, step);
    if Active(s[id].status) {
      forall b | b in Above(s, s[id]) ensures b in s && Respects(s[id].end, s[b].end) { NothingOutlives(s, id, b); }
    }
    assert Hangs(s, s[id]) && SourcedNode(Budgets(s), s[id]);
    forall a | s[id].kind == Project && Live(s[id].status) && a in s[id].allocations
      ensures a.budget in Above(s, s[id]) && s[id].parent != Some(a.budget)
    {
      assert From(Budgets(s), s[id].parent.value, a);
    }
  }

  /** And where no turn breaks it: caps are in line, a project holds an availability once, whoever holds one has it
      from holders, and no budget exceeds the one that binds above it. */
  lemma SoundInTurns(cfg: Config, admins: set<Token>, turns: seq<Turn>, step: Step)
    requires cfg.Valid() && LegalTurns(cfg, Bootstrapped(cfg, admins), turns, step)
    requires UnbrokenTurns(Bootstrapped(cfg, admins), turns)
    ensures Sound(cfg, AfterTurns(Bootstrapped(cfg, admins), turns))
  {
    BootstrapSettled(cfg, admins);
    BootstrapTimely(cfg, admins);
    BootstrapOnce(cfg, admins);
    BootstrapBacked(cfg, admins);
    TurnsSound(cfg, Bootstrapped(cfg, admins), turns, step);
  }
}
