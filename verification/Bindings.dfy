/** Which budget binds: the nearest one with a limit of its own, and how that changes when one budget is
    written (bindingInChain in internal/core/tree/rule_limits.go). */
module Bindings {
  import opened Model
  import opened Chains
  import opened Charges
  import opened Rules
  import opened Steps
  import opened Shape
  import opened Locality

  /** The budget that binds at b. */
  ghost function Binder(s: Store, b: Id): Option<Id> {
    Binding(s, Chain(Budgets(s), b))
  }

  lemma BindStep(s: Store, b: Id)
    requires Tree(Budgets(s)) && b in Budgets(s)
    ensures !s[b].inherits ==> Binder(s, b) == Some(b)
    ensures s[b].inherits ==> Binder(s, b) == if s[b].parent.Some? then Binder(s, s[b].parent.value) else None
  {
    ChainStep(Budgets(s), b);
    assert Budgets(s)[b] == s[b].parent;
    var c := Chain(Budgets(s), b);
    assert c[0] == b;
    if s[b].parent.Some? {
      assert c[1..] == Chain(Budgets(s), s[b].parent.value);
    } else {
      assert c[1..] == [] && Binding(s, []) == None;
    }
  }

  /** Some budget with a limit of its own binds everywhere: at last the root does. */
  lemma {:induction false} BindSome(s: Store, b: Id)
    requires Shaped(s) && b in Budgets(s)
    ensures Binder(s, b).Some? && Binder(s, b).value in Budgets(s) && !s[Binder(s, b).value].inherits
    ensures Binder(s, b).value in Chain(Budgets(s), b)
    decreases |Chain(Budgets(s), b)|
  {
    BindStep(s, b);
    ChainStep(Budgets(s), b);
    ChainOk(Budgets(s), b);
    if s[b].inherits {
      assert Budgets(s)[b] == s[b].parent;
      BindSome(s, s[b].parent.value);
    }
  }

  // ── Through a budget ────────────────────────────────────────────────────────

  /** Going up the chain x is reached before a budget with a limit of its own below it. */
  ghost predicate Through(s: Store, x: Id, chain: seq<Id>) {
    chain != [] && (chain[0] == x || (chain[0] in s && s[chain[0]].inherits && Through(s, x, chain[1..])))
  }

  /** What binds at b is what binds at x, whatever that is. */
  ghost predicate Reaches(s: Store, x: Id, b: Id) {
    Through(s, x, Chain(Budgets(s), b))
  }

  lemma ReachesStep(s: Store, x: Id, b: Id)
    requires Tree(Budgets(s)) && b in Budgets(s)
    ensures Reaches(s, x, b)
            <==> b == x || (s[b].inherits && s[b].parent.Some? && Reaches(s, x, s[b].parent.value))
  {
    ChainStep(Budgets(s), b);
    assert Budgets(s)[b] == s[b].parent;
    var c := Chain(Budgets(s), b);
    assert c[0] == b;
    if s[b].parent.Some? {
      assert c[1..] == Chain(Budgets(s), s[b].parent.value);
    } else {
      assert c[1..] == [] && !Through(s, x, []);
    }
  }

  /** Who reaches x is below it, over active budgets that inherit. */
  lemma {:induction false} ReachesBelow(s: Store, x: Id, b: Id)
    requires Shaped(s) && b in Budgets(s) && Reaches(s, x, b) && Active(s[b].status)
    ensures x in Budgets(s) && x in Chain(Budgets(s), b) && InheritsFrom(s, x, b)
    decreases |Chain(Budgets(s), b)|
  {
    ReachesStep(s, x, b);
    ChainStep(Budgets(s), b);
    ChainOk(Budgets(s), b);
    if b == x {
      forall d | d in Chain(Budgets(s), b) && d in Subtree(s, x) ensures d == x {
        ChainAcyclic(Budgets(s), d, x);
      }
    } else {
      assert Budgets(s)[b] == s[b].parent && Hangs(s, s[b]);
      ReachesBelow(s, x, s[b].parent.value);
    }
  }

  /** Only budget x is another, perhaps elsewhere. */
  ghost predicate OneBudget(s: Store, t: Store, x: Id) {
    && Tree(Budgets(s)) && Tree(Budgets(t)) && Budgets(t).Keys == Budgets(s).Keys && x in Budgets(s)
    && forall b {:trigger t[b]} :: b in Budgets(s) && b != x ==> SameBudget(s[b], t[b])
  }

  /** n binds where m does. */
  predicate SameBudget(m: Node, n: Node) {
    n.parent == m.parent && n.inherits == m.inherits && n.limit == m.limit
  }

  /** Where x is reached, what binds is what binds at x now; elsewhere it is what it was. */
  lemma {:induction false} BindOnward(s: Store, t: Store, x: Id, b: Id)
    requires OneBudget(s, t, x) && b in Budgets(s)
    ensures Reaches(s, x, b) ==> Binder(s, b) == Binder(s, x) && Binder(t, b) == Binder(t, x)
    ensures !Reaches(s, x, b) ==> Binder(t, b) == Binder(s, b) && Binder(s, b) != Some(x)
    decreases |Chain(Budgets(s), b)|
  {
    ReachesStep(s, x, b);
    if b != x {
      assert SameBudget(s[b], t[b]);
      BindStep(s, b);
      BindStep(t, b);
      ChainStep(Budgets(s), b);
      assert Budgets(s)[b] == s[b].parent;
      if s[b].inherits && s[b].parent.Some? { BindOnward(s, t, x, s[b].parent.value); }
    }
  }

  /** Nothing above x is reached through it. */
  lemma NotThroughAbove(s: Store, x: Id, b: Id)
    requires Tree(Budgets(s)) && b in Budgets(s) && x !in Chain(Budgets(s), b)
    ensures !Reaches(s, x, b)
  {
    NotThrough(s, x, Chain(Budgets(s), b));
  }

  lemma {:induction false} NotThrough(s: Store, x: Id, chain: seq<Id>)
    requires x !in chain
    ensures !Through(s, x, chain)
  {
    if chain != [] {
      assert chain[0] in chain;
      assert forall d :: d in chain[1..] ==> d in chain;
      NotThrough(s, x, chain[1..]);
    }
  }

  /** The budgets of t stand and bind in s as they do in t. */
  ghost predicate BudgetsWithin(s: Store, t: Store) {
    && Tree(Budgets(s)) && Tree(Budgets(t)) && Budgets(t).Keys <= Budgets(s).Keys
    && forall b {:trigger t[b]} :: b in Budgets(t) ==> SameBudget(s[b], t[b])
  }

  lemma {:induction false} BindWithin(s: Store, t: Store, b: Id)
    requires BudgetsWithin(s, t) && b in Budgets(t)
    ensures Binder(s, b) == Binder(t, b)
    decreases |Chain(Budgets(t), b)|
  {
    assert SameBudget(s[b], t[b]);
    BindStep(s, b);
    BindStep(t, b);
    ChainStep(Budgets(t), b);
    assert Budgets(t)[b] == t[b].parent;
    if t[b].inherits && t[b].parent.Some? { BindWithin(s, t, t[b].parent.value); }
  }
}
