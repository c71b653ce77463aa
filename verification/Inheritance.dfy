/** The walk that checks a move of a budget that inherits its limit: through the budgets that inherit
    along with it, down to those with a limit of their own (checkInheritingMove in
    internal/core/tree/op_move.go). */
module Inheritance {
  import opened Model
  import opened Chains
  import opened Charges
  import opened Rules
  import opened Steps
  import opened Nodes

  /** A budget to go on from and the chain its children will hang under. */
  datatype Level = Level(node: Entry, chain: seq<Entry>)

  function IdsOf(es: seq<Entry>): (ids: seq<Id>)
    ensures |ids| == |es| && forall i :: 0 <= i < |es| ==> ids[i] == es[i].id
  {
    seq(|es|, i requires 0 <= i < |es| => es[i].id)
  }

  /** l goes on from a budget that inherits through x; what binds there is what binds at target. */
  ghost predicate LevelOk(s: Store, x: Id, target: Id, l: Level) {
    Stored(s, l.node) && l.node.node.kind == Budget && InheritsFrom(s, x, l.node.id) && BindsAlike(s, target, l.chain)
  }

  /** The same budget binds along the chain as at target. */
  ghost predicate BindsAlike(s: Store, target: Id, chain: seq<Entry>) {
    && (forall e :: e in chain ==> Stored(s, e))
    && Binding(s, IdsOf(chain)) == Binding(s, Chain(Budgets(s), target))
  }

  /** An inheriting budget on top of a chain changes nothing about what binds. */
  lemma BindingCons(s: Store, e: Entry, chain: seq<Entry>)
    requires Stored(s, e) && e.node.inherits
    ensures Binding(s, IdsOf([e] + chain)) == Binding(s, IdsOf(chain))
  {
    assert IdsOf([e] + chain)[1..] == IdsOf(chain);
  }

  /** b is an active budget right under p. */
  ghost predicate ActiveChild(s: Store, p: Id, b: Id) {
    b in s && s[b].kind == Budget && Active(s[b].status) && s[b].parent == Some(p)
  }

  ghost predicate FitsThere(cfg: Config, s: Store, target: Id, b: Id)
    requires b in s
  {
    BudgetLimitOk(cfg, s, b, Chain(Budgets(s), target), s[b].limit, false)
  }

  /** b is dealt with, given where the walk stands. */
  ghost predicate Handled(cfg: Config, s: Store, target: Id, done: set<Id>, queued: seq<Id>, b: Id)
    requires b in s
  {
    if s[b].inherits then b in done || b in queued else FitsThere(cfg, s, target, b)
  }

  /** Where the walk stands: done budgets inherit through x and their active children are dealt with;
      what is queued comes after them. */
  ghost predicate Walked(cfg: Config, s: Store, x: Id, target: Id, done: set<Id>, queued: seq<Id>) {
    && (x in done || x in queued)
    && (forall p {:trigger FromThere(s, x, done, p)} :: p in done || p in queued ==> FromThere(s, x, done, p))
    && (forall p, b {:trigger ActiveChild(s, p, b)} ::
        p in done && ActiveChild(s, p, b) ==> Handled(cfg, s, target, done, queued, b))
    && (forall i, j :: 0 <= i < j < |queued| ==> queued[i] != queued[j])
    && (forall i :: 0 <= i < |queued| ==> queued[i] !in done)
  }

  /** p inherits through x, and the budget it hangs under came before. */
  ghost predicate FromThere(s: Store, x: Id, done: set<Id>, p: Id) {
    InheritsFrom(s, x, p) && (p == x || (p in s && s[p].parent.Some? && s[p].parent.value in done))
  }

  lemma InheritsItself(s: Store, x: Id)
    requires Tree(Budgets(s)) && x in Budgets(s)
    ensures InheritsFrom(s, x, x)
  {
    ChainOk(Budgets(s), x);
    forall d | d in Chain(Budgets(s), x) && d in Subtree(s, x) && d != x ensures false {
      ChainAcyclic(Budgets(s), d, x);
    }
  }

  lemma WalkStarts(cfg: Config, s: Store, x: Id, target: Id)
    requires Tree(Budgets(s)) && x in Budgets(s)
    ensures Walked(cfg, s, x, target, {}, [x])
  {
    InheritsItself(s, x);
  }

  /** An active inheriting child goes on inheriting through x, and is not x. */
  lemma ChildInherits(s: Store, x: Id, p: Id, b: Id)
    requires Tree(Budgets(s)) && InheritsFrom(s, x, p) && ActiveChild(s, p, b)
    ensures b != x && b in Subtree(s, x)
    ensures s[b].inherits ==> InheritsFrom(s, x, b)
  {
    ChainStep(Budgets(s), b);
    if b == x {
      ChainAcyclic(Budgets(s), p, x);
      ChainStep(Budgets(s), x);
    }
  }

  /** The children of p are dealt with: p is done, the inheriting ones are queued behind the rest. */
  lemma WalkStep(cfg: Config, s: Store, x: Id, target: Id, done: set<Id>, p: Id, rest: seq<Id>, more: seq<Id>)
    requires Tree(Budgets(s)) && Walked(cfg, s, x, target, done, [p] + rest)
    requires forall b :: b in more <==> ActiveChild(s, p, b) && s[b].inherits
    requires forall i, j :: 0 <= i < j < |more| ==> more[i] != more[j]
    requires forall b :: ActiveChild(s, p, b) && !s[b].inherits ==> FitsThere(cfg, s, target, b)
    ensures p !in done && p in Subtree(s, x)
    ensures Walked(cfg, s, x, target, done + {p}, rest + more)
  {
    var queued := [p] + rest;
    assert queued[0] == p && forall i :: 0 <= i < |rest| ==> rest[i] == queued[i + 1];
    assert p in queued;
    assert FromThere(s, x, done, p);
    forall b {:trigger FromThere(s, x, done + {p}, b)} {:trigger b in more} | b in more
      ensures FromThere(s, x, done + {p}, b) && b !in done + {p} && b !in rest
    {
      ChildInherits(s, x, p, b);
      assert !FromThere(s, x, done, b);
      assert b !in done && b !in queued;
    }
    forall b {:trigger FromThere(s, x, done + {p}, b)} | b in done || b in rest
      ensures FromThere(s, x, done + {p}, b)
    {
      if b in rest { assert b in queued; }
      assert FromThere(s, x, done, b);
    }
    forall d, b {:trigger ActiveChild(s, d, b)} | d in done + {p} && ActiveChild(s, d, b)
      ensures Handled(cfg, s, target, done + {p}, rest + more, b)
    {
      if d != p { assert Handled(cfg, s, target, done, queued, b); }
    }
    WalkDistinct(done, p, rest, more);
  }

  lemma WalkDistinct(done: set<Id>, p: Id, rest: seq<Id>, more: seq<Id>)
    requires forall i, j :: 0 <= i < j < |more| ==> more[i] != more[j]
    requires forall i, j :: 0 <= i < j < |[p] + rest| ==> ([p] + rest)[i] != ([p] + rest)[j]
    requires forall i :: 0 <= i < |[p] + rest| ==> ([p] + rest)[i] !in done
    requires forall b :: b in more ==> b !in done + {p} && b !in rest
    ensures forall i, j :: 0 <= i < j < |rest + more| ==> (rest + more)[i] != (rest + more)[j]
    ensures forall i :: 0 <= i < |rest + more| ==> (rest + more)[i] !in done + {p}
  {
    var all := [p] + rest;
    assert all[0] == p && forall i :: 0 <= i < |rest| ==> rest[i] == all[i + 1];
    forall i, j | 0 <= i < j < |rest + more| ensures (rest + more)[i] != (rest + more)[j] {
      if j < |rest| { assert rest[i] == all[i + 1] && rest[j] == all[j + 1]; }
      else if i < |rest| { assert (rest + more)[j] in more; }
    }
    forall i | 0 <= i < |rest + more| ensures (rest + more)[i] !in done + {p} {
      if i < |rest| { assert all[0] != all[i + 1]; } else { assert (rest + more)[i] in more; }
    }
  }

  /** With nothing left in the queue every budget that has to fit was looked at. */
  lemma WalkEnds(cfg: Config, s: Store, x: Id, target: Id, done: set<Id>)
    requires Tree(Budgets(s)) && x in Budgets(s) && Walked(cfg, s, x, target, done, [])
    ensures InheritingMoveOk(cfg, s, x, target)
  {
    forall b | b in Subtree(s, x) && b != x && b in s && Active(s[b].status) && !s[b].inherits
               && s[b].parent.Some? && InheritsFrom(s, x, s[b].parent.value)
      ensures FitsThere(cfg, s, target, b)
    {
      AllReachedFrom(cfg, s, x, target, done, s[b].parent.value);
      assert ActiveChild(s, s[b].parent.value, b);
    }
  }

  lemma {:induction false} AllReachedFrom(cfg: Config, s: Store, x: Id, target: Id, done: set<Id>, p: Id)
    requires Tree(Budgets(s)) && x in Budgets(s) && Walked(cfg, s, x, target, done, []) && InheritsFrom(s, x, p)
    ensures p in done
    decreases |Chain(Budgets(s), p)|
  {
    if p != x {
      ParentInherits(s, x, p);
      var q := s[p].parent.value;
      ChainStep(Budgets(s), p);
      AllReachedFrom(cfg, s, x, target, done, q);
      assert ActiveChild(s, q, p);
      assert Handled(cfg, s, target, done, [], p);
    }
  }

  lemma ParentInherits(s: Store, x: Id, p: Id)
    requires Tree(Budgets(s)) && InheritsFrom(s, x, p) && p != x
    ensures p in s && s[p].kind == Budget && s[p].parent.Some? && Active(s[p].status) && s[p].inherits
    ensures InheritsFrom(s, x, s[p].parent.value)
  {
    ChainStep(Budgets(s), p);
    ChainOk(Budgets(s), p);
  }

  /** One budget that does not fit is enough to refuse. */
  lemma Misfit(cfg: Config, s: Store, x: Id, target: Id, p: Id, b: Id)
    requires Tree(Budgets(s)) && InheritsFrom(s, x, p) && ActiveChild(s, p, b) && !s[b].inherits
    requires !FitsThere(cfg, s, target, b)
    ensures !InheritingMoveOk(cfg, s, x, target)
  {
    ChildInherits(s, x, p, b);
  }
}
