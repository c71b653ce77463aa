/** Chains of budgets up to the root: what nodeChain walks and every climb follows
    (internal/core/tree/rule_authz.go, internal/core/tree/service.go). */
module Chains {
  import opened Model

  /** Every budget with its parent. */
  type Parents = map<Id, Option<Id>>

  ghost function Budgets(s: Store): Parents {
    map id | id in s && s[id].kind == Budget :: s[id].parent
  }

  /** c climbs from c[0] to a parentless budget, each element the parent of the one before. */
  ghost predicate IsChain(pm: Parents, c: seq<Id>) {
    && |c| > 0
    && (forall i :: 0 <= i < |c| ==> c[i] in pm)
    && (forall i :: 0 <= i < |c| - 1 ==> pm[c[i]] == Some(c[i + 1]))
    && pm[c[|c| - 1]] == None
  }

  ghost predicate Rooted(pm: Parents, b: Id) {
    exists c :: IsChain(pm, c) && c[0] == b
  }

  /** A rooted tree of budgets: the root is the only parentless one and everything reaches it. */
  ghost predicate Tree(pm: Parents) {
    && ROOT in pm
    && pm[ROOT] == None
    && (forall b :: b in pm && pm[b] == None ==> b == ROOT)
    && (forall b {:trigger Rooted(pm, b)} :: b in pm ==> Rooted(pm, b))
  }

  /** The chain from b upward, b first; empty where there is none. */
  ghost function Chain(pm: Parents, b: Id): seq<Id> {
    if Rooted(pm, b)
    then (var c :| IsChain(pm, c) && c[0] == b; c)
    else []
  }

  lemma {:induction false} ChainUnique(pm: Parents, c: seq<Id>, d: seq<Id>)
    requires IsChain(pm, c) && IsChain(pm, d) && c[0] == d[0]
    ensures c == d
    decreases |c|
  {
    assert |c| > 1 ==> pm[c[0]] == Some(c[1]);
    assert |d| > 1 ==> pm[d[0]] == Some(d[1]);
    if |c| > 1 {
      TailIsChain(pm, c, 1);
      TailIsChain(pm, d, 1);
      ChainUnique(pm, c[1..], d[1..]);
      assert c == [c[0]] + c[1..] && d == [d[0]] + d[1..];
    }
  }

  lemma TailIsChain(pm: Parents, c: seq<Id>, k: nat)
    requires IsChain(pm, c) && k < |c|
    ensures IsChain(pm, c[k..])
  {
    var d := c[k..];
    forall i | 0 <= i < |d| - 1
      ensures pm[d[i]] == Some(d[i + 1])
    {
      assert d[i] == c[k + i] && d[i + 1] == c[k + i + 1];
    }
  }

  /** Any chain is the chain of its first element. */
  lemma ChainIs(pm: Parents, c: seq<Id>)
    requires IsChain(pm, c)
    ensures Chain(pm, c[0]) == c
  {
    ChainUnique(pm, Chain(pm, c[0]), c);
  }

  lemma ChainOk(pm: Parents, b: Id)
    requires Tree(pm) && b in pm
    ensures IsChain(pm, Chain(pm, b)) && Chain(pm, b)[0] == b
    ensures b in Chain(pm, b)
    ensures Chain(pm, b)[|Chain(pm, b)| - 1] == ROOT
    ensures ROOT in Chain(pm, b)
  {
    assert Rooted(pm, b);
    var c := Chain(pm, b);
    assert c[|c| - 1] in pm && pm[c[|c| - 1]] == None;
  }

  /** From any budget on the chain, the chain goes on as that budget's own. */
  lemma ChainSuffix(pm: Parents, b: Id, k: nat)
    requires k < |Chain(pm, b)|
    ensures IsChain(pm, Chain(pm, b))
    ensures Chain(pm, Chain(pm, b)[k]) == Chain(pm, b)[k..]
  {
    var c := Chain(pm, b);
    TailIsChain(pm, c, k);
    ChainIs(pm, c[k..]);
  }

  /** The chain unfolds at its first element. */
  lemma ChainStep(pm: Parents, b: Id)
    requires Tree(pm) && b in pm
    ensures pm[b].None? ==> Chain(pm, b) == [b]
    ensures pm[b].Some? ==> pm[b].value in pm && Chain(pm, b) == [b] + Chain(pm, pm[b].value)
    ensures pm[b].Some? ==> |Chain(pm, pm[b].value)| < |Chain(pm, b)|
  {
    ChainOk(pm, b);
    var c := Chain(pm, b);
    assert |c| > 1 ==> pm[c[0]] == Some(c[1]);
    if pm[b].Some? {
      ChainSuffix(pm, b, 1);
      assert c == [b] + c[1..];
    }
  }

  /** A budget under one that has a chain goes on as it. */
  lemma ConsChain(pm: Parents, b: Id, p: Id)
    requires b in pm && pm[b] == Some(p) && Rooted(pm, p)
    ensures Rooted(pm, b) && Chain(pm, b) == [b] + Chain(pm, p)
  {
    var t := Chain(pm, p);
    var c := [b] + t;
    forall i | 0 <= i < |c| - 1
      ensures pm[c[i]] == Some(c[i + 1])
    {
      if i > 0 {
        assert c[i] == t[i - 1] && c[i + 1] == t[i];
      }
    }
    assert c[|c| - 1] == t[|t| - 1];
    assert IsChain(pm, c);
    ChainIs(pm, c);
  }

  /** A chain whose budgets kept their parents is still the chain. */
  lemma SameChain(pm: Parents, pn: Parents, b: Id)
    requires Rooted(pm, b)
    requires forall a :: a in Chain(pm, b) ==> a in pn && a in pm && pn[a] == pm[a]
    ensures Rooted(pn, b) && Chain(pn, b) == Chain(pm, b)
  {
    var c := Chain(pm, b);
    assert IsChain(pn, c);
    ChainIs(pn, c);
  }

  /** Being above is transitive. */
  lemma ChainTransitive(pm: Parents, a: Id, b: Id, d: Id)
    requires a in Chain(pm, b) && b in Chain(pm, d)
    ensures a in Chain(pm, d)
  {
    var k :| 0 <= k < |Chain(pm, d)| && Chain(pm, d)[k] == b;
    ChainSuffix(pm, d, k);
  }

  /** No budget is on a chain twice: two budgets above each other are the same one. */
  lemma ChainAcyclic(pm: Parents, a: Id, b: Id)
    requires a in Chain(pm, b) && b in Chain(pm, a)
    ensures a == b
  {
    var i :| 0 <= i < |Chain(pm, b)| && Chain(pm, b)[i] == a;
    ChainSuffix(pm, b, i);
    var j :| 0 <= j < |Chain(pm, a)| && Chain(pm, a)[j] == b;
    ChainSuffix(pm, a, j);
    assert |Chain(pm, a)| == |Chain(pm, b)| - i && |Chain(pm, b)| == |Chain(pm, a)| - j;
    assert i == 0;
    assert IsChain(pm, Chain(pm, b));
    assert Chain(pm, b)[0] == b;
  }

  lemma ChainDistinct(pm: Parents, b: Id, i: nat, j: nat)
    requires i < j < |Chain(pm, b)|
    ensures Chain(pm, b)[i] != Chain(pm, b)[j]
  {
    ChainSuffix(pm, b, i);
    ChainSuffix(pm, b, j);
    assert |Chain(pm, Chain(pm, b)[i])| == |Chain(pm, b)| - i;
    assert |Chain(pm, Chain(pm, b)[j])| == |Chain(pm, b)| - j;
  }

  /** Nothing but x itself is below x where x is nobody's parent. */
  lemma ChildlessChain(pm: Parents, x: Id, b: Id)
    requires b != x && forall y :: y in pm ==> pm[y] != Some(x)
    ensures x !in Chain(pm, b)
  {
    var c := Chain(pm, b);
    forall k | 0 <= k < |c| ensures c[k] != x {
      if k > 0 { assert pm[c[k - 1]] == Some(c[k]); }
    }
  }

  /** Elements of a chain are budgets. */
  lemma ChainIn(pm: Parents, a: Id, b: Id)
    requires a in Chain(pm, b)
    ensures a in pm && b in pm && IsChain(pm, Chain(pm, b)) && Chain(pm, b)[0] == b
  {
  }

  // ── The three ways the tree changes ─────────────────────────────────────────

  /** A new budget under p: every other chain stays, its own is p's one longer. */
  lemma AddBudget(pm: Parents, x: Id, p: Id)
    requires Tree(pm) && x !in pm && p in pm
    ensures Tree(pm[x := Some(p)])
    ensures forall b {:trigger Chain(pm[x := Some(p)], b)} :: b in pm ==> Chain(pm[x := Some(p)], b) == Chain(pm, b)
    ensures Chain(pm[x := Some(p)], x) == [x] + Chain(pm, p)
  {
    var pn := pm[x := Some(p)];
    forall b {:trigger Rooted(pn, b)} {:trigger Chain(pn, b)} | b in pm
      ensures Rooted(pn, b) && Chain(pn, b) == Chain(pm, b)
    {
      assert Rooted(pm, b);
      SameChain(pm, pn, b);
    }
    ConsChain(pn, x, p);
  }

  /** Removing a set closed under descendants leaves every other chain as it was. */
  lemma RemoveBudgets(pm: Parents, gone: set<Id>)
    requires Tree(pm) && ROOT !in gone
    requires forall b :: b in pm && pm[b].Some? && pm[b].value in gone ==> b in gone
    ensures Tree(pm - gone)
    ensures forall b {:trigger Chain(pm - gone, b)} :: b in pm && b !in gone ==> Chain(pm - gone, b) == Chain(pm, b)
  {
    var pn := pm - gone;
    forall b {:trigger Rooted(pn, b)} {:trigger Chain(pn, b)} | b in pm && b !in gone
      ensures Rooted(pn, b) && Chain(pn, b) == Chain(pm, b)
    {
      assert Rooted(pm, b);
      StaysOut(pm, gone, b);
      SameChain(pm, pn, b);
    }
  }

  lemma {:induction false} StaysOut(pm: Parents, gone: set<Id>, b: Id)
    requires Tree(pm) && b in pm && b !in gone
    requires forall d :: d in pm && pm[d].Some? && pm[d].value in gone ==> d in gone
    ensures forall a :: a in Chain(pm, b) ==> a !in gone
    decreases |Chain(pm, b)|
  {
    ChainStep(pm, b);
    if pm[b].Some? {
      StaysOut(pm, gone, pm[b].value);
    }
  }

  /** a is above b once x hangs under q. */
  ghost predicate AboveAfterMove(pm: Parents, x: Id, q: Id, a: Id, b: Id) {
    if x in Chain(pm, b)
    then a in Chain(pm, q) || (a in Chain(pm, b) && x in Chain(pm, a))
    else a in Chain(pm, b)
  }

  /** Moving x under a budget q outside its own subtree keeps the tree: what hangs below x keeps
      its budgets up to x and then has those of q, everything else stays. The cycle guard is what
      makes this so (see CycleGuardNeeded). */
  lemma MoveBudget(pm: Parents, x: Id, q: Id)
    requires Tree(pm) && x in pm && q in pm && x != ROOT
    requires x !in Chain(pm, q)
    ensures Tree(pm[x := Some(q)])
    ensures Chain(pm[x := Some(q)], x) == [x] + Chain(pm, q)
    ensures forall b {:trigger Chain(pm[x := Some(q)], b)} ::
        b in pm && x !in Chain(pm, b) ==> Chain(pm[x := Some(q)], b) == Chain(pm, b)
    ensures forall a, b {:trigger a in Chain(pm[x := Some(q)], b)} ::
        b in pm ==> (a in Chain(pm[x := Some(q)], b) <==> AboveAfterMove(pm, x, q, a, b))
  {
    var pn := pm[x := Some(q)];
    forall b {:trigger Rooted(pn, b)} {:trigger Chain(pn, b)} | b in pm && x !in Chain(pm, b)
      ensures Rooted(pn, b) && Chain(pn, b) == Chain(pm, b)
    {
      assert Rooted(pm, b);
      SameChain(pm, pn, b);
    }
    ConsChain(pn, x, q);
    forall b {:trigger Rooted(pn, b)} | b in pm && x in Chain(pm, b)
      ensures Rooted(pn, b)
    {
      MovedBelow(pm, x, q, x, b);
    }
    forall a, b {:trigger a in Chain(pn, b)} | b in pm && x in Chain(pm, b)
      ensures a in Chain(pn, b) <==> AboveAfterMove(pm, x, q, a, b)
    {
      MovedBelow(pm, x, q, a, b);
    }
  }

  lemma {:induction false} MovedBelow(pm: Parents, x: Id, q: Id, a: Id, b: Id)
    requires Tree(pm) && x in pm && q in pm && b in pm
    requires x !in Chain(pm, q) && x in Chain(pm, b)
    requires Rooted(pm[x := Some(q)], x) && Chain(pm[x := Some(q)], x) == [x] + Chain(pm, q)
    ensures Rooted(pm[x := Some(q)], b)
    ensures a in Chain(pm[x := Some(q)], b) <==> AboveAfterMove(pm, x, q, a, b)
    decreases |Chain(pm, b)|
  {
    if b == x {
      MovedAt(pm, x, q, a);
    } else {
      ChainStep(pm, b);
      MovedBelow(pm, x, q, a, pm[b].value);
      MovedStep(pm, x, q, a, b, pm[b].value);
    }
  }

  lemma MovedAt(pm: Parents, x: Id, q: Id, a: Id)
    requires Tree(pm) && x in pm
    requires Chain(pm[x := Some(q)], x) == [x] + Chain(pm, q)
    ensures a in Chain(pm[x := Some(q)], x) <==> AboveAfterMove(pm, x, q, a, x)
  {
    ChainOk(pm, x);
    if a in Chain(pm, x) && x in Chain(pm, a) {
      ChainAcyclic(pm, a, x);
    }
  }

  lemma MovedStep(pm: Parents, x: Id, q: Id, a: Id, b: Id, p: Id)
    requires b in pm && b != x && pm[b] == Some(p)
    requires Chain(pm, b) == [b] + Chain(pm, p)
    requires x in Chain(pm, p) && Rooted(pm[x := Some(q)], p)
    requires a in Chain(pm[x := Some(q)], p) <==> AboveAfterMove(pm, x, q, a, p)
    ensures Rooted(pm[x := Some(q)], b)
    ensures a in Chain(pm[x := Some(q)], b) <==> AboveAfterMove(pm, x, q, a, b)
  {
    ConsChain(pm[x := Some(q)], b, p);
  }

  /** Without the guard the move breaks the tree: no chain is left at x. */
  lemma CycleGuardNeeded(pm: Parents, x: Id, q: Id)
    requires Tree(pm) && x in pm && q in pm && x in Chain(pm, q)
    ensures !Tree(pm[x := Some(q)])
  {
    var pn := pm[x := Some(q)];
    if Tree(pn) {
      ChainStep(pn, x);
      ClimbsTo(pm, x, q);
      ChainAcyclic(pn, x, q);
    }
  }

  /** Climbing from b reaches x the same way after x itself was hung elsewhere. */
  lemma {:induction false} ClimbsTo(pm: Parents, x: Id, b: Id, q: Id := b)
    requires Tree(pm) && b in pm && x in Chain(pm, b)
    requires Tree(pm[x := Some(q)])
    ensures x in Chain(pm[x := Some(q)], b)
    decreases |Chain(pm, b)|
  {
    var pn := pm[x := Some(q)];
    ChainOk(pn, b);
    if b != x {
      ChainStep(pm, b);
      ClimbsTo(pm, x, pm[b].value, q);
      ChainStep(pn, b);
    }
  }
}
