/** The inbox: what waits for a decision of the caller (internal/core/tree/op_query.go,
    undelegatedBudgetIDs in internal/core/tree/rule_authz.go). */
module Listings {
  import opened Model
  import opened Chains
  import opened Charges
  import opened Rules
  import opened Nodes
  import opened TreeChecks

  // ── The rule ────────────────────────────────────────────────────────────────

  /** The first budget of a chain that has managers. */
  ghost function NearestManaged(s: Store, chain: seq<Id>): Option<Id> {
    if chain == [] then None
    else if chain[0] in s && s[chain[0]].policy.admins != {} then Some(chain[0])
    else NearestManaged(s, chain[1..])
  }

  /** Who decides on what hangs under budget b: the managers nearest to it, and the caller is one. */
  ghost predicate Mine(s: Store, tokens: set<Token>, b: Id) {
    var m := NearestManaged(s, Chain(Budgets(s), b));
    m.Some? && m.value in s && s[m.value].policy.admins * tokens != {}
  }

  predicate Named(n: Node, tokens: set<Token>) {
    n.policy.admins * tokens != {}
  }

  /** Handed to somebody else. */
  predicate Delegated(n: Node, tokens: set<Token>) {
    n.policy.admins != {} && !Named(n, tokens)
  }

  /** The rule unfolds at the budget itself. */
  lemma MineStep(s: Store, tokens: set<Token>, b: Id)
    requires Tree(Budgets(s)) && b in Budgets(s)
    ensures s[b].policy.admins != {} ==> (Mine(s, tokens, b) <==> Named(s[b], tokens))
    ensures s[b].policy.admins == {} ==>
      (Mine(s, tokens, b) <==> s[b].parent.Some? && Mine(s, tokens, s[b].parent.value))
  {
    ChainStep(Budgets(s), b);
    assert Budgets(s)[b] == s[b].parent;
    var chain := Chain(Budgets(s), b);
    assert chain[0] == b;
    assert s[b].policy.admins != {} ==> NearestManaged(s, chain) == Some(b);
    if s[b].parent.Some? {
      assert chain[1..] == Chain(Budgets(s), s[b].parent.value);
    } else {
      assert chain[1..] == [] && NearestManaged(s, []) == None;
    }
  }

  /** Whoever the rule names may approve what hangs there. */
  lemma {:induction false} NearestManages(s: Store, tokens: set<Token>, chain: seq<Id>)
    requires var m := NearestManaged(s, chain); m.Some? && m.value in s && s[m.value].policy.admins * tokens != {}
    ensures ManagesChain(s, tokens, chain)
  {
    if !(chain[0] in s && s[chain[0]].policy.admins != {}) {
      NearestManages(s, tokens, chain[1..]);
      var b :| b in chain[1..] && b in s && s[b].policy.admins * tokens != {};
      assert b in chain;
    }
  }

  // ── The walk ────────────────────────────────────────────────────────────────

  /** Where the walk stands: what is listed is the caller's, with every budget the caller is named at; of what
      is done with, the children not handed on are listed. */
  ghost predicate Listed(s: Store, tokens: set<Token>, ids: set<Id>, queue: seq<Id>) {
    && (forall b {:trigger b in ids} :: b in ids ==> b in Budgets(s) && Mine(s, tokens, b))
    && (forall b :: b in Budgets(s) && Named(s[b], tokens) ==> b in ids)
    && (forall b :: b in queue ==> b in ids)
    && (forall b {:trigger b in ids} :: Owed(s, tokens, ids, queue, b) ==> b in ids)
  }

  /** b hangs under a listed budget that is done with and is not handed on. */
  ghost predicate Owed(s: Store, tokens: set<Token>, ids: set<Id>, queue: seq<Id>, b: Id) {
    b in Budgets(s) && s[b].parent.Some? && s[b].parent.value in ids && s[b].parent.value !in queue
    && !Delegated(s[b], tokens)
  }

  /** With nothing left to go on from, everything that is the caller's is listed. */
  lemma AllListed(s: Store, tokens: set<Token>, ids: set<Id>)
    requires Tree(Budgets(s)) && Listed(s, tokens, ids, [])
    ensures forall b :: b in ids <==> b in Budgets(s) && Mine(s, tokens, b)
  {
    forall b | b in Budgets(s) && Mine(s, tokens, b) ensures b in ids {
      MineListed(s, tokens, ids, b);
    }
  }

  lemma {:induction false} MineListed(s: Store, tokens: set<Token>, ids: set<Id>, b: Id)
    requires Tree(Budgets(s)) && Listed(s, tokens, ids, []) && b in Budgets(s) && Mine(s, tokens, b)
    ensures b in ids
    decreases |Chain(Budgets(s), b)|
  {
    MineStep(s, tokens, b);
    if s[b].policy.admins == {} {
      ChainStep(Budgets(s), b);
      MineListed(s, tokens, ids, s[b].parent.value);
      assert Owed(s, tokens, ids, [], b);
    }
  }

  /** found are the children of parents that are neither listed yet nor handed on. */
  ghost predicate LevelListed(s: Store, tokens: set<Token>, ids: set<Id>, parents: seq<Id>, found: seq<Id>) {
    forall b :: b in found <==>
      b in Budgets(s) && s[b].parent.Some? && s[b].parent.value in parents && b !in ids && !Delegated(s[b], tokens)
  }

  lemma NextLevel(s: Store, tokens: set<Token>, ids: set<Id>, parents: seq<Id>, found: seq<Id>)
    requires Tree(Budgets(s)) && Listed(s, tokens, ids, parents) && LevelListed(s, tokens, ids, parents, found)
    ensures Listed(s, tokens, ids + SetOf(found), found)
  {
    var more := ids + SetOf(found);
    forall b {:trigger Mine(s, tokens, b)} | b in found ensures Mine(s, tokens, b) {
      MineStep(s, tokens, b);
      assert Mine(s, tokens, s[b].parent.value);
    }
    forall b | Owed(s, tokens, more, found, b) ensures b in more {
      if s[b].parent.value in parents {
        assert b in ids || b in found;
      } else {
        assert Owed(s, tokens, ids, parents, b);
      }
    }
  }

  function AdministeredBy(tokens: set<Token>): Query {
    Query(None, None, Some(Budget), None, None, Some(tokens))
  }

  function WaitingUnder(parents: set<Id>): Query {
    Query(None, Some(parents), None, Some({Pending, ChangePending, Imported}), None, None)
  }

  /** e is a stored node that waits for a decision under a budget. */
  ghost predicate WaitsUnder(s: Store, e: Entry) {
    Stored(s, e) && Awaits(e.node) && e.node.parent.Some? && e.node.parent.value in Budgets(s)
  }

  predicate Awaits(n: Node) {
    n.status == Pending || n.status == ChangePending || n.status == Imported
  }

  class Inbox {
    const nodes: NodeStore
    const checks: Checks

    constructor (nodes: NodeStore, checks: Checks)
      ensures this.nodes == nodes && this.checks == checks
    {
      this.nodes := nodes;
      this.checks := checks;
    }

    ghost function S(): Store
      reads nodes
      requires nodes.Valid()
    {
      nodes.Contents()
    }

    /** The budgets the caller answers for: those they are named at, and below them everything that has not
        been handed on. */
    method UndelegatedBudgetIds(tokens: set<Token>) returns (ids: set<Id>)
      requires nodes.Valid() && Tree(Budgets(S()))
      ensures forall b :: b in ids <==> b in Budgets(S()) && Mine(S(), tokens, b)
    {
      ghost var s := S();
      var roots := nodes.ListNodes(AdministeredBy(tokens));
      var queue := seq(|roots|, i requires 0 <= i < |roots| => roots[i].id);
      ids := SetOf(queue);
      RootsListed(s, tokens, roots, queue);
      while queue != []
        invariant Listed(s, tokens, ids, queue)
        decreases Budgets(s).Keys - ids, |queue|
      {
        var found := ListLevel(tokens, ids, queue);
        NextLevel(s, tokens, ids, queue, found);
        LevelLeft(s, tokens, ids, queue, found);
        ids, queue := ids + SetOf(found), found;
      }
      AllListed(s, tokens, ids);
    }

    method ListLevel(tokens: set<Token>, ids: set<Id>, parents: seq<Id>) returns (found: seq<Id>)
      requires nodes.Valid()
      ensures LevelListed(S(), tokens, ids, parents, found)
    {
      var children := nodes.ListNodes(ChildBudgets(parents));
      found := [];
      for i := 0 to |children|
        invariant forall b :: b in found <==>
          exists e :: e in children[..i] && e.id == b && b !in ids && !Delegated(e.node, tokens)
      {
        var e := children[i];
        assert children[..i + 1] == children[..i] + [e];
        if e.id in ids || Delegated(e.node, tokens) { continue; }
        found := found + [e.id];
      }
      assert children[..|children|] == children;
      FoundChildren(S(), tokens, ids, parents, children, found);
    }

    /** What waits for a decision, or to be promoted, where the caller decides - or, with subtree, anywhere
        below the budgets the caller is named at. */
    method ListToManage(tokens: set<Token>, subtree: bool) returns (waiting: seq<Entry>)
      requires nodes.Valid() && Tree(Budgets(S())) && checks.nodes == nodes
      ensures !subtree ==> forall e :: e in waiting <==> WaitsUnder(S(), e) && Mine(S(), tokens, e.node.parent.value)
      ensures subtree ==> forall e :: e in waiting <==> WaitsUnder(S(), e) && ManagesAbove(S(), tokens, e.node)
    {
      var parents;
      if subtree {
        parents := AdministeredSubtreeIds(tokens);
      } else {
        parents := UndelegatedBudgetIds(tokens);
      }
      waiting := nodes.ListNodes(WaitingUnder(parents));
      WaitingListed(S(), parents, waiting);
    }

    /** The budgets at or below those the caller is named at. */
    method AdministeredSubtreeIds(tokens: set<Token>) returns (ids: set<Id>)
      requires nodes.Valid() && Tree(Budgets(S())) && checks.nodes == nodes
      ensures forall b :: b in ids <==> b in Budgets(S()) && ManagesChain(S(), tokens, Chain(Budgets(S()), b))
    {
      var administered := nodes.ListNodes(AdministeredBy(tokens));
      AdministeredBudgets(S(), tokens, administered);
      var tracked := checks.BuildSubtreeParentMap(administered);
      ids := tracked.Keys;
      AdministeredSubtrees(S(), tokens, administered, tracked);
    }
  }

  lemma RootsListed(s: Store, tokens: set<Token>, roots: seq<Entry>, queue: seq<Id>)
    requires Tree(Budgets(s)) && Lists(s, AdministeredBy(tokens), roots)
    requires |queue| == |roots| && forall i :: 0 <= i < |roots| ==> queue[i] == roots[i].id
    ensures Listed(s, tokens, SetOf(queue), queue)
  {
    forall b | b in queue ensures b in Budgets(s) && Mine(s, tokens, b) {
      RootIsMine(s, tokens, roots, queue, b);
    }
    forall b | b in Budgets(s) && Named(s[b], tokens) ensures b in queue {
      NamedIsRoot(s, tokens, roots, queue, b);
    }
  }

  lemma NamedIsRoot(s: Store, tokens: set<Token>, roots: seq<Entry>, queue: seq<Id>, b: Id)
    requires Lists(s, AdministeredBy(tokens), roots) && b in Budgets(s) && Named(s[b], tokens)
    requires |queue| == |roots| && forall i :: 0 <= i < |roots| ==> queue[i] == roots[i].id
    ensures b in queue
  {
    assert Matches(b, s[b], AdministeredBy(tokens));
    assert Entry(b, s[b]) in roots;
    var i :| 0 <= i < |roots| && roots[i] == Entry(b, s[b]);
    assert queue[i] == b;
  }

  lemma RootIsMine(s: Store, tokens: set<Token>, roots: seq<Entry>, queue: seq<Id>, b: Id)
    requires Tree(Budgets(s)) && Lists(s, AdministeredBy(tokens), roots) && b in queue
    requires |queue| == |roots| && forall i :: 0 <= i < |roots| ==> queue[i] == roots[i].id
    ensures b in Budgets(s) && Mine(s, tokens, b)
  {
    var i :| 0 <= i < |queue| && queue[i] == b;
    assert roots[i] in roots && Matches(b, s[b], AdministeredBy(tokens));
    MineStep(s, tokens, b);
  }

  lemma LevelLeft(s: Store, tokens: set<Token>, ids: set<Id>, parents: seq<Id>, found: seq<Id>)
    requires LevelListed(s, tokens, ids, parents, found)
    ensures found == [] ==> ids + SetOf(found) == ids
    ensures found != [] ==> Budgets(s).Keys - (ids + SetOf(found)) < Budgets(s).Keys - ids
  {
    if found != [] {
      assert found[0] in found && found[0] in Budgets(s).Keys - ids;
      assert found[0] !in Budgets(s).Keys - (ids + SetOf(found));
    }
  }

  lemma FoundChildren(s: Store, tokens: set<Token>, ids: set<Id>, parents: seq<Id>, children: seq<Entry>,
                      found: seq<Id>)
    requires Lists(s, ChildBudgets(parents), children)
    requires forall b ::
        b in found <==> exists e :: e in children && e.id == b && b !in ids && !Delegated(e.node, tokens)
    ensures LevelListed(s, tokens, ids, parents, found)
  {
    forall b | b in Budgets(s) && s[b].parent.Some? && s[b].parent.value in parents ensures Entry(b, s[b]) in children {
      assert Matches(b, s[b], ChildBudgets(parents));
    }
    forall e | e in children
      ensures e.id in Budgets(s) && s[e.id] == e.node && e.node.parent.Some? && e.node.parent.value in parents
    {
      assert Matches(e.id, e.node, ChildBudgets(parents));
    }
  }

  lemma AdministeredBudgets(s: Store, tokens: set<Token>, administered: seq<Entry>)
    requires Lists(s, AdministeredBy(tokens), administered)
    ensures AreBudgets(Budgets(s), administered)
    ensures forall b :: b in Budgets(s) ==> (Named(s[b], tokens) <==> Entry(b, s[b]) in administered)
  {
    forall b | b in Budgets(s) && Named(s[b], tokens) ensures Entry(b, s[b]) in administered {
      assert Matches(b, s[b], AdministeredBy(tokens));
    }
  }

  /** The budgets at and below those the caller is named at are those the caller manages. */
  lemma AdministeredSubtrees(s: Store, tokens: set<Token>, administered: seq<Entry>, tracked: Parents)
    requires Lists(s, AdministeredBy(tokens), administered) && Found(Budgets(s), administered, tracked)
    requires forall b :: b in Budgets(s) ==> (Named(s[b], tokens) <==> Entry(b, s[b]) in administered)
    ensures forall b :: b in tracked <==> b in Budgets(s) && ManagesChain(s, tokens, Chain(Budgets(s), b))
  {
    forall b | b in Budgets(s) ensures b in tracked <==> ManagesChain(s, tokens, Chain(Budgets(s), b)) {
      if UnderAny(Budgets(s), administered, b) {
        var e :| e in administered && e.id in Chain(Budgets(s), b);
        assert s[e.id].policy.admins * tokens != {};
      }
      if ManagesChain(s, tokens, Chain(Budgets(s), b)) {
        var a :| a in Chain(Budgets(s), b) && a in s && s[a].policy.admins * tokens != {};
        ChainIn(Budgets(s), a, b);
        assert Entry(a, s[a]) in administered;
        assert UnderAny(Budgets(s), administered, b);
      }
    }
  }

  lemma WaitingListed(s: Store, parents: set<Id>, waiting: seq<Entry>)
    requires Lists(s, WaitingUnder(parents), waiting)
    ensures forall e :: e in waiting <==>
      Stored(s, e) && Awaits(e.node) && e.node.parent.Some? && e.node.parent.value in parents
  {
    forall e | Stored(s, e) && Awaits(e.node) && e.node.parent.Some? && e.node.parent.value in parents
      ensures e in waiting
    {
      assert Matches(e.id, s[e.id], WaitingUnder(parents));
    }
    forall e | e in waiting
      ensures Stored(s, e) && Awaits(e.node) && e.node.parent.Some? && e.node.parent.value in parents
    {
      assert Matches(e.id, e.node, WaitingUnder(parents));
    }
  }

  /** Every request the direct inbox lists is one the caller may approve. */
  lemma ListedMayBeApproved(s: Store, tokens: set<Token>, n: Node)
    requires n.parent.Some? && Mine(s, tokens, n.parent.value)
    ensures ManagesAbove(s, tokens, n)
  {
    NearestManages(s, tokens, Chain(Budgets(s), n.parent.value));
  }

  /** Where the root has managers no request goes unseen: some token's own inbox covers every budget. */
  lemma {:induction false} SomebodyDecides(s: Store, b: Id)
    requires Tree(Budgets(s)) && b in Budgets(s) && s[ROOT].policy.admins != {}
    ensures exists t :: Mine(s, {t}, b)
    decreases |Chain(Budgets(s), b)|
  {
    ChainStep(Budgets(s), b);
    if s[b].policy.admins != {} {
      var t :| t in s[b].policy.admins;
      MineStep(s, {t}, b);
      assert t in s[b].policy.admins * {t};
    } else {
      assert Budgets(s)[b] == s[b].parent;
      SomebodyDecides(s, s[b].parent.value);
      var t :| Mine(s, {t}, s[b].parent.value);
      MineStep(s, {t}, b);
    }
  }

  /** Two callers who answer for the same budget are named at the same place: its nearest managers. */
  lemma OneDesk(s: Store, tokens: set<Token>, others: set<Token>, b: Id)
    requires Mine(s, tokens, b) && Mine(s, others, b)
    ensures exists m :: m in s && m in Chain(Budgets(s), b) && Named(s[m], tokens) && Named(s[m], others)
  {
    var m := NearestManaged(s, Chain(Budgets(s), b));
    NearestInChain(s, Chain(Budgets(s), b));
    assert Named(s[m.value], tokens);
  }

  lemma {:induction false} NearestInChain(s: Store, chain: seq<Id>)
    ensures var m := NearestManaged(s, chain); m.Some? ==> m.value in chain
  {
    if chain != [] {
      NearestInChain(s, chain[1..]);
    }
  }
}
