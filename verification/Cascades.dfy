/** What a level by level walk over the live nodes below a budget reaches, for the cascades of the
    tree service (internal/core/tree/rule_terms.go). */
module Cascades {
  import opened Model
  import opened Chains
  import opened Charges
  import opened Rules
  import opened Shape
  import opened Locality
  import opened Nodes

  /** A node as a change leaves it. */
  function Visit(f: Node -> Option<Node>, n: Node): Node {
    var m := f(n);
    if m.Some? then CapHistory(m.value) else n
  }

  /** f changes neither where a node stands nor what it is, and doing it twice is doing it once. */
  ghost predicate Steady(f: Node -> Option<Node>) {
    forall n {:trigger SteadyAt(f, n)} :: SteadyAt(f, n)
  }

  ghost predicate SteadyAt(f: Node -> Option<Node>, n: Node) {
    SamePlace(n, Visit(f, n)) && Visit(f, n).status == n.status && Visit(f, Visit(f, n)) == Visit(f, n)
  }

  ghost function Visited(s: Store, f: Node -> Option<Node>, done: set<Id>): Store {
    map id | id in s :: if id in done then Visit(f, s[id]) else s[id]
  }

  lemma VisitedPut(s: Store, f: Node -> Option<Node>, done: set<Id>, id: Id)
    requires Steady(f) && id in s
    ensures Visited(s, f, done)[id := Visit(f, Visited(s, f, done)[id])] == Visited(s, f, done + {id})
  {
    assert SteadyAt(f, s[id]);
  }

  /** f changes nobody. */
  ghost predicate NothingFor(s: Store, f: Node -> Option<Node>) {
    forall id {:trigger id in s} :: id in s ==> f(s[id]).None?
  }

  lemma VisitedNew(s: Store, f: Node -> Option<Node>, done: set<Id>, id: Id)
    requires id in s && id !in done
    ensures Visited(s, f, done)[id] == s[id] && (NothingFor(s, f) ==> f(s[id]).None?)
    ensures Visited(s, f, done)[id := Visit(f, s[id])] == Visited(s, f, done + {id})
  {
  }

  /** Where the walk is: what is done is live and below top, and everything else that is lies
      below the frontier, whose budgets are all equally deep. */
  ghost predicate Sweeping(s: Store, top: Id, done: set<Id>, frontier: seq<Id>, depth: nat) {
    && (forall id :: id in done ==> LiveBelow(s, top, id))
    && (forall id {:trigger LiveBelow(s, top, id)} ::
        LiveBelow(s, top, id) && id !in done ==> BelowAny(s, frontier, id))
    && (forall b :: b in frontier ==> InFrontier(s, top, b, depth))
  }

  ghost predicate InFrontier(s: Store, top: Id, b: Id, depth: nat) {
    b in Budgets(s) && top in Chain(Budgets(s), b) && |Chain(Budgets(s), b)| == depth
  }

  ghost predicate BelowAny(s: Store, frontier: seq<Id>, id: Id)
    requires id in s
  {
    exists b :: b in frontier && b in Above(s, s[id])
  }

  lemma SweepStarts(s: Store, top: Id)
    requires Tree(Budgets(s)) && top in Budgets(s)
    ensures Sweeping(s, top, {}, [top], |Chain(Budgets(s), top)|)
  {
    ChainOk(Budgets(s), top);
    forall id | LiveBelow(s, top, id) ensures BelowAny(s, [top], id) {
      assert top in [top];
    }
  }

  /** The nodes right below the frontier. */
  function ChildrenOf(parents: seq<Id>): Query {
    Query(None, Some(set id | id in parents), None, None, None, None)
  }

  predicate LiveEntry(e: Entry) {
    Live(e.node.status)
  }

  /** The children of the frontier as listed: more are the live ones, next the budgets of those. */
  ghost predicate Level(s: Store, frontier: seq<Id>, more: set<Id>, next: seq<Id>) {
    && (forall id :: id in more <==> LiveChild(s, frontier, id))
    && (forall id :: id in next <==> LiveChild(s, frontier, id) && s[id].kind == Budget)
  }

  ghost predicate LiveChild(s: Store, frontier: seq<Id>, id: Id) {
    id in s && Live(s[id].status) && s[id].parent.Some? && s[id].parent.value in frontier
  }

  /** One level further: the live children are done, the live budgets among them are next. */
  lemma SweepLevel(s: Store, top: Id, done: set<Id>, frontier: seq<Id>, depth: nat, more: set<Id>, next: seq<Id>)
    requires Shaped(s) && Sweeping(s, top, done, frontier, depth) && Level(s, frontier, more, next)
    ensures Sweeping(s, top, done + more, next, depth + 1)
  {
    forall id | LiveChild(s, frontier, id)
      ensures LiveBelow(s, top, id)
      ensures s[id].kind == Budget ==> InFrontier(s, top, id, depth + 1)
    {
      ChildSwept(s, top, frontier, depth, id);
    }
    forall id {:trigger LiveBelow(s, top, id)} | LiveBelow(s, top, id) && id !in done + more
      ensures BelowAny(s, next, id)
    {
      StillBelow(s, frontier, more, next, id);
    }
  }

  lemma StillBelow(s: Store, frontier: seq<Id>, more: set<Id>, next: seq<Id>, id: Id)
    requires Shaped(s) && Level(s, frontier, more, next)
    requires id in s && Live(s[id].status) && BelowAny(s, frontier, id) && id !in more
    ensures BelowAny(s, next, id)
  {
    var b :| b in frontier && b in Above(s, s[id]);
    assert !LiveChild(s, frontier, id);
    var c := StepDown(s, s[id].parent.value, b);
    ActiveOnChain(s, id, c);
    assert LiveChild(s, frontier, c);
  }

  lemma ChildSwept(s: Store, top: Id, frontier: seq<Id>, depth: nat, id: Id)
    requires Tree(Budgets(s)) && id in s && s[id].parent.Some? && s[id].parent.value in frontier
    requires InFrontier(s, top, s[id].parent.value, depth)
    ensures top in Above(s, s[id])
    ensures s[id].kind == Budget ==> InFrontier(s, top, id, depth + 1)
  {
    if s[id].kind == Budget {
      assert Rooted(Budgets(s), s[id].parent.value);
      ConsChain(Budgets(s), id, s[id].parent.value);
    }
  }

  /** Below b on the chain of another budget comes a child of b. */
  lemma StepDown(s: Store, p: Id, b: Id) returns (c: Id)
    requires b in Chain(Budgets(s), p) && b != p
    ensures c in Chain(Budgets(s), p) && c in s && s[c].kind == Budget && s[c].parent == Some(b)
  {
    var chain := Chain(Budgets(s), p);
    var k :| 0 <= k < |chain| && chain[k] == b;
    ChainIn(Budgets(s), b, p);
    c := chain[k - 1];
    assert Budgets(s)[chain[k - 1]] == Some(chain[k]);
  }

  lemma ActiveOnChain(s: Store, id: Id, c: Id)
    requires Shaped(s) && id in s && c in Above(s, s[id])
    ensures c in s && Live(s[c].status)
  {
    assert Hangs(s, s[id]);
    ChainActive(s, s[id].parent.value);
  }

  lemma SweepEnds(s: Store, f: Node -> Option<Node>, top: Id, done: set<Id>, depth: nat)
    requires Sweeping(s, top, done, [], depth)
    ensures Visited(s, f, done) == map id | id in s :: if LiveBelow(s, top, id) then Visit(f, s[id]) else s[id]
  {
    forall id | id in s ensures id in done <==> LiveBelow(s, top, id) {
    }
  }

  /** No chain is longer than there are budgets. */
  lemma ChainBounded(pm: Parents, b: Id)
    requires Rooted(pm, b)
    ensures |Chain(pm, b)| <= |pm.Keys|
  {
    forall i, j | 0 <= i < j < |Chain(pm, b)| ensures Chain(pm, b)[i] != Chain(pm, b)[j] {
      ChainDistinct(pm, b, i, j);
    }
    DistinctFit(Chain(pm, b), pm.Keys);
  }

  lemma {:induction false} DistinctFit(c: seq<Id>, all: set<Id>)
    requires forall i, j :: 0 <= i < j < |c| ==> c[i] != c[j]
    requires forall i :: 0 <= i < |c| ==> c[i] in all
    ensures |c| <= |all|
  {
    if c != [] {
      var last := c[|c| - 1];
      DistinctFit(c[..|c| - 1], all - {last});
    }
  }
}
