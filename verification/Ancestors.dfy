/** The ancestors of listed nodes, loaded level by level for the whole listing instead of chain by chain, and
    what the budgets above set for a node, read off them (internal/core/tree/calc_decorate.go). */
module Ancestors {
  import opened Model
  import opened Chains
  import opened Charges
  import opened Rules
  import opened Steps
  import opened Nodes
  import opened TreeChecks
  import opened Policies

  const MAX_DEPTH := 64

  /** What a walk learnt of the nodes it loaded: their parents, and what they set. */
  datatype Ancestry = Ancestry(parent: map<Id, Id>, house: map<Id, House>, inherits: map<Id, bool>)

  /** What is known of a node is what is stored of it. */
  ghost predicate KnownAt(s: Store, a: Ancestry, id: Id) {
    && id in s && id in a.house && id in a.inherits
    && a.house[id] == s[id].policy.house && a.inherits[id] == s[id].inherits
    && (id in a.parent <==> s[id].parent.Some?)
    && (id in a.parent ==> Some(a.parent[id]) == s[id].parent)
  }

  ghost predicate Learnt(s: Store, a: Ancestry) {
    (forall id {:trigger id in a.house} :: id in a.house ==> KnownAt(s, a, id)) && a.parent.Keys <= a.house.Keys
  }

  /** What was loaded are budgets, and the parent of each is loaded too, or comes next. */
  ghost predicate LoadedUp(s: Store, a: Ancestry, frontier: set<Id>) {
    forall id {:trigger id in a.house} :: id in a.house ==> id in Budgets(s) && Reached(a, frontier, s[id].parent)
  }

  ghost predicate Reached(a: Ancestry, frontier: set<Id>, p: Option<Id>) {
    p.None? || p.value in a.house || p.value in frontier
  }

  /** What comes next are budgets no higher than so many levels below the root, where they are stored. */
  ghost predicate Shallow(s: Store, frontier: set<Id>, levels: int) {
    forall f {:trigger f in frontier} :: f in frontier && f in s ==> f in Budgets(s) && |Chain(Budgets(s), f)| <= levels
  }

  ghost predicate Asked(s: Store, a: Ancestry, start: seq<Id>, frontier: set<Id>) {
    forall b {:trigger b in start} :: b in start && b in s ==> b in a.house || b in frontier
  }

  /** The whole chain of b was loaded. */
  ghost predicate Complete(s: Store, a: Ancestry, b: Id) {
    Learnt(s, a) && forall d {:trigger d in a.house} :: d in Chain(Budgets(s), b) ==> d in a.house
  }

  lemma {:induction false} LoadedToTheRoot(s: Store, a: Ancestry, frontier: set<Id>, b: Id)
    requires Tree(Budgets(s)) && Learnt(s, a) && LoadedUp(s, a, frontier) && Shallow(s, frontier, 0)
    requires b in Budgets(s) && b in a.house
    ensures Complete(s, a, b)
    decreases |Chain(Budgets(s), b)|
  {
    ChainStep(Budgets(s), b);
    var p := s[b].parent;
    assert Budgets(s)[b] == p && Reached(a, frontier, p);
    if p.Some? {
      ChainOk(Budgets(s), p.value);
      assert p.value in s && p.value in a.house;
      LoadedToTheRoot(s, a, frontier, p.value);
    }
  }

  /** h is what the budgets above n set, strictest value by strictest value. */
  ghost predicate Governs(s: Store, n: Node, h: House) {
    Applies(h, NodesAbove(s, n)) && Plain(h)
  }

  /** n tells a budget nothing but what it sets. */
  function Bare(h: House, inherits: bool): Node {
    Node(Budget, None, Approved, map[], inherits, [], None, None, None, "", {},
         Policy({}, {}, None, false, false, false, h), Log(0, 0), NO_SIDE)
  }

  predicate SaysAs(m: Node, n: Node) {
    m.policy.house == n.policy.house && m.inherits == n.inherits
  }

  /** The budgets above a node, its parent first. */
  ghost function NodesAbove(s: Store, n: Node): seq<Node> {
    seq(|Above(s, n)|, i requires 0 <= i < |Above(s, n)| => At(s, Above(s, n)[i]))
  }

  ghost function At(s: Store, id: Id): Node {
    if id in s then s[id] else Bare(NO_HOUSE, false)
  }

  ghost predicate KnownAbove(s: Store, a: Ancestry, n: Node) {
    n.parent.Some? ==> n.parent.value in Budgets(s) && Complete(s, a, n.parent.value)
  }

  /** What is stored of batch priorities was accepted when it was set. */
  ghost predicate PrioritiesKnown(s: Store) {
    forall id :: id in s ==> PriorityKnown(s[id].policy.house.priority)
  }

  /** The budgets a node names are no deeper than the walk goes. */
  ghost predicate Flat(s: Store, n: Node) {
    Shallow(s, SetOf(Named(n)), MAX_DEPTH)
  }

  /** The budgets a node names: its parent and where its allocations come from. */
  function Named(n: Node): seq<Id> {
    (if n.parent.Some? then [n.parent.value] else [])
    + seq(|n.allocations|, i requires 0 <= i < |n.allocations| => n.allocations[i].budget)
  }

  function StartOf(listed: seq<Node>): seq<Id> {
    if listed == [] then [] else StartOf(listed[..|listed| - 1]) + Named(listed[|listed| - 1])
  }

  function Stricter(h: House, own: House): House {
    House(StricterRelease(h.release, own.release), StricterAmount(h.scratch, own.scratch),
          StricterPriority(h.priority, own.priority), h.jobs)
  }

  /** Release times that set nothing are written as none. */
  predicate Plain(h: House) {
    h.release == Normalized(h.release)
  }

  ghost predicate Folded(h: House, chain: seq<Node>) {
    && Strictest(AmountWithin, h.scratch, Scratches(chain))
    && Strictest(PriorityWithin, h.priority, Priorities(chain)) && PriorityKnown(h.priority)
    && Strictest(ReleaseWithin, h.release, Releases(chain)) && Plain(h)
  }

  function ParentOf(a: Ancestry, id: Id): Option<Id> {
    if id in a.parent then Some(a.parent[id]) else None
  }

  function TakenIn(a: Ancestry, e: Entry): Ancestry {
    var n := e.node;
    Ancestry(if n.parent.Some? then a.parent[e.id := n.parent.value] else a.parent,
             a.house[e.id := n.policy.house], a.inherits[e.id := n.inherits])
  }

  /** The parent of e, where it is not known yet. */
  function Ahead(a: Ancestry, next: seq<Id>, e: Entry): seq<Id> {
    if e.node.parent.Some? && e.node.parent.value !in TakenIn(a, e).house && e.node.parent.value !in next
    then [e.node.parent.value]
    else []
  }

  /** The level was taken in on top of was, and next are parents of it that were not known. */
  ghost predicate LevelIn(was: Ancestry, level: seq<Entry>, a: Ancestry, next: seq<Id>) {
    && was.house.Keys <= a.house.Keys
    && (forall e {:trigger e in level} :: e in level ==> e.id in a.house && Reached(a, SetOf(next), e.node.parent))
    && (forall id {:trigger id in a.house} :: id in a.house ==> id in was.house || Has(level, id))
    && (forall p {:trigger p in next} :: p in next ==> HasChild(level, p))
  }

  ghost predicate Has(level: seq<Entry>, id: Id) {
    exists e :: e in level && e.id == id
  }

  ghost predicate HasChild(level: seq<Entry>, p: Id) {
    exists e :: e in level && e.node.parent == Some(p)
  }

  function WithIds(ids: set<Id>): Query {
    Query(Some(ids), None, None, None, None, None)
  }

  /** out is the chain above id so far, p its next budget. */
  ghost predicate ClimbedTo(s: Store, a: Ancestry, id: Id, out: seq<Id>, seen: set<Id>, p: Option<Id>) {
    var c := Chain(Budgets(s), id);
    && |out| < |c| && c[0] == id && out == c[1..|out| + 1]
    && (forall x :: x in seen <==> x in c[..|out| + 1])
    && p == ParentOf(a, c[|out|])
  }

  class Decorator {
    const nodes: NodeStore

    constructor (nodes: NodeStore)
      ensures this.nodes == nodes
    {
      this.nodes := nodes;
    }

    ghost function S(): Store
      reads nodes
      requires nodes.Valid()
    {
      nodes.Contents()
    }

    /** In a tree of at most 64 levels, everything above the start is loaded, by one query a level. */
    method WalkAncestors(start: seq<Id>) returns (a: Ancestry)
      requires nodes.Valid() && Tree(Budgets(S())) && Shallow(S(), SetOf(start), MAX_DEPTH)
      ensures Learnt(S(), a)
      ensures forall b :: b in start && b in Budgets(S()) ==> Complete(S(), a, b)
    {
      ghost var s := S();
      a := Ancestry(map[], map[], map[]);
      var frontier := Distinct(start);
      var depth := 0;
      while frontier != [] && depth < MAX_DEPTH
        invariant 0 <= depth <= MAX_DEPTH
        invariant Learnt(s, a) && LoadedUp(s, a, SetOf(frontier)) && Shallow(s, SetOf(frontier), MAX_DEPTH - depth)
        invariant Asked(s, a, start, SetOf(frontier))
        decreases MAX_DEPTH - depth
      {
        var level := nodes.ListNodes(WithIds(SetOf(frontier)));
        var next;
        ghost var was, asked := a, SetOf(frontier);
        a, next := LoadLevel(level, a);
        LevelLoaded(s, was, asked, level, a, next, start, MAX_DEPTH - depth);
        frontier := next;
        depth := depth + 1;
      }
      NothingLeft(s, a, SetOf(frontier), start, MAX_DEPTH - depth);
    }

    method Distinct(start: seq<Id>) returns (ids: seq<Id>)
      ensures SetOf(ids) == SetOf(start)
    {
      ids := [];
      for i := 0 to |start|
        invariant SetOf(ids) == SetOf(start[..i])
      {
        assert SetOf(start[..i + 1]) == SetOf(start[..i]) + {start[i]};
        if start[i] !in ids {
          assert SetOf(ids + [start[i]]) == SetOf(ids) + {start[i]};
          ids := ids + [start[i]];
        }
      }
      assert start[..|start|] == start;
    }

    /** The nodes of one level are taken in, and their parents not known yet come next. */
    method LoadLevel(level: seq<Entry>, was: Ancestry) returns (a: Ancestry, next: seq<Id>)
      requires nodes.Valid() && Learnt(S(), was) && forall e :: e in level ==> Stored(S(), e)
      ensures Learnt(S(), a) && LevelIn(was, level, a, next)
    {
      a, next := was, [];
      for i := 0 to |level|
        invariant Learnt(S(), a) && LevelIn(was, level[..i], a, next)
      {
        var e := level[i];
        assert e in level && level[..i + 1] == level[..i] + [e];
        OneMore(S(), was, level[..i], a, next, e);
        next := next + Ahead(a, next, e);
        a := TakenIn(a, e);
      }
      assert level[..|level|] == level;
    }

    /** The budgets above id, its parent first. */
    method ChainAbove(a: Ancestry, id: Id) returns (out: seq<Id>)
      requires nodes.Valid() && Tree(Budgets(S())) && id in Budgets(S()) && Complete(S(), a, id)
      ensures [id] + out == Chain(Budgets(S()), id)
    {
      ghost var s := S();
      ChainOk(Budgets(s), id);
      out := [];
      var seen, p := {id}, ParentOf(a, id);
      while p.Some?
        invariant ClimbedTo(s, a, id, out, seen, p)
        decreases |Chain(Budgets(s), id)| - |out|
      {
        ClimbOnce(s, a, id, out, seen, p);
        if p.value in seen { break; }
        seen := seen + {p.value};
        out := out + [p.value];
        p := ParentOf(a, p.value);
      }
      if p.None? { ClimbOnce(s, a, id, out, seen, p); }
    }

    /** The chain above a node as the listing knows it. */
    method ChainOf(a: Ancestry, n: Node) returns (ids: seq<Id>)
      requires nodes.Valid() && Tree(Budgets(S())) && KnownAbove(S(), a, n)
      ensures ids == Above(S(), n)
    {
      if n.parent.None? { return []; }
      var above := ChainAbove(a, n.parent.value);
      return [n.parent.value] + above;
    }

    /** What the budgets above n set, strictest value by strictest value. */
    method Inherited(a: Ancestry, n: Node) returns (h: House)
      requires nodes.Valid() && Tree(Budgets(S())) && KnownAbove(S(), a, n) && PrioritiesKnown(S())
      ensures Governs(S(), n, h)
    {
      var ids := ChainOf(a, n);
      BareAbove(S(), a, n);
      var chain := Sayings(a, ids);
      SaysTheSame(chain, NodesAbove(S(), n));
      h := Fold(chain);
    }

    /** Every listed node with what the budgets above it set: one walk for all of them. */
    method Decorate(listed: seq<Node>) returns (houses: seq<House>)
      requires nodes.Valid() && Tree(Budgets(S())) && PrioritiesKnown(S())
      requires forall n :: n in listed ==> Placed(S(), n) && Flat(S(), n)
      ensures |houses| == |listed| && forall i :: 0 <= i < |listed| ==> Governs(S(), listed[i], houses[i])
    {
      StartsFlat(S(), listed);
      var a := WalkAncestors(StartOf(listed));
      AllKnown(S(), a, listed);
      houses := InheritedOfAll(a, listed);
    }

    method InheritedOfAll(a: Ancestry, listed: seq<Node>) returns (houses: seq<House>)
      requires nodes.Valid() && Tree(Budgets(S())) && PrioritiesKnown(S())
      requires forall i {:trigger listed[i]} :: 0 <= i < |listed| ==> KnownAbove(S(), a, listed[i])
      ensures |houses| == |listed| && forall i :: 0 <= i < |listed| ==> Governs(S(), listed[i], houses[i])
    {
      houses := [];
      for i := 0 to |listed|
        invariant |houses| == i && forall j :: 0 <= j < i ==> Governs(S(), listed[j], houses[j])
      {
        var h := Inherited(a, listed[i]);
        houses := houses + [h];
      }
    }
  }

  lemma AllKnown(s: Store, a: Ancestry, listed: seq<Node>)
    requires Tree(Budgets(s)) && forall n :: n in listed ==> Placed(s, n)
    requires forall b :: b in StartOf(listed) && b in Budgets(s) ==> Complete(s, a, b)
    ensures forall i {:trigger listed[i]} :: 0 <= i < |listed| ==> KnownAbove(s, a, listed[i])
  {
    forall i | 0 <= i < |listed| ensures KnownAbove(s, a, listed[i]) {
      ParentsAsked(listed, i);
      assert Placed(s, listed[i]);
    }
  }

  /** What each budget of a chain sets, as far as the listing has learnt it. */
  method Sayings(a: Ancestry, ids: seq<Id>) returns (chain: seq<Node>)
    requires forall i :: 0 <= i < |ids| ==> ids[i] in a.house && ids[i] in a.inherits
    ensures |chain| == |ids|
    ensures forall i :: 0 <= i < |ids| ==> chain[i] == Bare(a.house[ids[i]], a.inherits[ids[i]])
  {
    chain := [];
    for i := 0 to |ids|
      invariant |chain| == i && forall j :: 0 <= j < i ==> chain[j] == Bare(a.house[ids[j]], a.inherits[ids[j]])
    {
      chain := chain + [Bare(a.house[ids[i]], a.inherits[ids[i]])];
    }
  }

  method Fold(chain: seq<Node>) returns (h: House)
    requires forall i :: 0 <= i < |chain| ==> PriorityKnown(chain[i].policy.house.priority)
    ensures Applies(h, chain) && Plain(h)
  {
    h := NO_HOUSE;
    NothingFolded();
    for i := 0 to |chain|
      invariant Folded(h, chain[..i])
    {
      FoldedOn(h, chain, i);
      h := Stricter(h, chain[i].policy.house);
    }
    assert chain[..|chain|] == chain;
    var jobs := ResolveBatchJobs(chain);
    h := h.(jobs := jobs);
  }

  /** Chains that say the same in each place have the same applying. */
  lemma SaysTheSame(chain: seq<Node>, other: seq<Node>)
    requires |chain| == |other| && forall i :: 0 <= i < |chain| ==> SaysAs(chain[i], other[i])
    ensures forall h :: Applies(h, chain) <==> Applies(h, other)
  {
    SameSwitches(chain, other);
    assert Scratches(chain) == Scratches(other);
    assert Priorities(chain) == Priorities(other);
    assert Releases(chain) == Releases(other);
  }

  lemma {:induction false} StartsFlat(s: Store, listed: seq<Node>)
    requires forall n :: n in listed ==> Flat(s, n)
    ensures Shallow(s, SetOf(StartOf(listed)), MAX_DEPTH)
  {
    if listed != [] {
      var rest, n := listed[..|listed| - 1], listed[|listed| - 1];
      StartsFlat(s, rest);
      assert Flat(s, n);
      assert SetOf(StartOf(listed)) == SetOf(StartOf(rest)) + SetOf(Named(n));
    }
  }

  lemma {:induction false} ParentsAsked(listed: seq<Node>, i: nat)
    requires i < |listed|
    ensures listed[i].parent.Some? ==> listed[i].parent.value in StartOf(listed)
  {
    if i < |listed| - 1 {
      ParentsAsked(listed[..|listed| - 1], i);
    } else if listed[i].parent.Some? {
      assert Named(listed[i])[0] == listed[i].parent.value;
    }
  }

  lemma BareAbove(s: Store, a: Ancestry, n: Node)
    requires Tree(Budgets(s)) && KnownAbove(s, a, n) && PrioritiesKnown(s)
    ensures forall i :: 0 <= i < |Above(s, n)| ==>
      && Above(s, n)[i] in a.house && Above(s, n)[i] in a.inherits
      && SaysAs(Bare(a.house[Above(s, n)[i]], a.inherits[Above(s, n)[i]]), NodesAbove(s, n)[i])
      && PriorityKnown(NodesAbove(s, n)[i].policy.house.priority)
  {
    forall i | 0 <= i < |Above(s, n)| ensures Above(s, n)[i] in a.house && KnownAt(s, a, Above(s, n)[i]) {
      assert Above(s, n)[i] in Chain(Budgets(s), n.parent.value);
    }
  }

  // ── The folds, step by step ─────────────────────────────────────────────────

  lemma NothingFolded()
    ensures Folded(NO_HOUSE, [])
  {
    assert Scratches([]) == [] && Priorities([]) == [] && Releases([]) == [];
  }

  lemma FoldedOn(h: House, chain: seq<Node>, i: nat)
    requires i < |chain| && Folded(h, chain[..i]) && PriorityKnown(chain[i].policy.house.priority)
    ensures Folded(Stricter(h, chain[i].policy.house), chain[..i + 1])
  {
    var own := chain[i].policy.house;
    AmountOrder();
    PriorityOrder();
    ReleaseOrder();
    ReleaseMeets(h.release, own.release);
    StrictestStep(AmountWithin, h.scratch, Scratches(chain[..i]), own.scratch, StricterAmount(h.scratch, own.scratch));
    StrictestStep(PriorityWithin, h.priority, Priorities(chain[..i]), own.priority,
                  StricterPriority(h.priority, own.priority));
    StrictestStep(ReleaseWithin, h.release, Releases(chain[..i]), own.release, StricterRelease(h.release, own.release));
    assert Scratches(chain[..i + 1]) == Scratches(chain[..i]) + [own.scratch];
    assert Priorities(chain[..i + 1]) == Priorities(chain[..i]) + [own.priority];
    assert Releases(chain[..i + 1]) == Releases(chain[..i]) + [own.release];
  }

  lemma {:induction false} SameSwitches(chain: seq<Node>, other: seq<Node>)
    requires |chain| == |other| && forall i :: 0 <= i < |chain| ==> SaysAs(chain[i], other[i])
    ensures Switches(chain) == Switches(other)
  {
    if chain != [] {
      SameSwitches(chain[..|chain| - 1], other[..|other| - 1]);
    }
  }

  lemma OneMore(s: Store, was: Ancestry, level: seq<Entry>, a: Ancestry, next: seq<Id>, e: Entry)
    requires Learnt(s, a) && LevelIn(was, level, a, next) && Stored(s, e)
    ensures Learnt(s, TakenIn(a, e)) && LevelIn(was, level + [e], TakenIn(a, e), next + Ahead(a, next, e))
  {
    var b, more, next' := TakenIn(a, e), level + [e], next + Ahead(a, next, e);
    forall id | id in b.house ensures KnownAt(s, b, id) && (id in was.house || Has(more, id)) {
      if id != e.id {
        assert KnownAt(s, a, id);
        if id !in was.house { var d :| d in level && d.id == id; assert d in more; }
      } else {
        assert e in more;
      }
    }
    forall d | d in more ensures d.id in b.house && Reached(b, SetOf(next'), d.node.parent) {
      if d in level { assert Reached(a, SetOf(next), d.node.parent); }
    }
    forall p | p in next' ensures HasChild(more, p) {
      if p in next { var d :| d in level && d.node.parent == Some(p); assert d in more; }
      else { assert e in more; }
    }
  }

  /** One step up the chain, which has no budget twice. */
  lemma ClimbOnce(s: Store, a: Ancestry, id: Id, out: seq<Id>, seen: set<Id>, p: Option<Id>)
    requires Tree(Budgets(s)) && id in Budgets(s) && Complete(s, a, id) && ClimbedTo(s, a, id, out, seen, p)
    ensures p.None? ==> [id] + out == Chain(Budgets(s), id)
    ensures p.Some? ==>
      p.value !in seen && ClimbedTo(s, a, id, out + [p.value], seen + {p.value}, ParentOf(a, p.value))
  {
    var c, k := Chain(Budgets(s), id), |out|;
    ChainParent(s, a, id, k);
    if k + 1 < |c| {
      forall j | 0 <= j < k + 1 ensures c[j] != c[k + 1] { ChainDistinct(Budgets(s), id, j, k + 1); }
      assert c[..k + 2] == c[..k + 1] + [c[k + 1]];
      assert c[1..k + 2] == c[1..k + 1] + [c[k + 1]];
    } else {
      assert c == [id] + c[1..k + 1];
    }
  }

  lemma ChainParent(s: Store, a: Ancestry, id: Id, k: nat)
    requires Tree(Budgets(s)) && id in Budgets(s) && Complete(s, a, id) && k < |Chain(Budgets(s), id)|
    ensures var c := Chain(Budgets(s), id); ParentOf(a, c[k]) == (if k + 1 < |c| then Some(c[k + 1]) else None)
  {
    var c := Chain(Budgets(s), id);
    ChainOk(Budgets(s), id);
    assert c[k] in c && c[k] in a.house && KnownAt(s, a, c[k]);
    if k + 1 < |c| {
      assert Budgets(s)[c[k]] == Some(c[k + 1]);
    } else {
      assert c[k] == ROOT;
    }
  }

  lemma LevelLoaded(s: Store, was: Ancestry, frontier: set<Id>, level: seq<Entry>, a: Ancestry, next: seq<Id>,
                    start: seq<Id>, levels: int)
    requires Tree(Budgets(s)) && Lists(s, WithIds(frontier), level) && Learnt(s, a)
    requires LoadedUp(s, was, frontier) && Shallow(s, frontier, levels) && Asked(s, was, start, frontier)
    requires LevelIn(was, level, a, next)
    ensures LoadedUp(s, a, SetOf(next)) && Shallow(s, SetOf(next), levels - 1) && Asked(s, a, start, SetOf(next))
  {
    FrontierLoaded(s, frontier, level, a);
    forall id | id in a.house ensures id in Budgets(s) && Reached(a, SetOf(next), s[id].parent) {
      if id in was.house {
        StillReached(s, was, frontier, a, SetOf(next), id);
      } else {
        var e :| e in level && e.id == id;
        NextUp(s, frontier, level, e, levels);
      }
    }
    forall p | p in SetOf(next) && p in s ensures p in Budgets(s) && |Chain(Budgets(s), p)| <= levels - 1 {
      assert HasChild(level, p);
      var e :| e in level && e.node.parent == Some(p);
      NextUp(s, frontier, level, e, levels);
    }
  }

  lemma StillReached(s: Store, was: Ancestry, frontier: set<Id>, a: Ancestry, next: set<Id>, id: Id)
    requires Tree(Budgets(s)) && LoadedUp(s, was, frontier) && was.house.Keys <= a.house.Keys && id in was.house
    requires forall f {:trigger f in frontier} :: f in frontier && f in s ==> f in a.house
    ensures id in Budgets(s) && Reached(a, next, s[id].parent)
  {
    ChainStep(Budgets(s), id);
    assert Budgets(s)[id] == s[id].parent && Reached(was, frontier, s[id].parent);
  }

  lemma NextUp(s: Store, frontier: set<Id>, level: seq<Entry>, e: Entry, levels: int)
    requires Tree(Budgets(s)) && Lists(s, WithIds(frontier), level) && Shallow(s, frontier, levels)
    requires e in level
    ensures e.id in Budgets(s) && s[e.id] == e.node
    ensures e.node.parent.Some? ==>
      e.node.parent.value in Budgets(s) && |Chain(Budgets(s), e.node.parent.value)| <= levels - 1
  {
    assert Matches(e.id, e.node, WithIds(frontier));
    assert e.id in frontier && e.id in s && Budgets(s)[e.id] == e.node.parent;
    ChainStep(Budgets(s), e.id);
  }

  lemma FrontierLoaded(s: Store, frontier: set<Id>, level: seq<Entry>, a: Ancestry)
    requires Lists(s, WithIds(frontier), level)
    requires forall e :: e in level ==> e.id in a.house
    ensures forall f {:trigger f in frontier} :: f in frontier && f in s ==> f in a.house
  {
    forall f | f in frontier && f in s ensures f in a.house {
      assert Matches(f, s[f], WithIds(frontier));
      assert Entry(f, s[f]) in level;
    }
  }

  lemma NothingLeft(s: Store, a: Ancestry, frontier: set<Id>, start: seq<Id>, levels: nat)
    requires Tree(Budgets(s)) && Learnt(s, a) && LoadedUp(s, a, frontier) && Asked(s, a, start, frontier)
    requires Shallow(s, frontier, levels) && (frontier == {} || levels == 0)
    ensures forall b :: b in start && b in Budgets(s) ==> Complete(s, a, b)
  {
    NothingAtRoot(s, frontier, levels);
    forall b | b in start && b in Budgets(s) ensures Complete(s, a, b) {
      LoadedToTheRoot(s, a, frontier, b);
    }
  }

  /** Every stored budget has a chain. */
  lemma NothingAtRoot(s: Store, frontier: set<Id>, levels: nat)
    requires Tree(Budgets(s)) && Shallow(s, frontier, levels) && (frontier == {} || levels == 0)
    ensures Shallow(s, frontier, 0) && forall f :: f in frontier ==> f !in s
  {
    forall f | f in frontier ensures f !in s {
      if f in s {
        ChainOk(Budgets(s), f);
        assert false;
      }
    }
  }

  // ── The two ways agree ──────────────────────────────────────────────────────

  /** What applies to a node as the operations compute it: chain by chain. */
  method Resolve(checks: Checks, n: Node) returns (h: House)
    requires checks.nodes.Valid() && Tree(Budgets(checks.S())) && Placed(checks.S(), n) && PrioritiesKnown(checks.S())
    ensures Governs(checks.S(), n, h)
  {
    var chain := checks.ParentChain(n);
    var above := NodesOf(chain);
    StoredAbove(checks.S(), n, chain, above);
    h := ResolveAll(above);
  }

  method ResolveAll(above: seq<Node>) returns (h: House)
    requires forall n :: n in above ==> PriorityKnown(n.policy.house.priority)
    ensures Applies(h, above) && Plain(h)
  {
    var release := ResolveReleaseMax(above);
    var scratch := ResolveScratch(above);
    var priority := ResolveBatchPriority(above);
    var jobs := ResolveBatchJobs(above);
    h := House(release, scratch, priority, jobs);
  }

  method NodesOf(chain: seq<Entry>) returns (above: seq<Node>)
    ensures |above| == |chain| && forall i :: 0 <= i < |chain| ==> above[i] == chain[i].node
  {
    above := [];
    for i := 0 to |chain|
      invariant |above| == i && forall j :: 0 <= j < i ==> above[j] == chain[j].node
    {
      above := above + [chain[i].node];
    }
  }

  lemma StoredAbove(s: Store, n: Node, chain: seq<Entry>, above: seq<Node>)
    requires Entries(s, Above(s, n), chain) && PrioritiesKnown(s)
    requires |above| == |chain| && forall i :: 0 <= i < |chain| ==> above[i] == chain[i].node
    ensures above == NodesAbove(s, n) && forall m :: m in above ==> PriorityKnown(m.policy.house.priority)
  {
  }

  /** What the listing shows for a node is what the operations hold it to. */
  lemma ShownIsEnforced(s: Store, n: Node, shown: House, enforced: House)
    requires Governs(s, n, shown) && Governs(s, n, enforced)
    ensures shown == enforced
  {
    InAnyOrder(NodesAbove(s, n), NodesAbove(s, n), shown, enforced);
  }
}
