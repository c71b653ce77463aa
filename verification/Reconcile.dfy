/** The reconcile pass of the AI service: what the tree says should be there is carried out, what should not
    be is deleted (internal/provider/aiaas/sync.go). Days are counted as integers. */
module Reconcile {
  import opened Model
  import opened Charges
  import opened Rules
  import opened Steps
  import opened Reports
  import opened Runs
  import opened Nodes
  import opened TreeService
  import opened Assurance

  const AIAAS := "aiaas"

  /** An entry of a leaf's history: the status it led to, and the day, where the timestamp reads as one. */
  datatype Mark = Mark(status: Status, day: Option<Time>)

  /** What a project there is told of its days. */
  datatype Carried = Carried(endsAt: Option<Time>, deleteAt: Option<Time>)

  datatype Counts = Counts(synced: nat, ended: nat, expired: nat, deleted: nat, removed: nat, orphans: nat, failed: nat)

  // ── When a leaf's part there ends ───────────────────────────────────────────

  /** The last release the history knows of. */
  function LastRelease(marks: seq<Mark>): Option<Mark> {
    if marks == [] then None
    else if marks[|marks| - 1].status == Released then Some(marks[|marks| - 1])
    else LastRelease(marks[..|marks| - 1])
  }

  /** The last day: the end, or for a retired leaf the day before its release where that is sooner. */
  function End(n: Node, marks: seq<Mark>): Option<Time> {
    var release := LastRelease(marks);
    if !Retired(n.status) || release.None? || release.value.day.None? then n.end
    else if n.end.None? || release.value.day.value - 1 < n.end.value then Some(release.value.day.value - 1)
    else n.end
  }

  method EndOf(n: Node, marks: seq<Mark>) returns (end: Option<Time>)
    ensures end == End(n, marks)
  {
    end := n.end;
    if Retired(n.status) {
      var i := |marks|;
      assert marks[..i] == marks;
      while i > 0
        invariant 0 <= i <= |marks| && end == n.end && LastRelease(marks) == LastRelease(marks[..i])
      {
        i := i - 1;
        assert marks[..i + 1][..i] == marks[..i];
        if marks[i].status != Released { continue; }
        if marks[i].day.Some? {
          var day := marks[i].day.value - 1;
          if end.None? || day < end.value { end := Some(day); }
        }
        break;
      }
    }
  }

  function PlannedFor(end: Option<Time>, grace: int): Option<Time> {
    if grace <= 0 || end.None? then None else Some(end.value + 1 + grace)
  }

  /** The day a leaf's part there is deleted, if that is planned. */
  function DeleteAt(n: Node, marks: seq<Mark>, grace: int): Option<Time> {
    PlannedFor(End(n, marks), grace)
  }

  /** Nothing is deleted before its last day is over, and at the earliest as many days later as it has of
      grace. */
  lemma NotBeforeTheEnd(n: Node, marks: seq<Mark>, grace: int, now: Time)
    requires DeleteAt(n, marks, grace).Some? && now >= DeleteAt(n, marks, grace).value
    ensures grace > 0 && End(n, marks).Some? && now > End(n, marks).value + grace
    ensures Active(n.status) ==> n.end.Some? && now > n.end.value + grace
  {
  }

  // ── What the pass is to leave ───────────────────────────────────────────────

  /** The settings of a syncer and what it reads besides the tree: the resources of the service, the histories,
      and what the service measured. failing are the projects whose calls fail. */
  datatype Setting = Setting(
    mine: seq<Rid>, grace: int, history: map<Id, seq<Mark>>, measured: map<Id, map<Rid, nat>>, failing: set<Id>)

  function Marks(c: Setting, id: Id): seq<Mark> {
    if id in c.history then c.history[id] else []
  }

  function Measured(c: Setting, id: Id): map<Rid, nat> {
    if id in c.measured then c.measured[id] else map[]
  }

  /** The leaf is the service's business: it is carried out there or holds something of it. */
  predicate Concerns(c: Setting, n: Node) {
    AIAAS in n.side.bound || exists r :: r in c.mine && (EffectiveLimit(n, r) > 0 || EffectiveLimit(n, r) == UNLIMITED)
  }

  predicate Listed(c: Setting, n: Node) {
    n.kind == Project && (Active(n.status) || Retired(n.status)) && Concerns(c, n)
  }

  predicate Expired(c: Setting, now: Time, id: Id, n: Node) {
    var at := DeleteAt(n, Marks(c, id), c.grace);
    at.Some? && now >= at.value
  }

  /** The leaf goes for good: past its grace, or asked to. */
  predicate Leaves(c: Setting, now: Time, id: Id, n: Node) {
    Retired(n.status) && (Expired(c, now, id, n) || n.side.deletion)
  }

  predicate Due(c: Setting, now: Time, id: Id, n: Node) {
    Expired(c, now, id, n) || Leaves(c, now, id, n)
  }

  /** Whether there is a project for the leaf after the pass. */
  predicate ThereAfter(c: Setting, now: Time, there: bool, id: Id, n: Option<Node>) {
    if n.None? || !Listed(c, n.value) || Due(c, now, id, n.value) then there && id in c.failing
    else there || id !in c.failing
  }

  /** What is reported on the leaf, if anything is. */
  function ReportOn(c: Setting, now: Time, there: bool, id: Id, n: Node): Option<Report> {
    if Leaves(c, now, id, n) then
      if there && id in c.failing then None else Some(RemoveRetired(id, AIAAS))
    else if Expired(c, now, id, n) || id in c.failing then None
    else Some(Observe(id, AIAAS, Measured(c, id)))
  }

  function LeafAfter(c: Setting, now: Time, there: bool, id: Id, n: Node): Option<Node> {
    var w := ReportOn(c, now, there, id, n);
    if !Listed(c, n) || w.None? then Some(n) else Reported(n, w.value)
  }

  /** The tree once the leaves of done are through. */
  ghost function TreeAfter(c: Setting, now: Time, s: Store, there: set<Id>, done: set<Id>): Store {
    map id | id in s && (id in done ==> LeafAfter(c, now, id in there, id, s[id]).Some?)
      :: if id in done then LeafAfter(c, now, id in there, id, s[id]).value else s[id]
  }

  function NodeAt(s: Store, id: Id): Option<Node> {
    if id in s then Some(s[id]) else None
  }

  /** The projects there after a whole pass. */
  ghost function KeysAfter(c: Setting, now: Time, s: Store, there: set<Id>): set<Id> {
    set id | id in there + s.Keys && ThereAfter(c, now, id in there, id, NodeAt(s, id))
  }

  // ── The pass ────────────────────────────────────────────────────────────────

  /** The AI service: its projects by the leaf they belong to. */
  class AiService {
    var projects: map<Id, Carried>
    const failing: set<Id>

    constructor (failing: set<Id>)
      ensures this.failing == failing && projects == map[]
    {
      this.failing := failing;
      projects := map[];
    }

    /** The leaves there are projects for. */
    method List() returns (ids: seq<Id>)
      ensures SetOf(ids) == projects.Keys && forall i, j :: 0 <= i < j < |ids| ==> ids[i] != ids[j]
    {
      ids := [];
      var left := projects.Keys;
      while left != {}
        invariant SetOf(ids) + left == projects.Keys && SetOf(ids) !! left
        invariant forall i, j :: 0 <= i < j < |ids| ==> ids[i] != ids[j]
      {
        var id :| id in left;
        assert SetOf(ids + [id]) == SetOf(ids) + {id};
        assert forall i :: 0 <= i < |ids| ==> ids[i] in SetOf(ids);
        ids, left := ids + [id], left - {id};
      }
    }

    method Put(id: Id, p: Carried) returns (ok: bool)
      modifies this
      ensures ok <==> id !in failing
      ensures projects == if ok then old(projects)[id := p] else old(projects)
    {
      if id in failing { return false; }
      projects := projects[id := p];
      return true;
    }

    method Delete(id: Id) returns (ok: bool)
      modifies this
      ensures ok <==> id !in failing
      ensures projects == if ok then old(projects) - {id} else old(projects)
    {
      if id in failing { return false; }
      projects := projects - {id};
      return true;
    }
  }

  /** The projects there once the leaves of done are through. */
  ghost predicate Halfway(c: Setting, now: Time, s: Store, there: set<Id>, done: set<Id>, keys: set<Id>) {
    forall id {:trigger id in keys} ::
      id in keys <==> if id in done then ThereAfter(c, now, id in there, id, NodeAt(s, id)) else id in there
  }

  /** The projects there once what belongs to no leaf is through as far as handled. */
  ghost predicate Swept(c: Setting, now: Time, s: Store, there: set<Id>, known: set<Id>, handled: set<Id>,
                        keys: set<Id>) {
    forall id {:trigger id in keys} ::
      id in keys <==> if id in known then ThereAfter(c, now, id in there, id, NodeAt(s, id))
                      else id in there && (id in handled ==> id in c.failing)
  }

  function CarriedAs(n: Node, at: Option<Time>, now: Time): Carried {
    Carried(if Retired(n.status) then Some(now - 1) else n.end, at)
  }

  function Told(s: Store, w: Option<Report>): Store {
    if w.Some? then ApplyReport(s, w.value) else s
  }

  const LEAVES := Query(None, None, Some(Project), Some({Approved, ChangePending, Released, Archived}), None, None)

  class Syncer {
    const service: Service
    const remote: AiService
    const setting: Setting

    constructor (service: Service, remote: AiService, setting: Setting)
      ensures this.service == service && this.remote == remote && this.setting == setting
    {
      this.service := service;
      this.remote := remote;
      this.setting := setting;
    }

    ghost predicate Valid()
      reads service.nodes
    {
      service.nodes.Valid() && Neat(service.S()) && remote.failing == setting.failing
    }

    /** The leaves of the service. */
    method ListLeaves() returns (leaves: seq<Entry>)
      requires Valid()
      ensures DistinctIds(leaves)
      ensures forall e :: e in leaves <==> Stored(service.S(), e) && Listed(setting, e.node)
    {
      var all := service.nodes.ListNodes(LEAVES);
      ghost var s := service.S();
      leaves := [];
      for i := 0 to |all|
        invariant DistinctIds(leaves) && forall e :: e in leaves <==> e in all[..i] && Concerns(setting, e.node)
      {
        assert all[..i + 1] == all[..i] + [all[i]];
        if Concerns(setting, all[i].node) { leaves := leaves + [all[i]]; }
      }
      assert all[..|all|] == all;
      forall e | e in leaves ensures Stored(s, e) && Listed(setting, e.node) { assert Matches(e.id, e.node, LEAVES); }
      forall e | Stored(s, e) && Listed(setting, e.node) ensures e in leaves { assert Matches(e.id, s[e.id], LEAVES); }
    }

    /** One leaf: carried out, ended or deleted. */
    method SyncLeaf(e: Entry, there: bool, now: Time, was: Counts) returns (counts: Counts)
      requires Valid() && Stored(service.S(), e) && Listed(setting, e.node) && (there <==> e.id in remote.projects)
      modifies service.nodes, remote
      ensures Valid() && Synced(e, there, now, old(service.S()), old(remote.projects.Keys), was, counts)
    {
      var end := EndOf(e.node, Marks(setting, e.id));
      var at := PlannedFor(end, setting.grace);
      var expired := at.Some? && now >= at.value;
      if Retired(e.node.status) && (expired || e.node.side.deletion) {
        counts := DropLeaf(e, there, now, was);
      } else if expired {
        counts := ExpireLeaf(e, there, now, was);
      } else {
        counts := CarryLeaf(e, there, now, at, was);
      }
    }

    /** What handling the leaf makes of the service, the tree and the counts. */
    ghost predicate Synced(e: Entry, there: bool, now: Time, s: Store, keys: set<Id>, was: Counts, counts: Counts)
      requires service.nodes.Valid()
      reads service.nodes, remote
    {
      && remote.projects.Keys - {e.id} == keys - {e.id}
      && (e.id in remote.projects <==> ThereAfter(setting, now, there, e.id, Some(e.node)))
      && service.S() == Told(s, ReportOn(setting, now, there, e.id, e.node))
      && counts.deleted + counts.expired
         == was.deleted + was.expired + (if there && e.id !in remote.projects then 1 else 0)
      && counts.orphans == was.orphans && (e.id !in setting.failing ==> counts.failed == was.failed)
    }

    /** Its part there goes, then the leaf, unless another provider still carries it out. */
    method DropLeaf(e: Entry, there: bool, now: Time, was: Counts) returns (counts: Counts)
      requires Valid() && Stored(service.S(), e) && Listed(setting, e.node) && (there <==> e.id in remote.projects)
      requires Leaves(setting, now, e.id, e.node)
      modifies service.nodes, remote
      ensures Valid() && Synced(e, there, now, old(service.S()), old(remote.projects.Keys), was, counts)
    {
      counts := was;
      if there {
        var ok := remote.Delete(e.id);
        if !ok { return counts.(failed := counts.failed + 1); }
        counts := counts.(deleted := counts.deleted + 1);
      }
      Tell(RemoveRetired(e.id, AIAAS));
      var left := service.nodes.GetNode(e.id);
      if left.None? { counts := counts.(removed := counts.removed + 1); }
    }

    method ExpireLeaf(e: Entry, there: bool, now: Time, was: Counts) returns (counts: Counts)
      requires Valid() && Stored(service.S(), e) && Listed(setting, e.node) && (there <==> e.id in remote.projects)
      requires Expired(setting, now, e.id, e.node) && !Leaves(setting, now, e.id, e.node)
      modifies remote
      ensures Valid() && Synced(e, there, now, old(service.S()), old(remote.projects.Keys), was, counts)
    {
      if !there { return was; }
      var ok := remote.Delete(e.id);
      if !ok { return was.(failed := was.failed + 1); }
      return was.(expired := was.expired + 1);
    }

    /** A retired project stays there, ended the day before: nobody starts in it. */
    method CarryLeaf(e: Entry, there: bool, now: Time, at: Option<Time>, was: Counts) returns (counts: Counts)
      requires Valid() && Stored(service.S(), e) && Listed(setting, e.node) && (there <==> e.id in remote.projects)
      requires !Due(setting, now, e.id, e.node)
      modifies service.nodes, remote
      ensures Valid() && Synced(e, there, now, old(service.S()), old(remote.projects.Keys), was, counts)
      ensures e.id !in setting.failing ==> remote.projects[e.id] == CarriedAs(e.node, at, now)
    {
      counts := if Retired(e.node.status) then was.(ended := was.ended + 1) else was.(synced := was.synced + 1);
      var ok := remote.Put(e.id, CarriedAs(e.node, at, now));
      if !ok { return counts.(failed := counts.failed + 1); }
      Tell(Observe(e.id, AIAAS, Measured(setting, e.id)));
    }

    /** Brings the service in line with the tree: the leaves one by one, then what is there without a leaf. */
    method Pass(now: Time) returns (counts: Counts)
      requires Valid()
      modifies service.nodes, remote
      ensures Valid()
      ensures remote.projects.Keys == KeysAfter(setting, now, old(service.S()), old(remote.projects.Keys))
      ensures service.S() == TreeAfter(setting, now, old(service.S()), old(remote.projects.Keys), old(service.S()).Keys)
      ensures counts.deleted + counts.expired + counts.orphans == |old(remote.projects.Keys) - remote.projects.Keys|
      ensures setting.failing == {} ==> counts.failed == 0
    {
      ghost var s, there := service.S(), remote.projects.Keys;
      var leaves := ListLeaves();
      var listed := remote.List();
      counts := SyncLeaves(leaves, SetOf(listed), now, s);
      counts := DropOrphans(EntryIds(leaves), listed, now, s, counts);
      AllHandled(setting, now, s, there, leaves);
      SweptKeys(setting, now, s, there, EntryIds(leaves), remote.projects.Keys);
    }

    method SyncLeaves(leaves: seq<Entry>, there: set<Id>, now: Time, ghost s: Store) returns (counts: Counts)
      requires Valid() && service.S() == s && there == remote.projects.Keys && DistinctIds(leaves)
      requires forall e :: e in leaves ==> Stored(s, e) && Listed(setting, e.node)
      modifies service.nodes, remote
      ensures Valid() && service.S() == TreeAfter(setting, now, s, there, EntryIds(leaves))
      ensures Halfway(setting, now, s, there, EntryIds(leaves), remote.projects.Keys)
      ensures counts.deleted + counts.expired == |there - remote.projects.Keys| && counts.orphans == 0
      ensures setting.failing == {} ==> counts.failed == 0
    {
      counts := Counts(0, 0, 0, 0, 0, 0, 0);
      assert TreeAfter(setting, now, s, there, {}) == s && there - there == {};
      for i := 0 to |leaves|
        invariant Valid() && service.S() == TreeAfter(setting, now, s, there, EntryIds(leaves[..i]))
        invariant Halfway(setting, now, s, there, EntryIds(leaves[..i]), remote.projects.Keys)
        invariant counts.deleted + counts.expired == |there - remote.projects.Keys| && counts.orphans == 0
        invariant setting.failing == {} ==> counts.failed == 0
      {
        assert leaves[i] in leaves;
        NotListedYet(leaves, i);
        ghost var keys := remote.projects.Keys;
        counts := SyncLeaf(leaves[i], leaves[i].id in there, now, counts);
        LeafHandled(setting, now, s, there, EntryIds(leaves[..i]), leaves[i]);
        KeysHandled(setting, now, s, there, EntryIds(leaves[..i]), leaves[i], keys, remote.projects.Keys);
      }
      assert leaves[..|leaves|] == leaves;
    }

    /** What is there and belongs to none of the leaves is deleted. */
    method DropOrphans(known: set<Id>, listed: seq<Id>, now: Time, ghost s: Store, was: Counts) returns (counts: Counts)
      requires remote.failing == setting.failing && Halfway(setting, now, s, SetOf(listed), known, remote.projects.Keys)
      requires forall i, j :: 0 <= i < j < |listed| ==> listed[i] != listed[j]
      requires was.deleted + was.expired == |SetOf(listed) - remote.projects.Keys| && was.orphans == 0
      modifies remote
      ensures Swept(setting, now, s, SetOf(listed), known, SetOf(listed), remote.projects.Keys)
      ensures counts.deleted + counts.expired + counts.orphans == |SetOf(listed) - remote.projects.Keys|
      ensures setting.failing == {} ==> counts.failed == was.failed
    {
      counts := was;
      for i := 0 to |listed|
        invariant Swept(setting, now, s, SetOf(listed), known, SetOf(listed[..i]), remote.projects.Keys)
        invariant counts.deleted + counts.expired + counts.orphans == |SetOf(listed) - remote.projects.Keys|
        invariant setting.failing == {} ==> counts.failed == was.failed
      {
        OneSwept(setting, now, s, listed, known, i, remote.projects.Keys);
        if listed[i] in known { continue; }
        var ok := remote.Delete(listed[i]);
        counts := if ok then counts.(orphans := counts.orphans + 1) else counts.(failed := counts.failed + 1);
      }
      assert listed[..|listed|] == listed;
    }

    method Tell(w: Report)
      requires service.nodes.Valid() && Neat(service.S()) && !w.AddImport?
      modifies service.nodes
      ensures service.nodes.Valid() && Neat(service.S()) && service.S() == ApplyReport(old(service.S()), w)
    {
      NeatReport(service.S(), w);
      service.Record(w);
    }
  }

  lemma OneSwept(c: Setting, now: Time, s: Store, listed: seq<Id>, known: set<Id>, i: nat, keys: set<Id>)
    requires i < |listed| && forall j, k :: 0 <= j < k < |listed| ==> listed[j] != listed[k]
    requires Swept(c, now, s, SetOf(listed), known, SetOf(listed[..i]), keys)
    ensures var x := listed[i];
            var next := if x in known || x in c.failing then keys else keys - {x};
            && Swept(c, now, s, SetOf(listed), known, SetOf(listed[..i + 1]), next)
            && |SetOf(listed) - next| == |SetOf(listed) - keys| + if x in known || x in c.failing then 0 else 1
  {
    var x := listed[i];
    assert SetOf(listed[..i + 1]) == SetOf(listed[..i]) + {x};
    assert x !in SetOf(listed[..i]) && x in SetOf(listed);
    assert x in keys <==> if x in known then ThereAfter(c, now, true, x, NodeAt(s, x)) else true;
    if x !in known && x !in c.failing {
      assert SetOf(listed) - (keys - {x}) == (SetOf(listed) - keys) + {x};
    }
  }

  lemma SweptKeys(c: Setting, now: Time, s: Store, there: set<Id>, known: set<Id>, keys: set<Id>)
    requires Swept(c, now, s, there, known, there, keys)
    requires forall id :: id in known <==> id in s && Listed(c, s[id])
    ensures keys == KeysAfter(c, now, s, there)
  {
    forall id ensures id in keys <==> id in KeysAfter(c, now, s, there) {
    }
  }

  lemma LeafHandled(c: Setting, now: Time, s: Store, there: set<Id>, done: set<Id>, e: Entry)
    requires Stored(s, e) && e.id !in done && Neat(s) && Listed(c, e.node)
    ensures Told(TreeAfter(c, now, s, there, done), ReportOn(c, now, e.id in there, e.id, e.node))
            == TreeAfter(c, now, s, there, done + {e.id})
    ensures Stored(TreeAfter(c, now, s, there, done), e)
  {
    var t, u := TreeAfter(c, now, s, there, done), TreeAfter(c, now, s, there, done + {e.id});
    var w := ReportOn(c, now, e.id in there, e.id, e.node);
    assert t[e.id] == e.node;
    var v := Told(t, w);
    forall id ensures id in v <==> id in u {
    }
    forall id | id in v ensures v[id] == u[id] {
    }
  }

  lemma KeysHandled(c: Setting, now: Time, s: Store, there: set<Id>, done: set<Id>, e: Entry, keys: set<Id>,
                    next: set<Id>)
    requires Halfway(c, now, s, there, done, keys) && Stored(s, e) && e.id !in done
    requires next - {e.id} == keys - {e.id}
    requires e.id in next <==> ThereAfter(c, now, e.id in there, e.id, Some(e.node))
    ensures Halfway(c, now, s, there, done + {e.id}, next)
    ensures |there - next| == |there - keys| + if e.id in there && e.id !in next then 1 else 0
  {
    forall id
      ensures id in next <==>
        if id in done + {e.id} then ThereAfter(c, now, id in there, id, NodeAt(s, id)) else id in there
    {
      assert id != e.id ==> (id in next <==> id in next - {e.id}) && (id in keys <==> id in keys - {e.id});
      assert id in keys <==> if id in done then ThereAfter(c, now, id in there, id, NodeAt(s, id)) else id in there;
    }
    assert e.id in keys <==> e.id in there;
    if e.id in there && e.id !in next {
      assert there - next == (there - keys) + {e.id};
    } else {
      forall id ensures id in there - next <==> id in there - keys {
        assert id != e.id ==> (id in next <==> id in next - {e.id}) && (id in keys <==> id in keys - {e.id});
      }
      assert there - next == there - keys;
    }
  }

  /** Who is not listed is not changed. */
  lemma AllHandled(c: Setting, now: Time, s: Store, there: set<Id>, leaves: seq<Entry>)
    requires forall e :: e in leaves <==> Stored(s, e) && Listed(c, e.node)
    ensures TreeAfter(c, now, s, there, EntryIds(leaves)) == TreeAfter(c, now, s, there, s.Keys)
    ensures forall id :: id in EntryIds(leaves) <==> id in s && Listed(c, s[id])
  {
    forall id ensures id in EntryIds(leaves) <==> id in s && Listed(c, s[id]) {
      if id in s && Listed(c, s[id]) { assert Entry(id, s[id]) in leaves; }
    }
  }

  // ── What a pass achieves ────────────────────────────────────────────────────

  /** Where no call fails, there is afterwards a project for exactly the leaves of the service that are not due
      for deletion. */
  lemma ExactlyTheLeaves(c: Setting, now: Time, s: Store, there: set<Id>, id: Id)
    requires c.failing == {}
    ensures id in KeysAfter(c, now, s, there) <==> id in s && Listed(c, s[id]) && !Due(c, now, id, s[id])
  {
  }

  /** A failed call never costs a project that is to stay. */
  lemma FailureDeletesNothing(c: Setting, now: Time, s: Store, there: set<Id>, id: Id)
    requires id in there && id in s && Listed(c, s[id]) && !Due(c, now, id, s[id])
    ensures id in KeysAfter(c, now, s, there)
  {
  }

  lemma ReportedAgain(c: Setting, now: Time, there: bool, id: Id, n: Node)
    requires c.failing == {} && LeafAfter(c, now, there, id, n).Some?
    ensures var m := LeafAfter(c, now, there, id, n).value;
            && LeafAfter(c, now, !Due(c, now, id, n) && Listed(c, n), id, m) == Some(m)
            && (Listed(c, m) && !Due(c, now, id, m) <==> Listed(c, n) && !Due(c, now, id, n))
  {
    var m := LeafAfter(c, now, there, id, n).value;
    assert m == n.(side := m.side) && m.side.deletion == n.side.deletion;
    SameDays(c, now, id, n, m);
    if Listed(c, n) && Leaves(c, now, id, n) {
      assert m.side == n.side.(bound := n.side.bound - {AIAAS});
      assert m.side.bound - {AIAAS} == m.side.bound;
      assert Reported(m, RemoveRetired(id, AIAAS)) == Some(m);
    } else if Listed(c, n) && !Expired(c, now, id, n) {
      assert AIAAS in m.side.bound && Listed(c, m);
      assert m.side.bound + {AIAAS} == m.side.bound;
    }
  }

  /** The days of a leaf do not depend on what providers report. */
  lemma SameDays(c: Setting, now: Time, id: Id, n: Node, m: Node)
    requires m == n.(side := m.side) && m.side.deletion == n.side.deletion
    ensures Expired(c, now, id, m) == Expired(c, now, id, n) && Leaves(c, now, id, m) == Leaves(c, now, id, n)
  {
  }

  /** Where no call fails, a second pass at the same time deletes nothing and changes nothing: neither the set of
      projects there nor the tree. */
  lemma SecondPassIdle(c: Setting, now: Time, s: Store, there: set<Id>)
    requires c.failing == {}
    ensures var t, keys := TreeAfter(c, now, s, there, s.Keys), KeysAfter(c, now, s, there);
            KeysAfter(c, now, t, keys) == keys && TreeAfter(c, now, t, keys, t.Keys) == t
  {
    var t, keys := TreeAfter(c, now, s, there, s.Keys), KeysAfter(c, now, s, there);
    forall id | id in t
      ensures id in KeysAfter(c, now, t, keys) <==> id in keys
      ensures LeafAfter(c, now, id in keys, id, t[id]) == Some(t[id])
    {
      ReportedAgain(c, now, id in there, id, s[id]);
      ExactlyTheLeaves(c, now, s, there, id);
      ExactlyTheLeaves(c, now, t, keys, id);
    }
    forall id | id !in t ensures id !in KeysAfter(c, now, t, keys) && id !in keys {
      ExactlyTheLeaves(c, now, s, there, id);
      ExactlyTheLeaves(c, now, t, keys, id);
    }
    var u := TreeAfter(c, now, t, keys, t.Keys);
    assert u.Keys == t.Keys;
    forall id | id in t ensures u[id] == t[id] {
    }
  }

  /** The same service on a day when no call fails. */
  function Working(c: Setting): Setting {
    c.(failing := {})
  }

  lemma SameLeaves(c: Setting, now: Time, id: Id, n: Node)
    ensures Listed(Working(c), n) == Listed(c, n) && Due(Working(c), now, id, n) == Due(c, now, id, n)
    ensures Expired(Working(c), now, id, n) == Expired(c, now, id, n)
    ensures Leaves(Working(c), now, id, n) == Leaves(c, now, id, n)
  {
  }

  /** A leaf whose call failed is as it was, any other as without failures. */
  lemma FailedOrDone(c: Setting, now: Time, there: bool, then': bool, id: Id, n: Node)
    ensures var m := LeafAfter(c, now, there, id, n);
            m == Some(n) || m == LeafAfter(Working(c), now, then', id, n)
  {
    SameLeaves(c, now, id, n);
  }

  lemma LeafCaughtUp(c: Setting, now: Time, there: bool, then': bool, id: Id, n: Node)
    requires LeafAfter(c, now, there, id, n).Some?
    ensures var d, m := Working(c), LeafAfter(c, now, there, id, n).value;
            && LeafAfter(d, now, then', id, m) == LeafAfter(d, now, there, id, n)
            && (Listed(d, m) && !Due(d, now, id, m) <==> Listed(d, n) && !Due(d, now, id, n))
  {
    var d, m := Working(c), LeafAfter(c, now, there, id, n).value;
    FailedOrDone(c, now, there, there, id, n);
    SameLeaves(c, now, id, n);
    if m != n {
      ReportedAgain(d, now, there, id, n);
      assert LeafAfter(d, now, then', id, m) == LeafAfter(d, now, !Due(d, now, id, n) && Listed(d, n), id, m);
    }
  }

  /** Whatever failed, a later pass without failures catches up: it leaves the service and the tree as one such
      pass would have done alone. */
  lemma CatchesUp(c: Setting, now: Time, s: Store, there: set<Id>)
    ensures var d, t, keys := Working(c), TreeAfter(c, now, s, there, s.Keys), KeysAfter(c, now, s, there);
            && KeysAfter(d, now, t, keys) == KeysAfter(d, now, s, there)
            && TreeAfter(d, now, t, keys, t.Keys) == TreeAfter(d, now, s, there, s.Keys)
  {
    var d, t, keys := Working(c), TreeAfter(c, now, s, there, s.Keys), KeysAfter(c, now, s, there);
    forall id
      ensures id in KeysAfter(d, now, t, keys) <==> id in KeysAfter(d, now, s, there)
      ensures id in TreeAfter(d, now, t, keys, t.Keys) <==> id in TreeAfter(d, now, s, there, s.Keys)
      ensures id in TreeAfter(d, now, t, keys, t.Keys) && id in TreeAfter(d, now, s, there, s.Keys) ==>
        TreeAfter(d, now, t, keys, t.Keys)[id] == TreeAfter(d, now, s, there, s.Keys)[id]
    {
      ExactlyTheLeaves(d, now, s, there, id);
      ExactlyTheLeaves(d, now, t, keys, id);
      if id in t {
        LeafCaughtUp(c, now, id in there, id in keys, id, s[id]);
      } else if id in s {
        FailedOrDone(c, now, id in there, id in there, id, s[id]);
        RemovedIsDue(d, now, id in there, id, s[id]);
      }
    }
  }

  lemma RemovedIsDue(c: Setting, now: Time, there: bool, id: Id, n: Node)
    requires LeafAfter(c, now, there, id, n).None?
    ensures Due(c, now, id, n)
  {
  }
}
