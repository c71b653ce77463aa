/** The evaluation of the recorded days: one row per project and day, summed per day and per project
    (internal/core/usage/report.go), over exact numbers. */
module UsageReport {
  import opened Model

  /** What one project used, and had reserved, on one day. */
  datatype Row = Row(
    day: string,
    node: string,
    name: string,
    attributes: string,
    serverHours: real,
    vcpuHours: real,
    ramHours: real,
    storage: real,
    addresses: Option<real>,
    backfilled: bool,
    reserved: map<string, int>)

  /** The resources that count as cores, RAM and storage, and what a unit of RAM is in GB. */
  datatype Mapping = Mapping(cores: string, ram: string, storage: string, ramToGB: real)

  datatype Totals = Totals(
    serverHours: real, vcpuHours: real, ramHours: real,
    storageDays: real, sampledDays: int, addressDays: real, addressSampledDays: int,
    reservedCoreHours: real, reservedRamHours: real, reservedStorageDays: real)

  const NOTHING := Totals(0.0, 0.0, 0.0, 0.0, 0, 0.0, 0, 0.0, 0.0, 0.0)

  datatype DayTotals = DayTotals(day: string, projects: int, totals: Totals)

  datatype ProjectTotals = ProjectTotals(
    node: string, attributes: string, name: string, days: int, lastActive: string, totals: Totals)

  datatype Report = Report(days: seq<DayTotals>, backfilledDays: int, projects: seq<ProjectTotals>, totals: Totals)

  type Key = (string, string)

  /** A change of attributes splits a project. */
  function ProjectKey(d: Row): Key {
    (d.node, d.attributes)
  }

  function Reserved(d: Row, r: string): real {
    if r in d.reserved then d.reserved[r] as real else 0.0
  }

  function Add(t: Totals, d: Row, m: Mapping): Totals {
    Totals(
      t.serverHours + d.serverHours, t.vcpuHours + d.vcpuHours, t.ramHours + d.ramHours,
      if d.backfilled then t.storageDays else t.storageDays + d.storage,
      if d.backfilled then t.sampledDays else t.sampledDays + 1,
      if d.addresses.Some? then t.addressDays + d.addresses.value else t.addressDays,
      if d.addresses.Some? then t.addressSampledDays + 1 else t.addressSampledDays,
      t.reservedCoreHours + Reserved(d, m.cores) * 24.0,
      t.reservedRamHours + Reserved(d, m.ram) * m.ramToGB * 24.0,
      if d.backfilled then t.reservedStorageDays else t.reservedStorageDays + Reserved(d, m.storage))
  }

  function Merge(t: Totals, o: Totals): Totals {
    Totals(
      t.serverHours + o.serverHours, t.vcpuHours + o.vcpuHours, t.ramHours + o.ramHours,
      t.storageDays + o.storageDays, t.sampledDays + o.sampledDays,
      t.addressDays + o.addressDays, t.addressSampledDays + o.addressSampledDays,
      t.reservedCoreHours + o.reservedCoreHours, t.reservedRamHours + o.reservedRamHours,
      t.reservedStorageDays + o.reservedStorageDays)
  }

  // ── What the sums mean ──────────────────────────────────────────────────────

  /** A way to tell which rows belong together. */
  datatype Axis = ByDay | ByProject

  function KeyOf(axis: Axis, d: Row): Key {
    if axis == ByDay then (d.day, "") else ProjectKey(d)
  }

  /** The rows of the keys, summed. */
  ghost function SumOf(rows: seq<Row>, m: Mapping, axis: Axis, keys: iset<Key>): Totals {
    if rows == [] then NOTHING
    else
      var d, rest := rows[|rows| - 1], SumOf(rows[..|rows| - 1], m, axis, keys);
      if KeyOf(axis, d) in keys then Add(rest, d, m) else rest
  }

  /** How many rows the keys have. */
  ghost function CountOf(rows: seq<Row>, axis: Axis, keys: iset<Key>): int {
    if rows == [] then 0
    else CountOf(rows[..|rows| - 1], axis, keys) + if KeyOf(axis, rows[|rows| - 1]) in keys then 1 else 0
  }

  /** All rows, summed. */
  ghost function SumAll(rows: seq<Row>, m: Mapping): Totals {
    if rows == [] then NOTHING else Add(SumAll(rows[..|rows| - 1], m), rows[|rows| - 1], m)
  }

  /** Adding a row to one part of a sum adds it to the whole. */
  lemma AddMerged(t: Totals, o: Totals, d: Row, m: Mapping)
    ensures Merge(Add(t, d, m), o) == Add(Merge(t, o), d, m)
    ensures Merge(t, Add(o, d, m)) == Add(Merge(t, o), d, m)
  {
  }

  /** Rows of different keys are summed apart. */
  lemma {:induction false} SumSplits(rows: seq<Row>, m: Mapping, axis: Axis, keys: iset<Key>, k: Key)
    requires k !in keys
    ensures SumOf(rows, m, axis, keys + iset{k}) == Merge(SumOf(rows, m, axis, keys), SumOf(rows, m, axis, iset{k}))
    ensures CountOf(rows, axis, keys + iset{k}) == CountOf(rows, axis, keys) + CountOf(rows, axis, iset{k})
  {
    if rows != [] {
      var rest, d := rows[..|rows| - 1], rows[|rows| - 1];
      SumSplits(rest, m, axis, keys, k);
      AddMerged(SumOf(rest, m, axis, keys), SumOf(rest, m, axis, iset{k}), d, m);
    }
  }

  lemma {:induction false} NothingSummed(rows: seq<Row>, m: Mapping, axis: Axis)
    ensures SumOf(rows, m, axis, iset{}) == NOTHING && CountOf(rows, axis, iset{}) == 0
  {
    if rows != [] { NothingSummed(rows[..|rows| - 1], m, axis); }
  }

  /** With every key there, the sum is that of all rows, however they are told apart. */
  lemma {:induction false} SumComplete(rows: seq<Row>, m: Mapping, axis: Axis, keys: iset<Key>)
    requires forall d :: d in rows ==> KeyOf(axis, d) in keys
    ensures SumOf(rows, m, axis, keys) == SumAll(rows, m) && CountOf(rows, axis, keys) == |rows|
  {
    if rows != [] {
      assert rows[|rows| - 1] in rows;
      SumComplete(rows[..|rows| - 1], m, axis, keys);
    }
  }

  ghost function SumOfDays(days: seq<DayTotals>): Totals {
    if days == [] then NOTHING else Merge(SumOfDays(days[..|days| - 1]), days[|days| - 1].totals)
  }

  ghost function SumOfProjects(projects: seq<ProjectTotals>): Totals {
    if projects == [] then NOTHING
    else Merge(SumOfProjects(projects[..|projects| - 1]), projects[|projects| - 1].totals)
  }

  ghost function RowsOfDays(days: seq<DayTotals>): int {
    if days == [] then 0 else RowsOfDays(days[..|days| - 1]) + days[|days| - 1].projects
  }

  ghost function DaysOfProjects(projects: seq<ProjectTotals>): int {
    if projects == [] then 0 else DaysOfProjects(projects[..|projects| - 1]) + projects[|projects| - 1].days
  }

  // ── Groups ──────────────────────────────────────────────────────────────────

  /** The name of the project on its last day. */
  ghost function LastName(rows: seq<Row>, k: Key): string {
    if rows == [] then ""
    else if ProjectKey(rows[|rows| - 1]) == k then rows[|rows| - 1].name
    else LastName(rows[..|rows| - 1], k)
  }

  /** The last day of the project with servers, "" without one. */
  ghost function LastActive(rows: seq<Row>, k: Key): string {
    if rows == [] then ""
    else
      var d := rows[|rows| - 1];
      if ProjectKey(d) == k && d.serverHours > 0.0 then d.day else LastActive(rows[..|rows| - 1], k)
  }

  ghost predicate DayOk(rows: seq<Row>, m: Mapping, day: string, dt: DayTotals) {
    && dt.day == day && dt.totals == SumOf(rows, m, ByDay, iset{(day, "")})
    && dt.projects == CountOf(rows, ByDay, iset{(day, "")})
  }

  ghost predicate ProjectOk(rows: seq<Row>, m: Mapping, k: Key, p: ProjectTotals) {
    && (p.node, p.attributes) == k && p.totals == SumOf(rows, m, ByProject, iset{k})
    && p.days == CountOf(rows, ByProject, iset{k})
    && p.lastActive == LastActive(rows, k) && p.name == LastName(rows, k)
  }

  ghost predicate Occurs(rows: seq<Row>, axis: Axis, k: Key) {
    exists d :: d in rows && KeyOf(axis, d) == k
  }

  /** Every day of the rows has its group, and no other. */
  ghost predicate DaysGrouped(rows: seq<Row>, m: Mapping, days: map<string, DayTotals>) {
    forall day {:trigger day in days} ::
      (day in days <==> Occurs(rows, ByDay, (day, ""))) && (day in days ==> DayOk(rows, m, day, days[day]))
  }

  ghost predicate ProjectsGrouped(rows: seq<Row>, m: Mapping, projects: map<Key, ProjectTotals>) {
    forall k {:trigger k in projects} ::
      (k in projects <==> Occurs(rows, ByProject, k)) && (k in projects ==> ProjectOk(rows, m, k, projects[k]))
  }

  /** The row after those already grouped: its day and its project gain it, the others stay. */
  lemma GroupedOn(rows: seq<Row>, d: Row, m: Mapping, k: Key, axis: Axis)
    ensures SumOf(rows + [d], m, axis, iset{k})
            == if KeyOf(axis, d) == k then Add(SumOf(rows, m, axis, iset{k}), d, m) else SumOf(rows, m, axis, iset{k})
    ensures CountOf(rows + [d], axis, iset{k}) == CountOf(rows, axis, iset{k}) + if KeyOf(axis, d) == k then 1 else 0
  {
    assert (rows + [d])[..|rows|] == rows;
  }

  lemma {:induction false} NoRows(rows: seq<Row>, m: Mapping, k: Key, axis: Axis)
    requires forall d :: d in rows ==> KeyOf(axis, d) != k
    ensures SumOf(rows, m, axis, iset{k}) == NOTHING && CountOf(rows, axis, iset{k}) == 0
  {
    if rows != [] {
      assert rows[|rows| - 1] in rows;
      NoRows(rows[..|rows| - 1], m, k, axis);
    }
  }

  lemma OccursOn(rows: seq<Row>, d: Row, axis: Axis, k: Key)
    ensures Occurs(rows + [d], axis, k) <==> Occurs(rows, axis, k) || KeyOf(axis, d) == k
  {
    if Occurs(rows, axis, k) {
      var e :| e in rows && KeyOf(axis, e) == k;
      assert e in rows + [d];
    }
    if KeyOf(axis, d) == k { assert d in rows + [d]; }
  }

  function DayAfter(days: map<string, DayTotals>, d: Row, m: Mapping): DayTotals {
    var dt := if d.day in days then days[d.day] else DayTotals(d.day, 0, NOTHING);
    dt.(projects := dt.projects + 1, totals := Add(dt.totals, d, m))
  }

  lemma DaysGroupedOn(rows: seq<Row>, d: Row, m: Mapping, days: map<string, DayTotals>)
    requires DaysGrouped(rows, m, days)
    ensures DaysGrouped(rows + [d], m, days[d.day := DayAfter(days, d, m)])
  {
    var days' := days[d.day := DayAfter(days, d, m)];
    forall day
      ensures day in days' <==> Occurs(rows + [d], ByDay, (day, ""))
      ensures day in days' ==> DayOk(rows + [d], m, day, days'[day])
    {
      OccursOn(rows, d, ByDay, (day, ""));
      GroupedOn(rows, d, m, (day, ""), ByDay);
      assert day in days <==> Occurs(rows, ByDay, (day, ""));
      if day !in days { NoRows(rows, m, (day, ""), ByDay); }
    }
  }

  function ProjectAfter(projects: map<Key, ProjectTotals>, d: Row, m: Mapping): ProjectTotals {
    var k := ProjectKey(d);
    var p := if k in projects then projects[k] else ProjectTotals(d.node, d.attributes, "", 0, "", NOTHING);
    p.(name := d.name, days := p.days + 1, lastActive := if d.serverHours > 0.0 then d.day else p.lastActive,
       totals := Add(p.totals, d, m))
  }

  lemma ProjectsGroupedOn(rows: seq<Row>, d: Row, m: Mapping, projects: map<Key, ProjectTotals>)
    requires ProjectsGrouped(rows, m, projects)
    ensures ProjectsGrouped(rows + [d], m, projects[ProjectKey(d) := ProjectAfter(projects, d, m)])
  {
    var projects' := projects[ProjectKey(d) := ProjectAfter(projects, d, m)];
    assert (rows + [d])[..|rows|] == rows;
    forall k
      ensures k in projects' <==> Occurs(rows + [d], ByProject, k)
      ensures k in projects' ==> ProjectOk(rows + [d], m, k, projects'[k])
    {
      OccursOn(rows, d, ByProject, k);
      GroupedOn(rows, d, m, k, ByProject);
      assert k in projects <==> Occurs(rows, ByProject, k);
      if k !in projects {
        NoRows(rows, m, k, ByProject);
        NeverActive(rows, k);
      }
    }
  }

  lemma {:induction false} NeverActive(rows: seq<Row>, k: Key)
    requires !Occurs(rows, ByProject, k)
    ensures LastActive(rows, k) == "" && LastName(rows, k) == ""
  {
    if rows != [] {
      var d := rows[|rows| - 1];
      assert d in rows && KeyOf(ByProject, d) == ProjectKey(d);
      assert forall e :: e in rows[..|rows| - 1] ==> e in rows;
      NeverActive(rows[..|rows| - 1], k);
    }
  }

  // ── The report ──────────────────────────────────────────────────────────────

  /** Each row joins its day and its project. */
  method GroupRows(rows: seq<Row>, m: Mapping)
    returns (days: map<string, DayTotals>, backfilled: set<string>, projects: map<Key, ProjectTotals>)
    ensures DaysGrouped(rows, m, days) && ProjectsGrouped(rows, m, projects)
    ensures backfilled == set d | d in rows && d.backfilled :: d.day
  {
    days, backfilled, projects := map[], {}, map[];
    for i := 0 to |rows|
      invariant DaysGrouped(rows[..i], m, days) && ProjectsGrouped(rows[..i], m, projects)
      invariant backfilled == set d | d in rows[..i] && d.backfilled :: d.day
    {
      var d := rows[i];
      assert rows[..i + 1] == rows[..i] + [d];
      DaysGroupedOn(rows[..i], d, m, days);
      ProjectsGroupedOn(rows[..i], d, m, projects);
      days := days[d.day := DayAfter(days, d, m)];
      if d.backfilled { backfilled := backfilled + {d.day}; }
      projects := projects[ProjectKey(d) := ProjectAfter(projects, d, m)];
    }
    assert rows[..|rows|] == rows;
  }

  ghost function DayKeys(days: set<string>): iset<Key> {
    iset k: Key | k.0 in days && k.1 == ""
  }

  /** One entry for every day of the rows, and no two for the same. */
  ghost predicate OnePerDay(rows: seq<Row>, days: seq<DayTotals>) {
    && (forall i, j :: 0 <= i < j < |days| ==> days[i].day != days[j].day)
    && (forall d :: d in rows ==> exists i :: 0 <= i < |days| && days[i].day == d.day)
  }

  /** One entry for every project of the rows and every state of its attributes. */
  ghost predicate OnePerProject(rows: seq<Row>, projects: seq<ProjectTotals>) {
    && (forall i, j :: 0 <= i < j < |projects| ==>
        (projects[i].node, projects[i].attributes) != (projects[j].node, projects[j].attributes))
    && (forall d :: d in rows ==>
        exists i :: 0 <= i < |projects| && (projects[i].node, projects[i].attributes) == ProjectKey(d))
  }

  /** The days, in whatever order a map gives them, and their sum. */
  method CollectDays(ghost rows: seq<Row>, ghost m: Mapping, days: map<string, DayTotals>)
    returns (out: seq<DayTotals>, total: Totals)
    requires DaysGrouped(rows, m, days)
    ensures forall dt :: dt in out <==> exists day :: day in days && days[day] == dt
    ensures total == SumOfDays(out) == SumAll(rows, m) && RowsOfDays(out) == |rows| && OnePerDay(rows, out)
  {
    out, total := [], NOTHING;
    var left := days.Keys;
    ghost var done: set<string> := {};
    assert DayKeys(done) == iset{};
    NothingSummed(rows, m, ByDay);
    while left != {}
      invariant done + left == days.Keys && done !! left
      invariant forall dt :: dt in out <==> exists day :: day in done && days[day] == dt
      invariant forall i :: 0 <= i < |out| ==> out[i].day in done
      invariant forall i, j :: 0 <= i < j < |out| ==> out[i].day != out[j].day
      invariant total == SumOfDays(out) == SumOf(rows, m, ByDay, DayKeys(done))
      invariant RowsOfDays(out) == CountOf(rows, ByDay, DayKeys(done))
    {
      var day :| day in left;
      assert DayOk(rows, m, day, days[day]);
      SumSplits(rows, m, ByDay, DayKeys(done), (day, ""));
      assert DayKeys(done + {day}) == DayKeys(done) + iset{(day, "")};
      assert (out + [days[day]])[..|out|] == out;
      total := Merge(total, days[day].totals);
      out := out + [days[day]];
      left, done := left - {day}, done + {day};
    }
    forall d | d in rows
      ensures KeyOf(ByDay, d) in DayKeys(done) && exists i :: 0 <= i < |out| && out[i].day == d.day
    {
      assert Occurs(rows, ByDay, (d.day, ""));
      assert days[d.day] in out && DayOk(rows, m, d.day, days[d.day]);
    }
    SumComplete(rows, m, ByDay, DayKeys(done));
  }

  ghost function Keys(done: set<Key>): iset<Key> {
    iset k | k in done
  }

  method CollectProjects(ghost rows: seq<Row>, ghost m: Mapping, projects: map<Key, ProjectTotals>)
    returns (out: seq<ProjectTotals>)
    requires ProjectsGrouped(rows, m, projects)
    ensures forall p :: p in out <==> exists k :: k in projects && projects[k] == p
    ensures SumOfProjects(out) == SumAll(rows, m) && DaysOfProjects(out) == |rows| && OnePerProject(rows, out)
  {
    out := [];
    var left := projects.Keys;
    ghost var done: set<Key> := {};
    assert Keys(done) == iset{};
    NothingSummed(rows, m, ByProject);
    while left != {}
      invariant done + left == projects.Keys && done !! left
      invariant forall p :: p in out <==> exists k :: k in done && projects[k] == p
      invariant forall i :: 0 <= i < |out| ==> (out[i].node, out[i].attributes) in done
      invariant forall i, j :: 0 <= i < j < |out| ==>
        (out[i].node, out[i].attributes) != (out[j].node, out[j].attributes)
      invariant SumOfProjects(out) == SumOf(rows, m, ByProject, Keys(done))
      invariant DaysOfProjects(out) == CountOf(rows, ByProject, Keys(done))
    {
      var k :| k in left;
      assert ProjectOk(rows, m, k, projects[k]);
      SumSplits(rows, m, ByProject, Keys(done), k);
      assert Keys(done + {k}) == Keys(done) + iset{k};
      assert (out + [projects[k]])[..|out|] == out;
      out := out + [projects[k]];
      left, done := left - {k}, done + {k};
    }
    forall d | d in rows
      ensures KeyOf(ByProject, d) in Keys(done)
      ensures exists i :: 0 <= i < |out| && (out[i].node, out[i].attributes) == ProjectKey(d)
    {
      assert Occurs(rows, ByProject, ProjectKey(d));
      assert projects[ProjectKey(d)] in out && ProjectOk(rows, m, ProjectKey(d), projects[ProjectKey(d)]);
    }
    SumComplete(rows, m, ByProject, Keys(done));
  }

  /** The books balance: the days and the projects both sum to the total, which is that of all rows, and count
      every row once; each day and each project occurs once and is the sum of its own rows. */
  method BuildReport(rows: seq<Row>, m: Mapping) returns (r: Report)
    ensures SumOfDays(r.days) == r.totals && SumOfProjects(r.projects) == r.totals && r.totals == SumAll(rows, m)
    ensures RowsOfDays(r.days) == |rows| && DaysOfProjects(r.projects) == |rows|
    ensures OnePerDay(rows, r.days) && OnePerProject(rows, r.projects)
    ensures forall dt :: dt in r.days ==> DayOk(rows, m, dt.day, dt)
    ensures forall p :: p in r.projects ==> ProjectOk(rows, m, (p.node, p.attributes), p)
    ensures r.backfilledDays == |set d | d in rows && d.backfilled :: d.day|
  {
    var days, backfilled, projects := GroupRows(rows, m);
    var listed, total := CollectDays(rows, m, days);
    var named := CollectProjects(rows, m, projects);
    r := Report(listed, |backfilled|, named, total);
  }

  // ── In any order ────────────────────────────────────────────────────────────

  lemma {:induction false} SumAppend(a: seq<Row>, b: seq<Row>, m: Mapping)
    ensures SumAll(a + b, m) == Merge(SumAll(a, m), SumAll(b, m))
  {
    if b == [] {
      assert a + b == a;
    } else {
      var d, rest := b[|b| - 1], b[..|b| - 1];
      assert (a + b)[..|a + b| - 1] == a + rest;
      SumAppend(a, rest, m);
      AddMerged(SumAll(a, m), SumAll(rest, m), d, m);
    }
  }

  /** Two reports over adjoining periods add up to the report over both. */
  lemma PeriodsAddUp(a: seq<Row>, b: seq<Row>, m: Mapping, r: Report, q: Report, whole: Report)
    requires r.totals == SumAll(a, m) && q.totals == SumAll(b, m) && whole.totals == SumAll(a + b, m)
    ensures whole.totals == Merge(r.totals, q.totals)
  {
    SumAppend(a, b, m);
  }
}
