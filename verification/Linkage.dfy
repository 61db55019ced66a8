/** The tables of the drift API as a transition system. A handler that takes references checks
    them one scoped load at a time and writes afterwards; between any two of its steps other
    handlers run, and the rows it looked at may be deleted. */
module Linkage {
  import opened Collections
  import opened Names
  import opened Tenancy
  import opened Targets

  /** A value of the JSON config of a connection. */
  datatype Json = Text(text: string) | Flag(on: bool) | OtherJson

  type Config = map<string, Json>

  datatype Table = Sources | CISources | Connections | Schedules | Runs | Records

  /** A row of one of the tables. Ids are generated and shared by no two rows. */
  datatype Row =
    | SourceRow(org: Org)
    | CISourceRow(org: Org)
    | ConnectionRow(org: Org, config: Config, hasToken: bool)
    | ScheduleRow(org: Org, target: Target, enabled: bool)
    | RunRow(org: Org, connection: Option<Id>, source: Option<Id>, key: string, status: string, created: nat)
    | RecordRow(org: Org, about: Option<Id>, stateKey: string, via: Option<Id>, lastRun: Option<Id>, stage: string)

  datatype Ref = Ref(table: Table, id: Id)

  /** What a handler writes once its references are checked. */
  datatype Action =
    | CreateConnection(config: Config, hasToken: bool)
    | UpdateConnection(id: Id, config: Config, hasToken: bool, scope: Scope)
    | CreateSchedule(target: Target, enabled: bool)
    | UpdateSchedule(id: Id, target: Target, enabled: bool, scope: Scope)
    | Dispatch(target: Target, made: seq<Id>)
    | Observe(source: Id, key: string, connection: Option<Id>, run: Option<Id>, finding: bool, scope: Scope)

  /** A handler under way: the organization it writes in, the loads before it and behind it, and
      for a dispatch the CI source that the credential of its connection comes from, if any. */
  datatype Pending = Pending(org: Org, todo: seq<Ref>, done: set<Ref>, action: Action, credential: seq<Ref>)

  /** owner is history: the organization every id ever handed out was created in. */
  datatype World = World(owner: map<Id, Org>, rows: map<Id, Row>, pending: map<nat, Pending>, clock: nat)

  const EMPTY := World(map[], map[], map[], 0)

  datatype Label =
    | AddSource(id: Id, org: Org)
    | AddCISource(id: Id, org: Org)
    | Delete(ref: Ref, scope: Scope)
    | BeginCreateConnection(p: nat, org: Org, config: Config, hasToken: bool)
    | BeginUpdateConnection(p: nat, id: Id, config: Config, hasToken: bool, scope: Scope)
    | BeginCreateSchedule(p: nat, org: Org, target: Target, enabled: bool)
    | BeginUpdateSchedule(p: nat, id: Id, target: Target, enabled: bool, scope: Scope)
    | BeginDispatch(p: nat, org: Org, target: Target)
    | Fire(p: nat, schedule: Id, scope: Scope)
    | Callback(p: nat, run: Id, status: string, finding: bool)
    | Ingest(p: nat, source: Id, key: string, finding: bool, scope: Scope)
    | SetRecord(id: Id, from: set<string>, to: string, scope: Scope)
    | Check(p: nat)
    | Commit(p: nat, id: Id)

  // ---------------------------------------------------------------- references

  function TableOf(r: Row): Table {
    match r
    case SourceRow(_) => Sources
    case CISourceRow(_) => CISources
    case ConnectionRow(_, _, _) => Connections
    case ScheduleRow(_, _, _) => Schedules
    case RunRow(_, _, _, _, _, _) => Runs
    case RecordRow(_, _, _, _, _, _) => Records
  }

  function SourceRefs(items: seq<Item>): seq<Ref> {
    if items == [] then []
    else (if items[0].source == "" then [] else [Ref(Sources, items[0].source)]) + SourceRefs(items[1..])
  }

  function TargetRefs(t: Target): seq<Ref> {
    (if t.connection == "" then [] else [Ref(Connections, t.connection)]) + SourceRefs(Items(t))
  }

  /** The loads of a dispatch, which takes the connection without looking whether it is blank. */
  function DispatchRefs(t: Target): seq<Ref> {
    [Ref(Connections, t.connection)] + SourceRefs(Items(t))
  }

  /** config.ci_source_id as the write side reads it: only a non-blank string is a reference. */
  function CIReference(config: Config): seq<Ref> {
    if "ci_source_id" in config && config["ci_source_id"].Text? && !Blank(config["ci_source_id"].text)
    then [Ref(CISources, config["ci_source_id"].text)] else []
  }

  /** ...and as the dispatch chain reads it: any non-empty string, and only without an own token. */
  function TokenReference(c: Row): seq<Ref> {
    if c.ConnectionRow? && !c.hasToken && "ci_source_id" in c.config && c.config["ci_source_id"].Text?
       && c.config["ci_source_id"].text != ""
    then [Ref(CISources, c.config["ci_source_id"].text)] else []
  }

  function Maybe(table: Table, o: Option<Id>): seq<Ref> {
    if o.Some? then [Ref(table, o.value)] else []
  }

  function RefsOf(r: Row): seq<Ref> {
    match r
    case ConnectionRow(_, config, _) => CIReference(config)
    case ScheduleRow(_, target, _) => TargetRefs(target)
    case RunRow(_, connection, source, _, _, _) => Maybe(Connections, connection) + Maybe(Sources, source)
    case RecordRow(_, about, _, via, lastRun, _) => Maybe(Sources, about) + Maybe(Connections, via) + Maybe(Runs, lastRun)
    case _ => []
  }

  predicate Exists(w: World, r: Ref) {
    r.id in w.rows && TableOf(w.rows[r.id]) == r.table
  }

  /** A by-id read under a scope. */
  predicate Loads(w: World, r: Ref, scope: Scope) {
    Exists(w, r) && Permits(scope, w.rows[r.id].org)
  }

  // ---------------------------------------------------------------- steps

  function Begin(w: World, p: nat, org: Org, todo: seq<Ref>, action: Action): World {
    if p in w.pending then w else w.(pending := w.pending[p := Pending(org, todo, {}, action, [])])
  }

  function Drop(w: World, p: nat): World {
    w.(pending := w.pending - {p})
  }

  predicate Fresh(w: World, id: Id) {
    id !in w.owner && !Blank(id)
  }

  function AddRow(w: World, id: Id, row: Row): World {
    if Fresh(w, id) then w.(owner := w.owner[id := row.org], rows := w.rows[id := row]) else w
  }

  function Update(w: World, id: Id, row: Row): World {
    w.(rows := w.rows[id := row])
  }

  function Forget(o: Option<Id>, id: Id): Option<Id> {
    if o == Some(id) then None else o
  }

  /** ON DELETE SET NULL on runs and records. */
  function Unlinked(row: Row, r: Ref): Row {
    match row
    case RunRow(_, connection, source, _, _, _) =>
      if r.table == Sources then row.(source := Forget(source, r.id))
      else if r.table == Connections then row.(connection := Forget(connection, r.id)) else row
    case RecordRow(_, about, _, via, lastRun, _) =>
      if r.table == Sources then row.(about := Forget(about, r.id))
      else if r.table == Connections then row.(via := Forget(via, r.id))
      else if r.table == Runs then row.(lastRun := Forget(lastRun, r.id)) else row
    case _ => row
  }

  /** The user-facing deletes; references held in JSON are left dangling. */
  function DeleteRow(w: World, r: Ref): World {
    w.(rows := map id | id in w.rows && id != r.id :: Unlinked(w.rows[id], r))
  }

  /** One load of a pending handler: a row that is not reachable refuses the whole request. A
      dispatch that has loaded its connection learns which CI source its token comes from. */
  function CheckNext(w: World, p: nat): World
    requires p in w.pending && w.pending[p].todo != []
  {
    var q := w.pending[p];
    var r := q.todo[0];
    if !Loads(w, r, OrganizationScope(q.org)) then Drop(w, p)
    else
      var more := if q.action.Dispatch? then TokenReference(w.rows[r.id]) else [];
      w.(pending := w.pending[p := q.(todo := q.todo[1..] + more, done := q.done + {r}, credential := q.credential + more)])
  }

  /** The foreign keys of a row about to be written. */
  predicate KeysPresent(w: World, refs: seq<Ref>) {
    forall r :: r in refs ==> Exists(w, r)
  }

  function NewRun(w: World, org: Org, t: Target, item: Item): Row {
    RunRow(org, Some(t.connection), if item.source == "" then None else Some(item.source), item.key, "dispatched", w.clock)
  }

  function Failed(row: Row): Row {
    if row.RunRow? && row.status == "dispatched" then row.(status := "failed") else row
  }

  function FailRuns(w: World, ids: seq<Id>): World {
    w.(rows := map id | id in w.rows :: if id in ids then Failed(w.rows[id]) else w.rows[id])
  }

  /** The next insert of a dispatch; a violated foreign key fails the rows made so far. */
  function MakeRun(w: World, p: nat, id: Id): World
    requires p in w.pending && w.pending[p].action.Dispatch?
  {
    var q := w.pending[p];
    var t, made := q.action.target, q.action.made;
    if |made| >= |Items(t)| then Drop(w, p)
    else
      var row := NewRun(w, q.org, t, Items(t)[|made|]);
      if !KeysPresent(w, RefsOf(row)) then Drop(FailRuns(w, made), p)
      else if !Fresh(w, id) then w
      else
        AddRow(w, id, row).(clock := w.clock + 1, pending := w.pending[p := q.(action := Dispatch(t, made + [id]))])
  }

  /** A live record of a state: what the partial unique index on (source, key) ranges over. */
  predicate IsLive(r: Row, source: Id, key: string) {
    r.RecordRow? && r.about == Some(source) && r.stateKey == key && r.stage != "resolved"
  }

  function Closed(row: Row, a: Action): Row
    requires a.Observe?
  {
    if IsLive(row, a.source, a.key) && Permits(a.scope, row.org) then row.(stage := "resolved") else row
  }

  /** The record statement: with a finding, update the live record of the state, whatever its
      organization, or insert one under the source's organization; without, close the live
      record within scope. */
  function WriteRecord(w: World, a: Action, id: Id): World
    requires a.Observe?
  {
    if !a.finding then w.(rows := map r | r in w.rows :: Closed(w.rows[r], a))
    else if !Loads(w, Ref(Sources, a.source), a.scope) || !KeysPresent(w, Maybe(Connections, a.connection) + Maybe(Runs, a.run)) then w
    else if id in w.rows && IsLive(w.rows[id], a.source, a.key) then
      var live := w.rows[id];
      Update(w, id, live.(via := Coalesce(a.connection, live.via), lastRun := Coalesce(a.run, live.lastRun)))
    else if exists r :: r in w.rows && IsLive(w.rows[r], a.source, a.key) then w
    else AddRow(w, id, RecordRow(w.rows[a.source].org, Some(a.source), a.key, a.connection, a.run, "open"))
  }

  /** The write of a handler all of whose references have been checked. */
  function CommitAction(w: World, p: nat, id: Id): World
    requires p in w.pending && w.pending[p].todo == []
  {
    var q := w.pending[p];
    match q.action
    case CreateConnection(config, hasToken) => Drop(AddRow(w, id, ConnectionRow(q.org, config, hasToken)), p)
    case UpdateConnection(cid, config, hasToken, scope) =>
      if !Loads(w, Ref(Connections, cid), scope) then Drop(w, p)
      else Drop(Update(w, cid, w.rows[cid].(config := config, hasToken := hasToken || w.rows[cid].hasToken)), p)
    case CreateSchedule(target, enabled) => Drop(AddRow(w, id, ScheduleRow(q.org, target, enabled)), p)
    case UpdateSchedule(sid, target, enabled, scope) =>
      if !Loads(w, Ref(Schedules, sid), scope) then Drop(w, p)
      else Drop(Update(w, sid, w.rows[sid].(target := target, enabled := enabled)), p)
    case Dispatch(_, _) => MakeRun(w, p, id)
    case Observe(_, _, _, _, _, _) => Drop(WriteRecord(w, q.action, id), p)
  }

  /** An authenticated callback: the result lands on the run under the run's own authority, and
      the record statement follows if the run names a source. */
  function PostResult(w: World, p: nat, rid: Id, status: string, finding: bool): World
    requires rid in w.rows && w.rows[rid].RunRow?
  {
    var run := w.rows[rid];
    if p in w.pending || !Permits(SystemScope(run.org), run.org) then w
    else
      var posted := Update(w, rid, run.(status := if status == "" then "completed" else status));
      if run.source.None? || run.source.value == "" then posted
      else
        Begin(posted, p, TrimSpace(run.org), [Ref(Sources, run.source.value)],
              Observe(run.source.value, run.key, run.connection, Some(rid), finding, SystemScope(run.org)))
  }

  function Step(w: World, l: Label): World {
    match l
    case AddSource(id, org) => AddRow(w, id, SourceRow(org))
    case AddCISource(id, org) => AddRow(w, id, CISourceRow(org))
    case Delete(r, scope) => if Loads(w, r, scope) then DeleteRow(w, r) else w
    case BeginCreateConnection(p, org, config, hasToken) =>
      if Blank(org) then w else Begin(w, p, org, CIReference(config), CreateConnection(config, hasToken))
    case BeginUpdateConnection(p, id, config, hasToken, scope) =>
      if Loads(w, Ref(Connections, id), scope)
      then Begin(w, p, w.rows[id].org, CIReference(config), UpdateConnection(id, config, hasToken, scope)) else w
    case BeginCreateSchedule(p, org, target, enabled) =>
      if Blank(org) then w else Begin(w, p, org, TargetRefs(target), CreateSchedule(target, enabled))
    case BeginUpdateSchedule(p, id, target, enabled, scope) =>
      if Loads(w, Ref(Schedules, id), scope)
      then Begin(w, p, w.rows[id].org, TargetRefs(target), UpdateSchedule(id, target, enabled, scope)) else w
    case BeginDispatch(p, org, target) => if Blank(org) then w else Begin(w, p, org, DispatchRefs(target), Dispatch(target, []))
    case Fire(p, id, scope) =>
      if Loads(w, Ref(Schedules, id), scope) && !Blank(w.rows[id].org)
      then Begin(w, p, TrimSpace(w.rows[id].org), DispatchRefs(w.rows[id].target), Dispatch(w.rows[id].target, [])) else w
    case Callback(p, rid, status, finding) => if Exists(w, Ref(Runs, rid)) then PostResult(w, p, rid, status, finding) else w
    case Ingest(p, source, key, finding, scope) =>
      if Loads(w, Ref(Sources, source), scope)
      then Begin(w, p, w.rows[source].org, [Ref(Sources, source)], Observe(source, key, None, None, finding, scope)) else w
    case SetRecord(id, from, to, scope) =>
      if Loads(w, Ref(Records, id), scope) && w.rows[id].stage in from then Update(w, id, w.rows[id].(stage := to)) else w
    case Check(p) => if p in w.pending && w.pending[p].todo != [] then CheckNext(w, p) else w
    case Commit(p, id) => if p in w.pending && w.pending[p].todo == [] then CommitAction(w, p, id) else w
  }

  function Exec(w: World, ls: seq<Label>): World {
    if ls == [] then w else Step(Exec(w, ls[..|ls| - 1]), ls[|ls| - 1])
  }

  // ---------------------------------------------------------------- the invariant

  ghost predicate Owned(owner: map<Id, Org>, id: Id, org: Org) {
    id in owner && owner[id] == org
  }

  ghost predicate AllOwned(owner: map<Id, Org>, refs: seq<Ref>, org: Org) {
    forall r :: r in refs ==> Owned(owner, r.id, org)
  }

  ghost predicate RowOk(owner: map<Id, Org>, id: Id, row: Row) {
    Owned(owner, id, row.org) && AllOwned(owner, RefsOf(row), row.org)
  }

  /** The references a write will put into a row. */
  function WriteRefs(a: Action): seq<Ref> {
    match a
    case CreateConnection(config, _) => CIReference(config)
    case UpdateConnection(_, config, _, _) => CIReference(config)
    case CreateSchedule(target, _) => TargetRefs(target)
    case UpdateSchedule(_, target, _, _) => TargetRefs(target)
    case Dispatch(target, _) => DispatchRefs(target)
    case Observe(source, _, _, _, _, _) => [Ref(Sources, source)]
  }

  /** Rows a write addresses that were found by other means than a reference check. */
  function OwnRefs(a: Action): seq<Ref> {
    match a
    case UpdateConnection(id, _, _, _) => [Ref(Connections, id)]
    case UpdateSchedule(id, _, _, _) => [Ref(Schedules, id)]
    case Dispatch(_, made) => seq(|made|, i requires 0 <= i < |made| => Ref(Runs, made[i]))
    case Observe(_, _, connection, run, _, _) => Maybe(Connections, connection) + Maybe(Runs, run)
    case _ => []
  }

  ghost predicate PendingOk(owner: map<Id, Org>, q: Pending) {
    && (forall r :: r in WriteRefs(q.action) ==> r in q.done || r in q.todo)
    && (forall r :: r in q.credential ==> r in q.done || r in q.todo)
    && (forall r :: r in q.done ==> Owned(owner, r.id, q.org))
    && AllOwned(owner, OwnRefs(q.action), q.org)
  }

  ghost predicate Inv(w: World) {
    && (forall id :: id in w.rows ==> RowOk(w.owner, id, w.rows[id]))
    && (forall p :: p in w.pending ==> PendingOk(w.owner, w.pending[p]))
  }

  ghost predicate Grows(w: World, v: World) {
    Extends(w.owner, v.owner)
  }

  /** Neither world has a row outside org that the other lacks or has differently. */
  ghost predicate OthersKept(w: World, v: World, org: Org) {
    && (forall id :: id in w.rows && w.rows[id].org != org ==> id in v.rows && v.rows[id] == w.rows[id])
    && (forall id :: id in v.rows && v.rows[id].org != org ==> id in w.rows && v.rows[id] == w.rows[id])
  }

  /** What a step acting for org may make of a world. */
  ghost predicate Fine(w: World, v: World, org: Org) {
    Grows(w, v) && Inv(v) && OthersKept(w, v, org)
  }

  ghost predicate Extends(a: map<Id, Org>, b: map<Id, Org>) {
    forall id :: id in a ==> id in b && b[id] == a[id]
  }

  lemma RefsGrow(a: map<Id, Org>, b: map<Id, Org>, refs: seq<Ref>, org: Org)
    requires Extends(a, b) && AllOwned(a, refs, org)
    ensures AllOwned(b, refs, org)
  {
  }

  lemma RowGrows(a: map<Id, Org>, b: map<Id, Org>, id: Id, row: Row)
    requires Extends(a, b) && RowOk(a, id, row)
    ensures id in a && RowOk(b, id, row)
  {
    RefsGrow(a, b, RefsOf(row), row.org);
  }

  lemma PendingGrows(a: map<Id, Org>, b: map<Id, Org>, q: Pending)
    requires Extends(a, b) && PendingOk(a, q)
    ensures PendingOk(b, q)
  {
    RefsGrow(a, b, OwnRefs(q.action), q.org);
  }

  lemma AddRowFine(w: World, id: Id, row: Row)
    requires Inv(w) && AllOwned(w.owner, RefsOf(row), row.org)
    ensures Fine(w, AddRow(w, id, row), row.org)
  {
    if Fresh(w, id) {
      var v := AddRow(w, id, row);
      forall r | r in w.rows ensures r != id && RowOk(v.owner, r, w.rows[r]) { RowGrows(w.owner, v.owner, r, w.rows[r]); }
      forall p | p in w.pending ensures PendingOk(v.owner, w.pending[p]) { PendingGrows(w.owner, v.owner, w.pending[p]); }
      RefsGrow(w.owner, v.owner, RefsOf(row), row.org);
      assert forall r :: r in v.rows ==> r == id || (r in w.rows && v.rows[r] == w.rows[r]);
    }
  }

  lemma UpdateFine(w: World, id: Id, row: Row)
    requires Inv(w) && id in w.rows && w.rows[id].org == row.org && AllOwned(w.owner, RefsOf(row), row.org)
    ensures Fine(w, Update(w, id, row), row.org)
  {
  }

  lemma BeginFine(w: World, p: nat, org: Org, todo: seq<Ref>, a: Action)
    requires Inv(w) && (forall r :: r in WriteRefs(a) ==> r in todo) && AllOwned(w.owner, OwnRefs(a), org)
    ensures forall o :: Fine(w, Begin(w, p, org, todo, a), o)
  {
  }

  lemma DropFine(w: World, v: World, p: nat, org: Org)
    requires Fine(w, v, org)
    ensures Fine(w, Drop(v, p), org)
  {
  }

  lemma UnlinkedKeeps(row: Row, r: Ref)
    ensures Unlinked(row, r).org == row.org && TableOf(Unlinked(row, r)) == TableOf(row)
    ensures forall s :: s in RefsOf(Unlinked(row, r)) ==> s in RefsOf(row)
    ensures r !in RefsOf(row) ==> Unlinked(row, r) == row
  {
  }

  lemma DeleteFine(w: World, r: Ref)
    requires Inv(w) && Exists(w, r)
    ensures Fine(w, DeleteRow(w, r), w.rows[r.id].org)
  {
    var v, org := DeleteRow(w, r), w.rows[r.id].org;
    forall id | id in v.rows
      ensures RowOk(v.owner, id, v.rows[id]) && v.rows[id].org == w.rows[id].org && (v.rows[id].org == org || v.rows[id] == w.rows[id])
    {
      UnlinkedKeeps(w.rows[id], r);
    }
  }

  lemma LoadsOwned(w: World, r: Ref, org: Org)
    requires Inv(w) && Loads(w, r, OrganizationScope(org))
    ensures Owned(w.owner, r.id, org)
  {
    DerivedScopes(org, w.rows[r.id].org);
  }

  lemma CheckFine(w: World, p: nat)
    requires Inv(w) && p in w.pending && w.pending[p].todo != []
    ensures forall o :: Fine(w, CheckNext(w, p), o)
  {
    var q, v := w.pending[p], CheckNext(w, p);
    var r := q.todo[0];
    if Loads(w, r, OrganizationScope(q.org)) {
      LoadsOwned(w, r, q.org);
      OneRefDone(w.owner, q, if q.action.Dispatch? then TokenReference(w.rows[r.id]) else []);
      PendingSet(w, p, v.pending[p]);
    }
  }

  lemma PendingSet(w: World, p: nat, q: Pending)
    requires Inv(w) && PendingOk(w.owner, q)
    ensures var v := w.(pending := w.pending[p := q]); forall o :: Fine(w, v, o)
  {
  }

  lemma OneRefDone(owner: map<Id, Org>, q: Pending, more: seq<Ref>)
    requires PendingOk(owner, q) && q.todo != [] && Owned(owner, q.todo[0].id, q.org)
    ensures PendingOk(owner, q.(todo := q.todo[1..] + more, done := q.done + {q.todo[0]}, credential := q.credential + more))
  {
    assert forall s :: s in q.todo ==> s == q.todo[0] || s in q.todo[1..];
  }

  lemma {:induction false} ItemRef(items: seq<Item>, i: nat)
    requires i < |items| && items[i].source != ""
    ensures Ref(Sources, items[i].source) in SourceRefs(items)
  {
    if i > 0 {
      ItemRef(items[1..], i - 1);
    }
  }

  lemma FailFine(w: World, ids: seq<Id>, org: Org)
    requires Inv(w) && forall id :: id in ids ==> Owned(w.owner, id, org)
    ensures Fine(w, FailRuns(w, ids), org)
  {
    var v := FailRuns(w, ids);
    forall id | id in w.rows
      ensures RowOk(v.owner, id, v.rows[id]) && v.rows[id].org == w.rows[id].org
    {
      assert RefsOf(v.rows[id]) == RefsOf(w.rows[id]);
    }
  }

  lemma NewRunRefs(w: World, p: nat)
    requires Inv(w) && p in w.pending && w.pending[p].action.Dispatch? && w.pending[p].todo == []
    requires |w.pending[p].action.made| < |Items(w.pending[p].action.target)|
    ensures var q := w.pending[p];
            AllOwned(w.owner, RefsOf(NewRun(w, q.org, q.action.target, Items(q.action.target)[|q.action.made|])), q.org)
  {
    var q := w.pending[p];
    var t, n := q.action.target, |q.action.made|;
    var item := Items(t)[n];
    assert PendingOk(w.owner, q);
    assert Ref(Connections, t.connection) in WriteRefs(q.action);
    assert Owned(w.owner, t.connection, q.org);
    if item.source != "" {
      ItemRef(Items(t), n);
      assert Ref(Sources, item.source) in WriteRefs(q.action);
      assert Owned(w.owner, item.source, q.org);
    }
    RunRefs(w, q.org, t, item);
  }

  lemma RunRefs(w: World, org: Org, t: Target, item: Item)
    ensures RefsOf(NewRun(w, org, t, item))
            == [Ref(Connections, t.connection)] + (if item.source == "" then [] else [Ref(Sources, item.source)])
  {
  }

  lemma MadeOwned(w: World, p: nat)
    requires Inv(w) && p in w.pending && w.pending[p].action.Dispatch?
    ensures forall id :: id in w.pending[p].action.made ==> Owned(w.owner, id, w.pending[p].org)
  {
    var q := w.pending[p];
    forall i | 0 <= i < |q.action.made| ensures Owned(w.owner, q.action.made[i], q.org) {
      assert OwnRefs(q.action)[i] in OwnRefs(q.action);
    }
  }

  lemma MakeRunFine(w: World, p: nat, id: Id)
    requires Inv(w) && p in w.pending && w.pending[p].action.Dispatch? && w.pending[p].todo == []
    ensures Fine(w, MakeRun(w, p, id), w.pending[p].org)
  {
    var q := w.pending[p];
    var t, made := q.action.target, q.action.made;
    if |made| < |Items(t)| {
      NewRunRefs(w, p);
      MadeOwned(w, p);
      var row := NewRun(w, q.org, t, Items(t)[|made|]);
      if !KeysPresent(w, RefsOf(row)) {
        FailFine(w, made, q.org);
      } else if Fresh(w, id) {
        AddRowFine(w, id, row);
        MadeMore(w, AddRow(w, id, row), p, id);
      }
    }
  }

  lemma MadeMore(w: World, v: World, p: nat, id: Id)
    requires Inv(v) && p in w.pending && w.pending == v.pending && w.pending[p].action.Dispatch? && Owned(v.owner, id, w.pending[p].org)
    ensures var q := w.pending[p];
            Inv(v.(clock := w.clock + 1, pending := w.pending[p := q.(action := Dispatch(q.action.target, q.action.made + [id]))]))
  {
    MadeOwned(v, p);
    var q := w.pending[p];
    assert PendingOk(v.owner, q);
    assert PendingOk(v.owner, q.(action := Dispatch(q.action.target, q.action.made + [id])));
  }

  lemma ClosedFine(w: World, a: Action, org: Org)
    requires Inv(w) && a.Observe? && !a.finding && Owned(w.owner, a.source, org)
    ensures Fine(w, WriteRecord(w, a, ""), org)
  {
    var v := WriteRecord(w, a, "");
    forall id | id in w.rows
      ensures RowOk(v.owner, id, v.rows[id]) && v.rows[id].org == w.rows[id].org && (v.rows[id].org == org || v.rows[id] == w.rows[id])
    {
      assert RefsOf(v.rows[id]) == RefsOf(w.rows[id]);
      LiveOwned(w, id, a.source, a.key);
    }
  }

  /** The linkage at work: whoever writes through a source finds only its own live records. */
  lemma LiveOwned(w: World, id: Id, source: Id, key: string)
    requires Inv(w) && id in w.rows
    ensures IsLive(w.rows[id], source, key) ==> Owned(w.owner, source, w.rows[id].org)
  {
    if IsLive(w.rows[id], source, key) {
      assert RefsOf(w.rows[id])[0] == Ref(Sources, source);
    }
  }

  lemma WriteRecordFine(w: World, a: Action, id: Id, org: Org)
    requires Inv(w) && a.Observe? && Owned(w.owner, a.source, org) && AllOwned(w.owner, OwnRefs(a), org)
    ensures Fine(w, WriteRecord(w, a, id), org)
  {
    if !a.finding {
      ClosedFine(w, a, org);
    } else if id in w.rows && IsLive(w.rows[id], a.source, a.key) {
      LiveOwned(w, id, a.source, a.key);
      var live := w.rows[id];
      UpdateFine(w, id, live.(via := Coalesce(a.connection, live.via), lastRun := Coalesce(a.run, live.lastRun)));
    } else if Exists(w, Ref(Sources, a.source)) {
      AddRowFine(w, id, RecordRow(w.rows[a.source].org, Some(a.source), a.key, a.connection, a.run, "open"));
    }
  }

  lemma CommitFine(w: World, p: nat, id: Id)
    requires Inv(w) && p in w.pending && w.pending[p].todo == []
    ensures Fine(w, CommitAction(w, p, id), w.pending[p].org)
  {
    var q := w.pending[p];
    assert AllOwned(w.owner, WriteRefs(q.action), q.org);
    match q.action
    case Dispatch(_, _) => MakeRunFine(w, p, id);
    case Observe(source, _, _, _, _, _) =>
      assert Ref(Sources, source) in WriteRefs(q.action);
      WriteRecordFine(w, q.action, id, q.org);
      DropFine(w, WriteRecord(w, q.action, id), p, q.org);
    case CreateConnection(config, hasToken) =>
      AddRowFine(w, id, ConnectionRow(q.org, config, hasToken));
      DropFine(w, AddRow(w, id, ConnectionRow(q.org, config, hasToken)), p, q.org);
    case CreateSchedule(target, enabled) =>
      AddRowFine(w, id, ScheduleRow(q.org, target, enabled));
      DropFine(w, AddRow(w, id, ScheduleRow(q.org, target, enabled)), p, q.org);
    case UpdateConnection(cid, config, hasToken, scope) =>
      assert OwnRefs(q.action)[0] in OwnRefs(q.action);
      DropFine(w, w, p, q.org);
      if Loads(w, Ref(Connections, cid), scope) {
        var row := w.rows[cid].(config := config, hasToken := hasToken || w.rows[cid].hasToken);
        UpdateFine(w, cid, row);
        DropFine(w, Update(w, cid, row), p, q.org);
      }
    case UpdateSchedule(sid, target, enabled, scope) =>
      assert OwnRefs(q.action)[0] in OwnRefs(q.action);
      DropFine(w, w, p, q.org);
      if Loads(w, Ref(Schedules, sid), scope) {
        var row := w.rows[sid].(target := target, enabled := enabled);
        UpdateFine(w, sid, row);
        DropFine(w, Update(w, sid, row), p, q.org);
      }
  }

  lemma RunsOwnRefs(w: World, rid: Id, a: Action)
    requires Inv(w) && rid in w.rows && w.rows[rid].RunRow? && a.Observe?
    requires a.connection == w.rows[rid].connection && a.run == Some(rid)
    ensures AllOwned(w.owner, OwnRefs(a), w.rows[rid].org)
  {
    forall r | r in OwnRefs(a) ensures r.id == rid || r in RefsOf(w.rows[rid]) {
      assert r in Maybe(Connections, a.connection) || r in Maybe(Runs, a.run);
    }
  }

  lemma PostFine(w: World, p: nat, rid: Id, status: string, finding: bool)
    requires Inv(w) && rid in w.rows && w.rows[rid].RunRow?
    ensures Fine(w, PostResult(w, p, rid, status, finding), w.rows[rid].org)
  {
    var run := w.rows[rid];
    DerivedScopes(run.org, run.org);
    if p !in w.pending && Permits(SystemScope(run.org), run.org) {
      var row := run.(status := if status == "" then "completed" else status);
      assert RefsOf(row) == RefsOf(run);
      UpdateFine(w, rid, row);
      if run.source.Some? && run.source.value != "" {
        var a := Observe(run.source.value, run.key, run.connection, Some(rid), finding, SystemScope(run.org));
        BeginAfter(w, Update(w, rid, row), p, rid, a);
      }
    }
  }

  lemma BeginAfter(w: World, v: World, p: nat, rid: Id, a: Action)
    requires Inv(w) && rid in w.rows && w.rows[rid].RunRow? && Fine(w, v, w.rows[rid].org) && a.Observe?
    requires a.connection == w.rows[rid].connection && a.run == Some(rid)
    ensures Fine(w, Begin(v, p, w.rows[rid].org, [Ref(Sources, a.source)], a), w.rows[rid].org)
  {
    var org := w.rows[rid].org;
    RunsOwnRefs(w, rid, a);
    assert AllOwned(v.owner, OwnRefs(a), org);
    BeginFine(v, p, org, [Ref(Sources, a.source)], a);
    assert Fine(v, Begin(v, p, org, [Ref(Sources, a.source)], a), org);
  }

  /** The organization on whose behalf a step acts: that of the row or the handler it names. */
  function ActingOrg(w: World, l: Label): Org {
    match l
    case AddSource(_, org) => org
    case AddCISource(_, org) => org
    case Delete(r, _) => if r.id in w.rows then w.rows[r.id].org else ""
    case Callback(_, rid, _, _) => if rid in w.rows then w.rows[rid].org else ""
    case SetRecord(id, _, _, _) => if id in w.rows then w.rows[id].org else ""
    case Commit(p, _) => if p in w.pending then w.pending[p].org else ""
    case _ => ""
  }

  lemma BeginStepFine(w: World, l: Label)
    requires Inv(w)
    requires l.BeginCreateConnection? || l.BeginUpdateConnection? || l.BeginCreateSchedule? || l.BeginUpdateSchedule?
    ensures Fine(w, Step(w, l), ActingOrg(w, l))
  {
    match l
    case BeginCreateConnection(p, org, config, hasToken) =>
      BeginFine(w, p, org, CIReference(config), CreateConnection(config, hasToken));
    case BeginUpdateConnection(p, id, config, hasToken, scope) =>
      if Loads(w, Ref(Connections, id), scope) {
        BeginFine(w, p, w.rows[id].org, CIReference(config), UpdateConnection(id, config, hasToken, scope));
      }
    case BeginCreateSchedule(p, org, target, enabled) =>
      BeginFine(w, p, org, TargetRefs(target), CreateSchedule(target, enabled));
    case BeginUpdateSchedule(p, id, target, enabled, scope) =>
      if Loads(w, Ref(Schedules, id), scope) {
        BeginFine(w, p, w.rows[id].org, TargetRefs(target), UpdateSchedule(id, target, enabled, scope));
      }
  }

  lemma DispatchFine(w: World, p: nat, org: Org, t: Target)
    requires Inv(w)
    ensures forall o :: Fine(w, Begin(w, p, org, DispatchRefs(t), Dispatch(t, [])), o)
  {
    BeginFine(w, p, org, DispatchRefs(t), Dispatch(t, []));
  }

  lemma DispatchStepFine(w: World, l: Label)
    requires Inv(w) && (l.BeginDispatch? || l.Fire?)
    ensures Fine(w, Step(w, l), ActingOrg(w, l))
  {
    if l.BeginDispatch? {
      DispatchFine(w, l.p, l.org, l.target);
    } else if Loads(w, Ref(Schedules, l.schedule), l.scope) {
      DispatchFine(w, l.p, TrimSpace(w.rows[l.schedule].org), w.rows[l.schedule].target);
    }
  }

  lemma RowStepFine(w: World, l: Label)
    requires Inv(w) && (l.AddSource? || l.AddCISource? || l.Delete?)
    ensures Fine(w, Step(w, l), ActingOrg(w, l))
  {
    match l
    case AddSource(id, org) => AddRowFine(w, id, SourceRow(org));
    case AddCISource(id, org) => AddRowFine(w, id, CISourceRow(org));
    case Delete(r, scope) => if Loads(w, r, scope) { DeleteFine(w, r); }
  }

  lemma SetRecordFine(w: World, id: Id, to: string)
    requires Inv(w) && Exists(w, Ref(Records, id))
    ensures Fine(w, Update(w, id, w.rows[id].(stage := to)), w.rows[id].org)
  {
    var row := w.rows[id].(stage := to);
    StageKeepsRefs(w.rows[id], to);
    UpdateFine(w, id, row);
  }

  lemma StageKeepsRefs(row: Row, to: string)
    requires row.RecordRow?
    ensures RefsOf(row.(stage := to)) == RefsOf(row)
  {
  }

  lemma SetRecordStepFine(w: World, l: Label)
    requires Inv(w) && l.SetRecord?
    ensures Fine(w, Step(w, l), ActingOrg(w, l))
  {
    if Exists(w, Ref(Records, l.id)) {
      SetRecordFine(w, l.id, l.to);
    }
  }

  lemma ReportStepFine(w: World, l: Label)
    requires Inv(w) && (l.Callback? || l.Ingest?)
    ensures Fine(w, Step(w, l), ActingOrg(w, l))
  {
    if l.Callback? {
      if Exists(w, Ref(Runs, l.run)) { PostFine(w, l.p, l.run, l.status, l.finding); }
    } else if Loads(w, Ref(Sources, l.source), l.scope) {
      BeginFine(w, l.p, w.rows[l.source].org, [Ref(Sources, l.source)], Observe(l.source, l.key, None, None, l.finding, l.scope));
    }
  }

  lemma PendingStepFine(w: World, l: Label)
    requires Inv(w) && (l.Check? || l.Commit?)
    ensures Fine(w, Step(w, l), ActingOrg(w, l))
  {
    if l.Check? {
      if l.p in w.pending && w.pending[l.p].todo != [] { CheckFine(w, l.p); }
    } else if l.p in w.pending && w.pending[l.p].todo == [] {
      CommitFine(w, l.p, l.id);
    }
  }

  lemma StepFine(w: World, l: Label)
    requires Inv(w)
    ensures Fine(w, Step(w, l), ActingOrg(w, l))
  {
    if l.AddSource? || l.AddCISource? || l.Delete? {
      RowStepFine(w, l);
    } else if l.SetRecord? {
      SetRecordStepFine(w, l);
    } else if l.BeginDispatch? || l.Fire? {
      DispatchStepFine(w, l);
    } else if l.Callback? || l.Ingest? {
      ReportStepFine(w, l);
    } else if l.Check? || l.Commit? {
      PendingStepFine(w, l);
    } else {
      BeginStepFine(w, l);
    }
  }

  // ---------------------------------------------------------------- what it says

  lemma {:induction false} ExecInv(w: World, ls: seq<Label>)
    requires Inv(w)
    ensures Inv(Exec(w, ls)) && Grows(w, Exec(w, ls))
  {
    if ls != [] {
      ExecInv(w, ls[..|ls| - 1]);
      StepFine(Exec(w, ls[..|ls| - 1]), ls[|ls| - 1]);
    }
  }

  /** Every reference to a row that still exists stays inside the referring row's organization. */
  ghost predicate Linked(w: World) {
    forall id, r :: id in w.rows && r in RefsOf(w.rows[id]) && Exists(w, r) ==> w.rows[r.id].org == w.rows[id].org
  }

  /** In every state reachable from an empty store, by any interleaving, references stay inside
      organizations, and the next step leaves the rows of all other organizations as they are. */
  lemma LinkageHolds(ls: seq<Label>, next: Label)
    ensures var w := Exec(EMPTY, ls);
            Linked(w) && OthersKept(w, Step(w, next), ActingOrg(w, next))
  {
    ExecInv(EMPTY, ls);
    StepFine(Exec(EMPTY, ls), next);
    var w := Exec(EMPTY, ls);
    forall id, r | id in w.rows && r in RefsOf(w.rows[id]) && Exists(w, r) ensures w.rows[r.id].org == w.rows[id].org {
      assert RowOk(w.owner, id, w.rows[id]) && RowOk(w.owner, r.id, w.rows[r.id]);
    }
  }

  /** A dispatch past its checks has loaded its connection, every item's source and, if its
      credential comes from one, the CI source, each from its own organization. */
  lemma DispatchStaysHome(ls: seq<Label>, p: nat, r: Ref)
    ensures var w := Exec(EMPTY, ls);
            p in w.pending && w.pending[p].todo == [] && (r in WriteRefs(w.pending[p].action) || r in w.pending[p].credential)
            ==> r in w.pending[p].done && (Exists(w, r) ==> w.rows[r.id].org == w.pending[p].org)
  {
    ExecInv(EMPTY, ls);
  }

  /** ...and that CI source is the one its connection named when the dispatch loaded it. */
  lemma CredentialIsTheConnections(w: World, p: nat)
    requires p in w.pending && w.pending[p].todo != [] && w.pending[p].action.Dispatch?
    requires w.pending[p].todo[0].table.Connections? && Loads(w, w.pending[p].todo[0], OrganizationScope(w.pending[p].org))
    ensures var q, v := w.pending[p], Step(w, Check(p));
            && p in v.pending && v.pending[p].credential == q.credential + TokenReference(w.rows[q.todo[0].id])
            && forall r :: r in TokenReference(w.rows[q.todo[0].id]) ==> r in v.pending[p].todo
  {
  }

  // ---------------------------------------------------------------- the same, field by field

  /** A row of the given table with this id exists and is of this organization. */
  predicate IsCISource(w: World, id: Id, org: Org) {
    id in w.rows && w.rows[id].CISourceRow? && w.rows[id].org == org
  }

  predicate IsSource(w: World, id: Id, org: Org) {
    id in w.rows && w.rows[id].SourceRow? && w.rows[id].org == org
  }

  predicate IsConnection(w: World, id: Id, org: Org) {
    id in w.rows && w.rows[id].ConnectionRow? && w.rows[id].org == org
  }

  /** A connection's config names a CI source if its ci_source_id is a string that is not blank. */
  lemma ConfigRefs(config: Config, t: Id)
    ensures Ref(CISources, t) in CIReference(config)
            <==> "ci_source_id" in config && config["ci_source_id"] == Text(t) && !Blank(t)
    ensures forall r :: r in CIReference(config) ==> r.table == CISources
  {
  }

  lemma {:induction false} SourceRefsAre(items: seq<Item>, r: Ref)
    ensures r in SourceRefs(items) <==> r.table == Sources && r.id != "" && exists i :: 0 <= i < |items| && items[i].source == r.id
  {
    if items != [] {
      SourceRefsAre(items[1..], r);
      if i :| 0 <= i < |items| && items[i].source == r.id {
        assert i > 0 ==> items[1..][i - 1].source == r.id;
      }
      if i :| 0 <= i < |items[1..]| && items[1..][i].source == r.id {
        assert items[i + 1].source == r.id;
      }
    }
  }

  /** The source ids a target plans: of its items if it has any, else its own. */
  predicate PlansSource(t: Target, id: Id) {
    id != "" && if t.targets == [] then t.source == id else exists i :: 0 <= i < |t.targets| && t.targets[i].source == id
  }

  lemma TargetRefsAre(t: Target, id: Id)
    ensures Ref(Connections, id) in TargetRefs(t) <==> id != "" && t.connection == id
    ensures Ref(Sources, id) in TargetRefs(t) <==> PlansSource(t, id)
    ensures Ref(Connections, id) in DispatchRefs(t) <==> t.connection == id
    ensures Ref(Sources, id) in DispatchRefs(t) <==> PlansSource(t, id)
  {
    SourceRefsAre(Items(t), Ref(Sources, id));
    SourceRefsAre(Items(t), Ref(Connections, id));
    if t.targets == [] {
      assert Items(t)[0].source == t.source;
    }
  }

  /** In every reachable state, whatever a row's own fields name and still exists is of the row's
      own organization: the CI source of a connection's config, the connection and the sources of a
      schedule's target, connection and source of a run, source, connection and run of a record. */
  lemma LinkedFields(ls: seq<Label>, id: Id)
    requires id in Exec(EMPTY, ls).rows
    ensures var w := Exec(EMPTY, ls); var row := w.rows[id];
            && (row.ConnectionRow? ==>
                  forall t :: ("ci_source_id" in row.config && row.config["ci_source_id"] == Text(t) && !Blank(t)
                               && t in w.rows && w.rows[t].CISourceRow?) ==> w.rows[t].org == row.org)
            && (row.ScheduleRow? ==>
                  && (row.target.connection != "" && row.target.connection in w.rows && w.rows[row.target.connection].ConnectionRow?
                      ==> w.rows[row.target.connection].org == row.org)
                  && (forall s :: PlansSource(row.target, s) && s in w.rows && w.rows[s].SourceRow? ==> w.rows[s].org == row.org))
            && (row.RunRow? ==>
                  && (forall c :: row.connection == Some(c) && c in w.rows ==> w.rows[c].org == row.org)
                  && (forall s :: row.source == Some(s) && s in w.rows ==> w.rows[s].org == row.org))
            && (row.RecordRow? ==>
                  && (forall s :: row.about == Some(s) && s in w.rows ==> w.rows[s].org == row.org)
                  && (forall c :: row.via == Some(c) && c in w.rows ==> w.rows[c].org == row.org)
                  && (forall r :: row.lastRun == Some(r) && r in w.rows ==> w.rows[r].org == row.org))
  {
    ExecInv(EMPTY, ls);
    var w := Exec(EMPTY, ls);
    forall r | r in RefsOf(w.rows[id]) && r.id in w.rows ensures w.rows[r.id].org == w.rows[id].org {
      assert RowOk(w.owner, id, w.rows[id]) && RowOk(w.owner, r.id, w.rows[r.id]);
    }
    match w.rows[id]
    case ConnectionRow(_, config, _) =>
      forall t ensures Ref(CISources, t) in CIReference(config)
                       <==> "ci_source_id" in config && config["ci_source_id"] == Text(t) && !Blank(t) { ConfigRefs(config, t); }
    case ScheduleRow(_, target, _) =>
      TargetRefsAre(target, target.connection);
      forall s ensures PlansSource(target, s) ==> Ref(Sources, s) in RefsOf(w.rows[id]) { TargetRefsAre(target, s); }
    case RunRow(_, _, _, _, _, _) => FieldsAreRefs(w.rows[id]);
    case RecordRow(_, _, _, _, _, _) => FieldsAreRefs(w.rows[id]);
    case _ =>
  }

  lemma FieldsAreRefs(row: Row)
    ensures row.RunRow? ==> (row.connection.Some? ==> Ref(Connections, row.connection.value) in RefsOf(row))
                            && (row.source.Some? ==> Ref(Sources, row.source.value) in RefsOf(row))
    ensures row.RecordRow? ==> (row.about.Some? ==> Ref(Sources, row.about.value) in RefsOf(row))
                               && (row.via.Some? ==> Ref(Connections, row.via.value) in RefsOf(row))
                               && (row.lastRun.Some? ==> Ref(Runs, row.lastRun.value) in RefsOf(row))
  {
  }

  /** What the credential of a connection without its own token comes from. */
  lemma CredentialField(c: Row, t: Id)
    requires c.ConnectionRow?
    ensures Ref(CISources, t) in TokenReference(c)
            <==> !c.hasToken && t != "" && "ci_source_id" in c.config && c.config["ci_source_id"] == Text(t)
  {
  }

  // ---------------------------------------------------------------- what the writes write

  /** What a dispatch has to load before it writes anything: its connection, then every source its
      items name, in the dispatching organization. */
  lemma DispatchBegins(w: World, p: nat, org: Org, target: Target, s: Id)
    requires p !in w.pending && !Blank(org)
    ensures var todo := DispatchRefs(target);
            && Step(w, BeginDispatch(p, org, target)) == w.(pending := w.pending[p := Pending(org, todo, {}, Dispatch(target, []), [])])
            && todo[0] == Ref(Connections, target.connection) && (Ref(Sources, s) in todo <==> PlansSource(target, s))
  {
    TargetRefsAre(target, s);
    assert Ref(Sources, s) in DispatchRefs(target) <==> Ref(Sources, s) in SourceRefs(Items(target));
    assert Ref(Sources, s) in TargetRefs(target) <==> Ref(Sources, s) in SourceRefs(Items(target));
  }

  /** A schedule that fires dispatches its own target in its own organization. */
  lemma FireDispatches(w: World, p: nat, id: Id, scope: Scope, org: Org, target: Target, on: bool)
    requires p !in w.pending && id in w.rows && w.rows[id] == ScheduleRow(org, target, on) && Permits(scope, org) && !Blank(org)
    ensures Step(w, Fire(p, id, scope))
            == w.(pending := w.pending[p := Pending(TrimSpace(org), DispatchRefs(target), {}, Dispatch(target, []), [])])
  {
  }

  /** A pushed result queues an observation of what it says about its source, and a request on a
      record moves exactly a record in scope whose status allows it. */
  lemma RequestsBegin(w: World, p: nat, id: Id, key: string, finding: bool, from: set<string>, to: string, scope: Scope)
    requires p !in w.pending && id in w.rows && Permits(scope, w.rows[id].org)
    ensures w.rows[id].SourceRow? ==>
              Step(w, Ingest(p, id, key, finding, scope))
              == w.(pending := w.pending[p := Pending(w.rows[id].org, [Ref(Sources, id)], {}, Observe(id, key, None, None, finding, scope), [])])
    ensures w.rows[id].RecordRow? ==>
              Step(w, SetRecord(id, from, to, scope))
              == if w.rows[id].stage in from then w.(rows := w.rows[id := w.rows[id].(stage := to)]) else w
  {
  }

  /** The next run of a dispatch past its checks: its item's source and key, under the dispatching
      organization, through its connection. */
  lemma RunMade(w: World, p: nat, id: Id)
    requires p in w.pending && w.pending[p].action.Dispatch? && w.pending[p].todo == [] && Fresh(w, id)
    requires var q := w.pending[p];
             && |q.action.made| < |Items(q.action.target)|
             && q.action.target.connection in w.rows && w.rows[q.action.target.connection].ConnectionRow?
             && (var s := Items(q.action.target)[|q.action.made|].source; s == "" || (s in w.rows && w.rows[s].SourceRow?))
    ensures var q, v := w.pending[p], Step(w, Commit(p, id));
            var it := Items(q.action.target)[|q.action.made|];
            && v.rows == w.rows[id := RunRow(q.org, Some(q.action.target.connection), if it.source == "" then None else Some(it.source),
                                             it.key, "dispatched", w.clock)]
            && p in v.pending && v.pending[p].action.made == q.action.made + [id] && v.owner == w.owner[id := q.org]
  {
  }

  /** The record statement of an observation whose source is in scope and whose links exist: with
      a finding it adds an open record of the source's organization if the state has no live one,
      else it touches only that one and keeps its stage. */
  lemma RecordMade(w: World, a: Action, id: Id)
    requires a.Observe? && a.finding && a.source in w.rows && w.rows[a.source].SourceRow? && Permits(a.scope, w.rows[a.source].org)
    requires a.connection.Some? ==> a.connection.value in w.rows && w.rows[a.connection.value].ConnectionRow?
    requires a.run.Some? ==> a.run.value in w.rows && w.rows[a.run.value].RunRow?
    ensures var v := WriteRecord(w, a, id);
            var live := id in w.rows && w.rows[id].RecordRow? && w.rows[id].about == Some(a.source) && w.rows[id].stateKey == a.key
                        && w.rows[id].stage != "resolved";
            && (live ==> v.rows.Keys == w.rows.Keys && (forall r :: r in w.rows && r != id ==> v.rows[r] == w.rows[r])
                         && v.rows[id].RecordRow? && v.rows[id].stage == w.rows[id].stage && v.rows[id].about == Some(a.source)
                         && v.rows[id].org == w.rows[id].org && (a.run.Some? ==> v.rows[id].lastRun == a.run))
            && (Fresh(w, id) && id !in w.rows
                && !(exists r :: r in w.rows && w.rows[r].RecordRow? && w.rows[r].about == Some(a.source) && w.rows[r].stateKey == a.key
                                 && w.rows[r].stage != "resolved") ==>
                  v.rows == w.rows[id := RecordRow(w.rows[a.source].org, Some(a.source), a.key, a.connection, a.run, "open")])
  {
    forall r ensures r in w.rows && IsLive(w.rows[r], a.source, a.key)
                     <==> r in w.rows && w.rows[r].RecordRow? && w.rows[r].about == Some(a.source) && w.rows[r].stateKey == a.key
                          && w.rows[r].stage != "resolved" {}
    forall r | r in Maybe(Connections, a.connection) + Maybe(Runs, a.run) ensures Exists(w, r) {
      assert r in Maybe(Connections, a.connection) || r in Maybe(Runs, a.run);
    }
  }

  /** Without a finding it closes the state's live records in scope, and touches nothing else. */
  lemma RecordClosed(w: World, a: Action, id: Id)
    requires a.Observe? && !a.finding
    ensures var v := WriteRecord(w, a, id);
            && v.rows.Keys == w.rows.Keys
            && forall r :: r in w.rows ==>
                 v.rows[r] == if w.rows[r].RecordRow? && w.rows[r].about == Some(a.source) && w.rows[r].stateKey == a.key
                                 && w.rows[r].stage != "resolved" && Permits(a.scope, w.rows[r].org)
                              then w.rows[r].(stage := "resolved") else w.rows[r]
  {
  }

  /** An accepted callback of a run with a (trimmed, non-empty) organization: the run gets the
      status, and a run with a source an observation of it under the run's organization alone. */
  lemma ResultPosted(w: World, p: nat, rid: Id, status: string, finding: bool)
    requires rid in w.rows && w.rows[rid].RunRow? && p !in w.pending && w.rows[rid].org != "" && TrimSpace(w.rows[rid].org) == w.rows[rid].org
    ensures var v, run := PostResult(w, p, rid, status, finding), w.rows[rid];
            && v.rows == w.rows[rid := run.(status := if status == "" then "completed" else status)]
            && (run.source.None? || run.source.value == "" ==> v.pending == w.pending)
            && (run.source.Some? && run.source.value != "" ==>
                  v.pending == w.pending[p := Pending(run.org, [Ref(Sources, run.source.value)], {},
                                                      Observe(run.source.value, run.key, run.connection, Some(rid), finding, Within({run.org})), [])])
  {
    assert !IsSpace(w.rows[rid].org[0]);
  }

  /** A delete takes one row; runs that pointed at it through a key of its table lose that link and
      nothing else, records likewise, and no other row changes. */
  lemma RowDeleted(w: World, r: Ref, scope: Scope, id: Id)
    requires Loads(w, r, scope)
    ensures var v := Step(w, Delete(r, scope));
            && v.rows.Keys == w.rows.Keys - {r.id}
            && (id in v.rows ==>
                  v.rows[id] == match w.rows[id]
                                case RunRow(org, connection, source, key, status, created) =>
                                  RunRow(org, if r.table == Connections && connection == Some(r.id) then None else connection,
                                         if r.table == Sources && source == Some(r.id) then None else source, key, status, created)
                                case RecordRow(org, about, key, via, lastRun, stage) =>
                                  RecordRow(org, if r.table == Sources && about == Some(r.id) then None else about, key,
                                            if r.table == Connections && via == Some(r.id) then None else via,
                                            if r.table == Runs && lastRun == Some(r.id) then None else lastRun, stage)
                                case _ => w.rows[id])
  {
  }

  /** An insert whose connection or source is gone fails the runs the dispatch has made so far, if
      they are still dispatched, and ends it. */
  lemma RunRefused(w: World, p: nat, id: Id)
    requires p in w.pending && w.pending[p].action.Dispatch? && w.pending[p].todo == []
    requires |w.pending[p].action.made| < |Items(w.pending[p].action.target)|
    requires var q := w.pending[p];
             var s := Items(q.action.target)[|q.action.made|].source;
             || q.action.target.connection !in w.rows || !w.rows[q.action.target.connection].ConnectionRow?
             || (s != "" && (s !in w.rows || !w.rows[s].SourceRow?))
    ensures var q, v := w.pending[p], Step(w, Commit(p, id));
            && v.pending == w.pending - {p} && v.rows.Keys == w.rows.Keys
            && forall r :: r in w.rows ==>
                 v.rows[r] == if r in q.action.made && w.rows[r].RunRow? && w.rows[r].status == "dispatched"
                              then w.rows[r].(status := "failed") else w.rows[r]
  {
    var q := w.pending[p];
    var row := NewRun(w, q.org, q.action.target, Items(q.action.target)[|q.action.made|]);
    FieldsAreRefs(row);
    assert !KeysPresent(w, RefsOf(row)) by {
      assert row.source.Some? ==> row.source.value != "";
    }
  }
}
