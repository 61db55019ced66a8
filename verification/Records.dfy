/** The drift record ledger: one live record per state, fed by run callbacks and by pushed
    results, acknowledged and resolved by hand. A push takes three statements (find the source,
    look its reference up, write), between which other requests run. A record's id is its place
    in the ledger. */
module Records {
  import opened Collections
  import opened Tenancy

  datatype Counts = Counts(added: int, changed: int, destroyed: int)

  /** What a check did not do. */
  datatype Marks = Marks(truncated: bool, omittedEntries: int, omittedAttrs: int, unparseable: bool, unmasked: bool)

  datatype Infra = Infra(counts: Counts, summary: string)

  /** A result with everything about it decided. */
  datatype Result = Result(counts: Counts, drifted: bool, summary: string, marks: Marks, infra: Infra)

  datatype Status = Open | Acknowledged | Resolved

  datatype Ack = Ack(who: string, note: string, at: nat)

  datatype Record = Record(source: Option<Id>, key: string, connection: Option<Id>, run: Option<Id>,
                           origin: string, severity: string, counts: Counts, summary: string,
                           marks: Marks, infra: Infra, externalRef: Option<string>,
                           status: Status, ack: Option<Ack>, resolvedAt: Option<nat>,
                           detections: nat, first: nat, last: nat)

  datatype Detection = Detection(source: Id, key: string, connection: Option<Id>, run: Option<Id>, origin: string,
                                 result: Result, externalRef: Option<string>)

  datatype Ledger = Ledger(sources: set<Id>, rows: seq<Record>)

  // ---------------------------------------------------------------- the statements

  /** Truncated is widened to agree with the omission counts, never narrowed. */
  function MarkTruncation(m: Marks): Marks {
    if m.omittedEntries > 0 || m.omittedAttrs > 0 then m.(truncated := true) else m
  }

  function Severity(destroyed: int): string {
    if destroyed > 0 then "critical" else "warning"
  }

  predicate IsLive(r: Record, source: Id, key: string) {
    r.source == Some(source) && r.key == key && r.status != Resolved
  }

  predicate Holds(r: Record, source: Id, ref: string) {
    r.source == Some(source) && r.externalRef == Some(ref)
  }

  function Live(rows: seq<Record>, source: Id, key: string): (i: Option<nat>)
    ensures i.Some? ==> i.value < |rows| && IsLive(rows[i.value], source, key)
    ensures i.None? ==> forall j :: 0 <= j < |rows| ==> !IsLive(rows[j], source, key)
  {
    if rows == [] then None
    else if IsLive(rows[|rows| - 1], source, key) then Some(|rows| - 1)
    else Live(rows[..|rows| - 1], source, key)
  }

  predicate RefTaken(rows: seq<Record>, source: Id, ref: Option<string>, except: Option<nat>) {
    ref.Some? && exists j :: 0 <= j < |rows| && Some(j) != except && Holds(rows[j], source, ref.value)
  }

  function NewRecord(d: Detection, now: nat): Record {
    var r := d.result;
    Record(Some(d.source), d.key, d.connection, d.run, d.origin, Severity(r.counts.destroyed), r.counts,
           if r.summary == "" then "[]" else r.summary, MarkTruncation(r.marks), r.infra, d.externalRef,
           Open, None, None, 1, now, now)
  }

  /** DO UPDATE SET: everything observed is replaced, the acknowledgement and the first
      detection stay, absent links do not erase present ones. */
  function Redetected(prior: Record, d: Detection, now: nat): Record {
    var n := NewRecord(d, now);
    n.(source := prior.source, key := prior.key,
       connection := Coalesce(d.connection, prior.connection), run := Coalesce(d.run, prior.run),
       externalRef := Coalesce(d.externalRef, prior.externalRef),
       status := prior.status, ack := prior.ack, resolvedAt := prior.resolvedAt,
       detections := prior.detections + 1, first := prior.first)
  }

  /** INSERT ... ON CONFLICT. A second unique index, on the external reference, makes the
      statement fail; the caller then gets the record that holds the reference. */
  function Upserted(l: Ledger, d: Detection, now: nat): Ledger {
    var live := Live(l.rows, d.source, d.key);
    if d.source !in l.sources || RefTaken(l.rows, d.source, d.externalRef, live) then l
    else if live.Some? then l.(rows := l.rows[live.value := Redetected(l.rows[live.value], d, now)])
    else l.(rows := l.rows + [NewRecord(d, now)])
  }

  function Cleaned(r: Record, source: Id, key: string, now: nat): Record {
    if IsLive(r, source, key) then r.(status := Resolved, resolvedAt := Some(now)) else r
  }

  function ResolvedClean(l: Ledger, source: Id, key: string, now: nat): Ledger {
    l.(rows := seq(|l.rows|, i requires 0 <= i < |l.rows| => Cleaned(l.rows[i], source, key, now)))
  }

  // ---------------------------------------------------------------- the two producers

  predicate HasDriftFinding(drifted: bool, infra: Counts) {
    drifted || infra.added + infra.changed + infra.destroyed > 0
  }

  function Finding(r: Result): bool {
    HasDriftFinding(r.drifted, r.infra.counts)
  }

  /** The write of an observation, a record statement on its own. */
  function Observed(l: Ledger, d: Detection, now: nat): Ledger {
    if d.source !in l.sources then l
    else if Finding(d.result) then Upserted(l, d, now)
    else if d.result.marks.unparseable then l
    else ResolvedClean(l, d.source, d.key, now)
  }

  /** recordDriftOutcome maintains records only for completed runs with a source and a key. */
  function OutcomeOf(source: Option<Id>, key: string, connection: Option<Id>, run: Id, status: string, r: Result): Option<Detection> {
    if status != "completed" || source.None? || key == "" then None
    else Some(Detection(source.value, key, connection, Some(run), "run", r, None))
  }

  /** A pushed result under way; looked once its reference has been looked up. ref is "" when
      absent. */
  datatype Push = Push(source: Id, key: string, ref: string, result: Result, looked: bool)

  function PushDetection(q: Push): Detection {
    Detection(q.source, q.key, None, None, "ingest", q.result, if q.ref == "" then None else Some(q.ref))
  }

  /** Whether the look-up of the reference ends the push: a failing look-up does not. */
  predicate SeesReplay(l: Ledger, q: Push, fails: bool) {
    q.ref != "" && !fails && RefTaken(l.rows, q.source, Some(q.ref), None)
  }

  datatype World = World(ledger: Ledger, pushes: map<nat, Push>, clock: nat)

  datatype Event =
    | Completed(about: Option<Id>, key: string, connection: Option<Id>, run: Id, status: string, result: Result)
    | Arrive(push: nat, source: Id, key: string, ref: string, result: Result)
    | LookUp(push: nat, fails: bool)
    | Write(push: nat)
    | Acknowledge(id: nat, who: string, note: string)
    | Resolve(id: nat)
    | AddSource(source: Id)
    | DeleteSource(source: Id)
    | Tick

  /** ON DELETE SET NULL. */
  function Unsourced(l: Ledger, source: Id): Ledger {
    Ledger(l.sources - {source},
           seq(|l.rows|, i requires 0 <= i < |l.rows| => if l.rows[i].source == Some(source) then l.rows[i].(source := None) else l.rows[i]))
  }

  /** The requests of people, and the life of sources. */
  function Managed(l: Ledger, e: Event, now: nat): Ledger {
    match e
    case Acknowledge(id, who, note) =>
      if id < |l.rows| && l.rows[id].status == Open
      then l.(rows := l.rows[id := l.rows[id].(status := Acknowledged, ack := Some(Ack(who, note, now)))]) else l
    case Resolve(id) =>
      if id < |l.rows| && l.rows[id].status != Resolved
      then l.(rows := l.rows[id := l.rows[id].(status := Resolved, resolvedAt := Some(now))]) else l
    case AddSource(source) => if source == "" then l else l.(sources := l.sources + {source})
    case DeleteSource(source) => Unsourced(l, source)
    case _ => l
  }

  function Step(w: World, e: Event): World {
    match e
    case Completed(source, key, connection, run, status, result) =>
      var d := OutcomeOf(source, key, connection, run, status, result);
      if d.Some? then w.(ledger := Observed(w.ledger, d.value, w.clock)) else w
    case Arrive(p, source, key, ref, result) =>
      if p in w.pushes || source == "" || key == "" || source !in w.ledger.sources then w
      else w.(pushes := w.pushes[p := Push(source, key, ref, result, false)])
    case LookUp(p, fails) =>
      if p !in w.pushes || w.pushes[p].looked then w
      else if SeesReplay(w.ledger, w.pushes[p], fails) then w.(pushes := w.pushes - {p})
      else w.(pushes := w.pushes[p := w.pushes[p].(looked := true)])
    case Write(p) =>
      if p !in w.pushes || !w.pushes[p].looked then w
      else w.(ledger := Observed(w.ledger, PushDetection(w.pushes[p]), w.clock), pushes := w.pushes - {p})
    case Tick => w.(clock := w.clock + 1)
    case _ => w.(ledger := Managed(w.ledger, e, w.clock))
  }

  const EMPTY := Ledger({}, [])

  function Exec(es: seq<Event>): World {
    if es == [] then World(EMPTY, map[], 0) else Step(Exec(es[..|es| - 1]), es[|es| - 1])
  }

  // ---------------------------------------------------------------- one live record per state

  ghost predicate OneLive(rows: seq<Record>) {
    forall i, j, s, k :: 0 <= i < j < |rows| && IsLive(rows[i], s, k) ==> !IsLive(rows[j], s, k)
  }

  ghost predicate RefsUnique(rows: seq<Record>) {
    forall i, j, s, x :: 0 <= i < j < |rows| && Holds(rows[i], s, x) ==> !Holds(rows[j], s, x)
  }

  /** Severity and truncation say what the counts say; a record has an acknowledgement once it
      has left Open by one. */
  ghost predicate RecordOk(r: Record) {
    && (r.severity == "critical" <==> r.counts.destroyed > 0)
    && (r.marks.omittedEntries > 0 || r.marks.omittedAttrs > 0 ==> r.marks.truncated)
    && (r.status == Open ==> r.ack.None?) && (r.status == Acknowledged ==> r.ack.Some?)
    && (r.status == Resolved <==> r.resolvedAt.Some?)
    && r.detections >= 1 && r.first <= r.last && r.key != ""
  }

  ghost predicate Inv(l: Ledger, now: nat) {
    && OneLive(l.rows) && RefsUnique(l.rows)
    && (forall i :: 0 <= i < |l.rows| ==> RecordOk(l.rows[i]) && l.rows[i].last <= now)
    && (forall i :: 0 <= i < |l.rows| && l.rows[i].source.Some? ==> l.rows[i].source.value in l.sources)
    && "" !in l.sources
  }

  lemma UpsertInv(l: Ledger, d: Detection, now: nat)
    requires Inv(l, now) && d.key != ""
    ensures Inv(Upserted(l, d, now), now)
  {
    var live := Live(l.rows, d.source, d.key);
    if d.source in l.sources && !RefTaken(l.rows, d.source, d.externalRef, live) {
      var m := Upserted(l, d, now);
      var at := if live.Some? then live.value else |l.rows|;
      assert RecordOk(m.rows[at]);
      forall j, s, x | 0 <= j < |m.rows| && j != at && Holds(m.rows[j], s, x) ensures !Holds(m.rows[at], s, x) {
        assert m.rows[j] == l.rows[j];
      }
      assert RefsUnique(m.rows);
      forall j, s, k | 0 <= j < |m.rows| && j != at && IsLive(m.rows[j], s, k) ensures !IsLive(m.rows[at], s, k) {
        assert m.rows[j] == l.rows[j];
      }
      assert OneLive(m.rows);
    }
  }

  lemma MappedInv(l: Ledger, m: Ledger, now: nat)
    requires Inv(l, now) && |m.rows| == |l.rows| && "" !in m.sources
    requires forall i :: 0 <= i < |l.rows| ==> RecordOk(m.rows[i]) && m.rows[i].last == l.rows[i].last
    requires forall i :: 0 <= i < |l.rows| ==> m.rows[i].source == l.rows[i].source || m.rows[i].source == None
    requires forall i :: 0 <= i < |l.rows| && m.rows[i].source.Some? ==> m.rows[i].source.value in m.sources
    requires forall i :: 0 <= i < |l.rows| ==> m.rows[i].key == l.rows[i].key && m.rows[i].externalRef == l.rows[i].externalRef
    requires forall i :: 0 <= i < |l.rows| && l.rows[i].status == Resolved ==> m.rows[i].status == Resolved
    ensures Inv(m, now)
  {
    forall i, s, x | 0 <= i < |m.rows| && Holds(m.rows[i], s, x) ensures Holds(l.rows[i], s, x) {}
    forall i, s, k | 0 <= i < |m.rows| && IsLive(m.rows[i], s, k) ensures IsLive(l.rows[i], s, k) {}
  }

  lemma CleanInv(l: Ledger, source: Id, key: string, now: nat)
    requires Inv(l, now)
    ensures Inv(ResolvedClean(l, source, key, now), now)
  {
    MappedInv(l, ResolvedClean(l, source, key, now), now);
  }

  lemma ObservedInv(l: Ledger, d: Detection, now: nat)
    requires Inv(l, now) && d.key != ""
    ensures Inv(Observed(l, d, now), now)
  {
    UpsertInv(l, d, now);
    CleanInv(l, d.source, d.key, now);
  }

  lemma ManagedInv(l: Ledger, e: Event, now: nat)
    requires Inv(l, now)
    ensures Inv(Managed(l, e, now), now)
  {
    MappedInv(l, Managed(l, e, now), now);
  }

  lemma InvLater(l: Ledger, now: nat, later: nat)
    requires Inv(l, now) && now <= later
    ensures Inv(l, later)
  {
  }

  ghost predicate WorldInv(w: World) {
    Inv(w.ledger, w.clock) && forall p :: p in w.pushes ==> w.pushes[p].source != "" && w.pushes[p].key != ""
  }

  lemma StepInv(w: World, e: Event)
    requires WorldInv(w)
    ensures WorldInv(Step(w, e))
  {
    match e
    case Completed(about, key, connection, run, status, r) =>
      var d := OutcomeOf(about, key, connection, run, status, r);
      if d.Some? { ObservedInv(w.ledger, d.value, w.clock); }
    case Write(p) =>
      if p in w.pushes { ObservedInv(w.ledger, PushDetection(w.pushes[p]), w.clock); }
    case Arrive(_, _, _, _, _) =>
    case LookUp(_, _) =>
    case Tick => InvLater(w.ledger, w.clock, w.clock + 1);
    case _ => ManagedInv(w.ledger, e, w.clock);
  }

  /** Over every interleaving: at most one live record per (source, key), at most one holder of
      an external reference, and records that agree with their own counts. */
  lemma {:induction false} LedgerInvariant(es: seq<Event>)
    ensures WorldInv(Exec(es))
  {
    if es != [] {
      LedgerInvariant(es[..|es| - 1]);
      StepInv(Exec(es[..|es| - 1]), es[|es| - 1]);
    }
  }

  // ---------------------------------------------------------------- lifecycle

  predicate Moves(a: Status, b: Status) {
    a == b || b == Resolved || (a == Open && b == Acknowledged)
  }

  /** An observation that closes the live record of its state: it found nothing and could read
      its plan. */
  predicate Closes(d: Detection, r: Record) {
    IsLive(r, d.source, d.key) && !Finding(d.result) && !d.result.marks.unparseable
  }

  /** A step that closes record id: a manual resolve, or the write of a closing observation. */
  predicate MayClose(w: World, e: Event, id: nat, r: Record) {
    match e
    case Resolve(i) => i == id
    case Completed(about, key, connection, run, status, result) =>
      var d := OutcomeOf(about, key, connection, run, status, result);
      d.Some? && Closes(d.value, r)
    case Write(p) => p in w.pushes && w.pushes[p].looked && Closes(PushDetection(w.pushes[p]), r)
    case _ => false
  }

  lemma ObservedLife(l: Ledger, d: Detection, now: nat, i: nat)
    requires Inv(l, now) && i < |l.rows|
    ensures var m := Observed(l, d, now);
            && |l.rows| <= |m.rows| <= |l.rows| + 1
            && (l.rows[i].status != Resolved ==> m.rows[i].status == if Closes(d, l.rows[i]) then Resolved else l.rows[i].status)
            && (l.rows[i].status == Resolved ==> m.rows[i] == l.rows[i])
            && m.rows[i].ack == l.rows[i].ack && m.rows[i].key == l.rows[i].key && m.rows[i].first == l.rows[i].first
  {
  }

  /** One step on one record: statuses move one way, a closed record never changes again (except
      that its source may be forgotten), an acknowledgement once given is kept, and a live record
      is closed by exactly the steps that may close it. */
  lemma Lifecycle(w: World, e: Event, i: nat)
    requires WorldInv(w) && i < |w.ledger.rows|
    ensures var l, m := w.ledger, Step(w, e).ledger;
            && |l.rows| <= |m.rows| <= |l.rows| + 1
            && Moves(l.rows[i].status, m.rows[i].status)
            && (l.rows[i].status == Resolved ==> m.rows[i] == l.rows[i] || m.rows[i] == l.rows[i].(source := None))
            && (l.rows[i].ack.Some? ==> m.rows[i].ack == l.rows[i].ack)
            && (l.rows[i].status != Resolved ==> (m.rows[i].status == Resolved <==> MayClose(w, e, i, l.rows[i])))
            && m.rows[i].key == l.rows[i].key && m.rows[i].first == l.rows[i].first
  {
    match e
    case Completed(about, key, connection, run, status, r) =>
      var d := OutcomeOf(about, key, connection, run, status, r);
      if d.Some? { ObservedLife(w.ledger, d.value, w.clock, i); }
    case Write(p) =>
      if p in w.pushes { ObservedLife(w.ledger, PushDetection(w.pushes[p]), w.clock, i); }
    case _ =>
  }

  ghost predicate ClosedAt(es: seq<Event>, j: nat, i: nat) {
    j < |es| && i < |Exec(es[..j]).ledger.rows| && MayClose(Exec(es[..j]), es[j], i, Exec(es[..j]).ledger.rows[i])
  }

  /** What a stretch of a run may make of a record. */
  ghost predicate Aged(r: Record, q: Record) {
    && Moves(r.status, q.status) && q.key == r.key && q.first == r.first
    && (r.ack.Some? ==> q.ack == r.ack)
    && (r.status == Resolved ==> q == r || q == r.(source := None))
  }

  lemma LastEvent(es: seq<Event>, i: nat)
    requires es != [] && i < |Exec(es[..|es| - 1]).ledger.rows|
    ensures var n := |es| - 1; var before, after := Exec(es[..n]).ledger, Exec(es).ledger;
            && i < |after.rows| && Aged(before.rows[i], after.rows[i])
            && (before.rows[i].status != Resolved && after.rows[i].status == Resolved ==> ClosedAt(es, n, i))
  {
    var n := |es| - 1;
    LedgerInvariant(es[..n]);
    Lifecycle(Exec(es[..n]), es[n], i);
  }

  lemma ClosedEarlier(es: seq<Event>, j: nat, i: nat)
    requires es != [] && ClosedAt(es[..|es| - 1], j, i)
    ensures ClosedAt(es, j, i)
  {
    assert es[..|es| - 1][..j] == es[..j];
  }

  /** The same over any stretch of any run: what was live and is closed was closed by a step that
      may close it. */
  lemma {:induction false} RunLifecycle(es: seq<Event>, k: nat, i: nat)
    requires k <= |es| && i < |Exec(es[..k]).ledger.rows|
    ensures i < |Exec(es).ledger.rows| && Aged(Exec(es[..k]).ledger.rows[i], Exec(es).ledger.rows[i])
    ensures Exec(es[..k]).ledger.rows[i].status != Resolved && Exec(es).ledger.rows[i].status == Resolved
            ==> exists j :: k <= j < |es| && ClosedAt(es, j, i)
    decreases |es|
  {
    if k == |es| {
      assert es[..k] == es;
    } else {
      var n := |es| - 1;
      assert es[..n][..k] == es[..k];
      RunLifecycle(es[..n], k, i);
      LastEvent(es, i);
      if j :| k <= j < n && ClosedAt(es[..n], j, i) {
        ClosedEarlier(es, j, i);
      }
    }
  }

  /** A detection never opens a second record for a state with a live one: it lands on that
      record, which keeps its status, acknowledgement and first detection, counts one detection
      more, and otherwise says what was last observed. */
  lemma DetectionsCollapse(l: Ledger, d: Detection, now: nat, i: nat)
    requires Inv(l, now) && i < |l.rows| && IsLive(l.rows[i], d.source, d.key)
    requires !RefTaken(l.rows, d.source, d.externalRef, Some(i))
    ensures var m := Upserted(l, d, now); var r, q := l.rows[i], m.rows[i];
            && |m.rows| == |l.rows| && (forall j :: 0 <= j < |l.rows| && j != i ==> m.rows[j] == l.rows[j])
            && q.status == r.status && q.ack == r.ack && q.first == r.first && q.last == now && q.detections == r.detections + 1
            && q.counts == d.result.counts && q.infra == d.result.infra && q.origin == d.origin
            && q.marks == d.result.marks.(truncated := q.marks.truncated)
            && (q.marks.truncated <==> d.result.marks.truncated || d.result.marks.omittedEntries > 0 || d.result.marks.omittedAttrs > 0)
            && q.summary == (if d.result.summary == "" then "[]" else d.result.summary)
            && (q.run == d.run || (d.run.None? && q.run == r.run)) && (q.connection == d.connection || (d.connection.None? && q.connection == r.connection))
            && (q.externalRef == d.externalRef || (d.externalRef.None? && q.externalRef == r.externalRef))
  {
    assert d.source in l.sources;
    var live := Live(l.rows, d.source, d.key);
    assert live == Some(i);
  }

  /** Without a live record a detection opens one at the end, unless its reference is taken. */
  lemma DetectionOpens(l: Ledger, d: Detection, now: nat)
    requires d.source in l.sources && (forall j :: 0 <= j < |l.rows| ==> !IsLive(l.rows[j], d.source, d.key))
    requires !RefTaken(l.rows, d.source, d.externalRef, None)
    ensures var m := Upserted(l, d, now);
            && |m.rows| == |l.rows| + 1 && m.rows[..|l.rows|] == l.rows
            && var q := m.rows[|l.rows|];
               IsLive(q, d.source, d.key) && q.status == Open && q.ack.None? && q.detections == 1 && q.first == q.last == now
               && q.counts == d.result.counts && q.infra == d.result.infra && q.externalRef == d.externalRef
               && q.run == d.run && q.connection == d.connection && q.origin == d.origin
               && q.marks == d.result.marks.(truncated := q.marks.truncated)
               && (q.marks.truncated <==> d.result.marks.truncated || d.result.marks.omittedEntries > 0 || d.result.marks.omittedAttrs > 0)
               && q.summary == (if d.result.summary == "" then "[]" else d.result.summary)
  {
  }

  // ---------------------------------------------------------------- what counts as a finding

  /** Record i is the live one of the state, as an observation made now left it. */
  ghost predicate Shows(rows: seq<Record>, i: nat, source: Id, key: string, r: Result, now: nat) {
    && i < |rows| && rows[i].source == Some(source) && rows[i].key == key && rows[i].status != Resolved
    && rows[i].last == now && rows[i].counts == r.counts && rows[i].infra == r.infra
  }

  ghost predicate Found(r: Result) {
    r.drifted || r.infra.counts.added + r.infra.counts.changed + r.infra.counts.destroyed > 0
  }

  /** The record names its producer, and the run, connection and reference that came with it. */
  ghost predicate Links(r: Record, d: Detection) {
    && r.origin == d.origin && (d.run.Some? ==> r.run == d.run) && (d.connection.Some? ==> r.connection == d.connection)
    && (d.externalRef.Some? ==> r.externalRef == d.externalRef)
  }

  /** What one result does to the records of its state: drift, or a positive sum of changes made
      outside, leaves a live record that shows it, and one that was live before keeps its status; a
      readable result with neither leaves no live record; an unreadable one with neither changes
      nothing. */
  ghost predicate ResultCounts(before: Ledger, after: Ledger, source: Id, key: string, r: Result, now: nat) {
    var found := Found(r);
    && (found ==> exists i :: Shows(after.rows, i, source, key, r, now))
    && (found ==> forall i :: 0 <= i < |before.rows| && before.rows[i].source == Some(source) && before.rows[i].key == key
                              && before.rows[i].status != Resolved ==>
                                i < |after.rows| && Shows(after.rows, i, source, key, r, now) && after.rows[i].status == before.rows[i].status)
    && (!found && !r.marks.unparseable ==>
          forall i :: 0 <= i < |after.rows| && after.rows[i].source == Some(source) && after.rows[i].key == key ==> after.rows[i].status == Resolved)
    && (!found && r.marks.unparseable ==> after == before)
  }

  lemma ObservedCounts(l: Ledger, d: Detection, now: nat)
    requires Inv(l, now) && d.source in l.sources && !RefTaken(l.rows, d.source, d.externalRef, Live(l.rows, d.source, d.key))
    ensures ResultCounts(l, Observed(l, d, now), d.source, d.key, d.result, now)
    ensures Found(d.result) ==> exists i: nat :: Shows(Observed(l, d, now).rows, i, d.source, d.key, d.result, now) && Links(Observed(l, d, now).rows[i], d)
  {
    var m, live := Observed(l, d, now), Live(l.rows, d.source, d.key);
    if Found(d.result) {
      var at := if live.Some? then live.value else |l.rows|;
      assert Shows(m.rows, at, d.source, d.key, d.result, now);
      forall i | 0 <= i < |l.rows| && l.rows[i].source == Some(d.source) && l.rows[i].key == d.key && l.rows[i].status != Resolved
        ensures i < |m.rows| && Shows(m.rows, i, d.source, d.key, d.result, now) && m.rows[i].status == l.rows[i].status
      {
        assert IsLive(l.rows[i], d.source, d.key);
        assert live == Some(i);
      }
    }
  }

  /** A completed callback of a run with an existing source and a key; any other callback leaves
      the ledger alone. */
  lemma CallbackCounts(w: World, about: Option<Id>, key: string, connection: Option<Id>, run: Id, status: string, r: Result)
    requires WorldInv(w)
    ensures var v := Step(w, Completed(about, key, connection, run, status, r)).ledger;
            if status == "completed" && about.Some? && about.value in w.ledger.sources && key != ""
            then ResultCounts(w.ledger, v, about.value, key, r, w.clock)
                 && (Found(r) ==> exists i: nat :: Shows(v.rows, i, about.value, key, r, w.clock) && v.rows[i].origin == "run" && v.rows[i].run == Some(run)
                                              && (connection.Some? ==> v.rows[i].connection == connection))
            else v == w.ledger
  {
    if status == "completed" && about.Some? && about.value in w.ledger.sources && key != "" {
      ObservedCounts(w.ledger, Detection(about.value, key, connection, Some(run), "run", r, None), w.clock);
    }
  }

  /** An uninterrupted push to an existing source whose reference, if it has one, is free. */
  lemma PushCounts(w: World, p: nat, source: Id, key: string, ref: string, r: Result, fails: bool)
    requires WorldInv(w) && p !in w.pushes && source in w.ledger.sources && key != ""
    requires ref != "" ==> forall i :: 0 <= i < |w.ledger.rows| && w.ledger.rows[i].source == Some(source) ==> w.ledger.rows[i].externalRef != Some(ref)
    ensures var v := Step(Step(Step(w, Arrive(p, source, key, ref, r)), LookUp(p, fails)), Write(p));
            && ResultCounts(w.ledger, v.ledger, source, key, r, w.clock)
            && (Found(r) ==> exists i: nat :: Shows(v.ledger.rows, i, source, key, r, w.clock) && v.ledger.rows[i].origin == "ingest"
                                         && (ref != "" ==> v.ledger.rows[i].externalRef == Some(ref)))
  {
    var q := Push(source, key, ref, r, false);
    UninterruptedPush(w, p, q, fails);
    ObservedCounts(w.ledger, PushDetection(q), w.clock);
  }

  /** Deleting a source takes its records' source away, and with it their place as live ones;
      nothing else about any record changes. */
  lemma SourceDeleted(w: World, source: Id, i: nat)
    requires i < |w.ledger.rows|
    ensures var v := Step(w, DeleteSource(source));
            && |v.ledger.rows| == |w.ledger.rows| && v.ledger.sources == w.ledger.sources - {source}
            && v.ledger.rows[i] == w.ledger.rows[i].(source := v.ledger.rows[i].source)
            && v.ledger.rows[i].source == (if w.ledger.rows[i].source == Some(source) then None else w.ledger.rows[i].source)
            && v.pushes == w.pushes
  {
  }

  // ---------------------------------------------------------------- retries

  /** The write of a finding changes nothing exactly when its source is gone or a record other
      than the state's live one holds its reference. */
  lemma WriteChangesNothing(l: Ledger, d: Detection, now: nat)
    requires Finding(d.result)
    ensures Observed(l, d, now) == l
            <==> d.source !in l.sources || RefTaken(l.rows, d.source, d.externalRef, Live(l.rows, d.source, d.key))
  {
    var live := Live(l.rows, d.source, d.key);
    if d.source in l.sources && !RefTaken(l.rows, d.source, d.externalRef, live) {
      var m := Upserted(l, d, now);
      if live.Some? {
        assert m.rows[live.value].detections == l.rows[live.value].detections + 1;
      } else {
        assert |m.rows| == |l.rows| + 1;
      }
    }
  }

  /** Steps that belong to push p. */
  predicate Of(e: Event, p: nat) {
    (e.Arrive? || e.LookUp? || e.Write?) && e.push == p
  }

  lemma {:induction false} PushWaits(es: seq<Event>, i: nat, j: nat, p: nat)
    requires i <= j <= |es| && forall k :: i <= k < j ==> !Of(es[k], p)
    ensures p in Exec(es[..i]).pushes <==> p in Exec(es[..j]).pushes
    ensures p in Exec(es[..i]).pushes ==> Exec(es[..i]).pushes[p] == Exec(es[..j]).pushes[p]
  {
    if i < j {
      PushWaits(es, i, j - 1, p);
      assert es[..j][..j - 1] == es[..j - 1];
    }
  }

  /** A push with a finding, looked up at i and written at j with anything in between: its write
      changes nothing exactly when the look-up succeeded and saw a holder of its reference, or
      the source is gone by then, or a record other than the live one of its state holds the
      reference by then. */
  lemma ReplayIsRecognised(es: seq<Event>, i: nat, j: nat, p: nat)
    requires i < j < |es| && es[i].LookUp? && es[i].push == p && es[j] == Write(p)
    requires forall k :: i < k < j ==> !Of(es[k], p)
    requires p in Exec(es[..i]).pushes && !Exec(es[..i]).pushes[p].looked && Finding(Exec(es[..i]).pushes[p].result)
    ensures var q, earlier, now := Exec(es[..i]).pushes[p], Exec(es[..i]).ledger, Exec(es[..j]).ledger;
            Exec(es[..j + 1]).ledger == now
            <==> || SeesReplay(earlier, q, es[i].fails)
                 || q.source !in now.sources
                 || RefTaken(now.rows, q.source, PushDetection(q).externalRef, Live(now.rows, q.source, q.key))
  {
    var q := Exec(es[..i]).pushes[p];
    LastStep(es, i);
    LastStep(es, j);
    PushWaits(es, i + 1, j, p);
    WriteOf(Exec(es[..j]), p);
    if !SeesReplay(Exec(es[..i]).ledger, q, es[i].fails) {
      assert Exec(es[..j]).pushes[p] == q.(looked := true);
      WriteChangesNothing(Exec(es[..j]).ledger, PushDetection(q), Exec(es[..j]).clock);
    }
  }

  lemma LastStep(es: seq<Event>, i: nat)
    requires i < |es|
    ensures Exec(es[..i + 1]) == Step(Exec(es[..i]), es[i])
  {
    assert es[..i + 1][..i] == es[..i];
  }

  lemma WriteOf(w: World, p: nat)
    ensures Step(w, Write(p)).ledger == if p in w.pushes && w.pushes[p].looked
                                        then Observed(w.ledger, PushDetection(w.pushes[p].(looked := false)), w.clock) else w.ledger
  {
    if p in w.pushes {
      assert PushDetection(w.pushes[p].(looked := false)) == PushDetection(w.pushes[p]);
    }
  }

  /** A push that nothing interrupts. */
  function Ingested(l: Ledger, q: Push, fails: bool, now: nat): Ledger {
    if q.source == "" || q.key == "" || q.source !in l.sources || SeesReplay(l, q, fails) then l
    else Observed(l, PushDetection(q), now)
  }

  lemma UninterruptedPush(w: World, p: nat, q: Push, fails: bool)
    requires p !in w.pushes && !q.looked
    ensures Step(Step(Step(w, Arrive(p, q.source, q.key, q.ref, q.result)), LookUp(p, fails)), Write(p))
            == w.(ledger := Ingested(w.ledger, q, fails, w.clock))
  {
    var a := Step(w, Arrive(p, q.source, q.key, q.ref, q.result));
    if p in a.pushes {
      assert a.pushes[p] == q && a.pushes - {p} == w.pushes;
      var b := Step(a, LookUp(p, fails));
      if p in b.pushes {
        assert b.pushes - {p} == w.pushes && PushDetection(b.pushes[p]) == PushDetection(q);
      }
    }
  }

  /** A finding written over a live record that no other record's reference is in the way of. */
  lemma CountedAgain(rec: Record, q: Push, now: nat)
    requires IsLive(rec, q.source, q.key) && Finding(q.result)
    ensures Observed(Ledger({q.source}, [rec]), PushDetection(q), now)
            == Ledger({q.source}, [Redetected(rec, PushDetection(q), now)])
  {
    assert Live([rec], q.source, q.key) == Some(0);
  }

  function Retry(ref: string, r: Result): Push {
    Push("s", "k", ref, r, false)
  }

  /** What the ledger holds after the first push of a finding. */
  function FirstRecord(ref: string, r: Result): Record {
    NewRecord(PushDetection(Retry(ref, r)), 0)
  }

  /** Three ways a reference that a record holds, or has held, is counted again: a later push
      overwrote it, the look-up failed, or two pushes looked it up before either wrote. */
  lemma RetriesCountedAgain(r: Result)
    requires Finding(r)
    ensures var l0 := Ledger({"s"}, []);
            var l1 := Ingested(l0, Retry("a", r), false, 0);
            && (var l2 := Ingested(l1, Retry("b", r), false, 0);
                Ingested(l2, Retry("a", r), false, 0).rows[0].detections == 3)
            && Ingested(l1, Retry("a", r), true, 0).rows[0].detections == 2
            && (var w := World(l0, map[1 := Retry("a", r), 2 := Retry("a", r)], 0);
                var looked := Step(Step(w, LookUp(1, false)), LookUp(2, false));
                var after := Step(Step(looked, Write(1)), Write(2));
                |after.ledger.rows| == 1 && after.ledger.rows[0].detections == 2)
  {
    var l0, first := Ledger({"s"}, []), FirstRecord("a", r);
    assert Ingested(l0, Retry("a", r), false, 0) == Ledger({"s"}, [first]);
    CountedAgain(first, Retry("a", r), 0);
    CountedAgain(first, Retry("b", r), 0);
    CountedAgain(Redetected(first, PushDetection(Retry("b", r)), 0), Retry("a", r), 0);
    PushesTogether(r);
  }

  lemma PushesTogether(r: Result)
    requires Finding(r)
    ensures var w := World(Ledger({"s"}, []), map[1 := Retry("a", r), 2 := Retry("a", r)], 0);
            var looked := Step(Step(w, LookUp(1, false)), LookUp(2, false));
            var after := Step(Step(looked, Write(1)), Write(2));
            |after.ledger.rows| == 1 && after.ledger.rows[0].detections == 2
  {
    var first, q := FirstRecord("a", r), Retry("a", r).(looked := true);
    var w := World(Ledger({"s"}, []), map[1 := Retry("a", r), 2 := Retry("a", r)], 0);
    var looked := Step(Step(w, LookUp(1, false)), LookUp(2, false));
    assert looked.pushes[1] == q && looked.pushes[2] == q && looked.ledger == w.ledger;
    var once := Step(looked, Write(1));
    assert once.ledger == Ledger({"s"}, [first]) && once.pushes[2] == q;
    CountedAgain(first, q, 0);
  }

  // ---------------------------------------------------------------- two producers, one ledger

  /** What a result body says before drifted is decided; an absent flag is None. */
  datatype Body = Body(counts: Counts, drifted: Option<bool>, summary: string, marks: Marks, infra: Infra)

  /** The server's own reading of a raw plan. */
  datatype PlanReading = PlanReading(counts: Counts, summary: string, drifted: bool, marks: Marks, infra: Infra)

  function Changes(c: Counts): int {
    c.added + c.changed + c.destroyed
  }

  function SettleCallback(b: Body): Result {
    Result(b.counts, if b.drifted.Some? then b.drifted.value else Changes(b.counts) > 0, b.summary, b.marks, b.infra)
  }

  /** A plan replaces counts, summary and marks; its infra reading yields to an explicit one. An
      unreadable plan is refused. */
  function SettleIngest(b: Body, plan: Option<PlanReading>): Option<Result> {
    if plan.None? then
      Some(Result(b.counts, if b.drifted.Some? then b.drifted.value else Changes(b.counts) > 0 || |b.summary| > 2,
                  b.summary, b.marks, b.infra))
    else if plan.value.marks.unparseable then None
    else
      var p := plan.value;
      var explicit := b.infra.counts != Counts(0, 0, 0) || b.infra.summary != "";
      Some(Result(p.counts, if b.drifted.Some? then b.drifted.value else p.drifted, p.summary, p.marks,
                  if explicit then b.infra else p.infra))
  }

  /** One body sent either way settles alike exactly when it says whether it drifted, or has
      counts, or has no summary beyond "[]". */
  lemma SettlementsAgree(b: Body)
    ensures SettleIngest(b, None) == Some(SettleCallback(b)) <==> b.drifted.Some? || Changes(b.counts) > 0 || |b.summary| <= 2
  {
  }

  /** What a step does to the ledger, if anything: a write by either producer, or a request. */
  datatype Act = Observes(d: Detection, at: nat) | Manages(event: Event, at: nat)

  function ActOf(w: World, e: Event): seq<Act> {
    match e
    case Completed(about, key, connection, run, status, r) =>
      var d := OutcomeOf(about, key, connection, run, status, r);
      if d.Some? then [Observes(d.value, w.clock)] else []
    case Write(p) => if p in w.pushes && w.pushes[p].looked then [Observes(PushDetection(w.pushes[p]), w.clock)] else []
    case Arrive(_, _, _, _, _) => []
    case LookUp(_, _) => []
    case Tick => []
    case _ => [Manages(e, w.clock)]
  }

  function Acts(es: seq<Event>): seq<Act> {
    if es == [] then [] else Acts(es[..|es| - 1]) + ActOf(Exec(es[..|es| - 1]), es[|es| - 1])
  }

  function Perform(l: Ledger, a: Act): Ledger {
    match a
    case Observes(d, at) => Observed(l, d, at)
    case Manages(e, at) => Managed(l, e, at)
  }

  function Performed(acts: seq<Act>): Ledger {
    if acts == [] then EMPTY else Perform(Performed(acts[..|acts| - 1]), acts[|acts| - 1])
  }

  lemma PerformedSnoc(acts: seq<Act>, a: Act)
    ensures Performed(acts + [a]) == Perform(Performed(acts), a)
  {
    assert (acts + [a])[..|acts|] == acts;
  }

  /** Both producers act on the ledger through one function of what they observed; the other
      steps of a push do not touch it. */
  lemma {:induction false} LedgerIsItsActs(es: seq<Event>)
    ensures Exec(es).ledger == Performed(Acts(es))
  {
    if es != [] {
      var before := es[..|es| - 1];
      LedgerIsItsActs(before);
      var act := ActOf(Exec(before), es[|es| - 1]);
      StepIsItsAct(Exec(before), es[|es| - 1]);
      if act == [] {
        assert Acts(before) + act == Acts(before);
      } else {
        PerformedSnoc(Acts(before), act[0]);
      }
    }
  }

  lemma StepIsItsAct(w: World, e: Event)
    ensures var act := ActOf(w, e);
            act == [] || act == [act[0]]
    ensures Step(w, e).ledger == if ActOf(w, e) == [] then w.ledger else Perform(w.ledger, ActOf(w, e)[0])
  {
  }

  /** How a body without a plan settles: an explicit flag wins; without one a callback goes by its
      counts, and a push also by a summary longer than "[]". */
  lemma BodiesSettle(b: Body)
    ensures var c := SettleCallback(b);
            && (c.drifted <==> b.drifted == Some(true) || (b.drifted == None && b.counts.added + b.counts.changed + b.counts.destroyed > 0))
            && c.counts == b.counts && c.summary == b.summary && c.marks == b.marks && c.infra == b.infra
    ensures var p := SettleIngest(b, None);
            && p.Some? && p.value == SettleCallback(b).(drifted := p.value.drifted)
            && (p.value.drifted <==>
                (b.drifted == Some(true)
                 || (b.drifted == None && (b.counts.added + b.counts.changed + b.counts.destroyed > 0 || |b.summary| > 2))))
  {
  }

  /** How a push with a plan settles: an unreadable plan refuses it; otherwise the plan's counts,
      summary and marks replace the sender's, an explicit flag still wins, and so does any explicit
      account of changes made outside. */
  lemma PlansSettle(b: Body, p: PlanReading)
    ensures SettleIngest(b, Some(p)).None? <==> p.marks.unparseable
    ensures !p.marks.unparseable ==>
              var s := SettleIngest(b, Some(p)).value;
              && s.counts == p.counts && s.summary == p.summary && s.marks == p.marks
              && (s.drifted <==> b.drifted == Some(true) || (b.drifted == None && p.drifted))
              && (s.infra == b.infra || s.infra == p.infra)
              && ((b.infra.counts.added != 0 || b.infra.counts.changed != 0 || b.infra.counts.destroyed != 0 || b.infra.summary != "") ==> s.infra == b.infra)
              && (b.infra == Infra(Counts(0, 0, 0), "") ==> s.infra == p.infra)
  {
  }

  /** A record without what tells its producer. */
  function Erased(r: Record): Record {
    r.(connection := None, run := None, origin := "", externalRef := None)
  }

  ghost predicate Alike(l: Ledger, m: Ledger) {
    l.sources == m.sources && |l.rows| == |m.rows| && forall i :: 0 <= i < |l.rows| ==> Erased(l.rows[i]) == Erased(m.rows[i])
  }

  /** The same request, or the same observation by either producer, at the same moment. */
  ghost predicate Twins(a: Act, b: Act) {
    || a == b
    || (a.Observes? && b.Observes? && a.at == b.at && a.d.source == b.d.source && a.d.key == b.d.key && a.d.result == b.d.result)
  }

  /** A write whose reference another record holds is refused by the database. */
  ghost predicate Clashes(l: Ledger, a: Act) {
    a.Observes? && RefTaken(l.rows, a.d.source, a.d.externalRef, Live(l.rows, a.d.source, a.d.key))
  }

  ghost predicate NoClash(acts: seq<Act>) {
    acts == [] || (NoClash(acts[..|acts| - 1]) && !Clashes(Performed(acts[..|acts| - 1]), acts[|acts| - 1]))
  }

  lemma AlikeLive(l: Ledger, m: Ledger, source: Id, key: string)
    requires Alike(l, m) && OneLive(l.rows)
    ensures Live(l.rows, source, key) == Live(m.rows, source, key)
  {
    var a, b := Live(l.rows, source, key), Live(m.rows, source, key);
    assert forall i :: 0 <= i < |l.rows| ==> Erased(l.rows[i]) == Erased(m.rows[i])
                                             && (IsLive(l.rows[i], source, key) <==> IsLive(m.rows[i], source, key));
    if a.Some? && b.Some? {
      assert IsLive(l.rows[b.value], source, key);
    }
  }

  lemma UpsertsAlike(l: Ledger, m: Ledger, d: Detection, e: Detection, now: nat)
    requires Alike(l, m) && OneLive(l.rows)
    requires d.source == e.source && d.key == e.key && d.result == e.result
    requires !RefTaken(l.rows, d.source, d.externalRef, Live(l.rows, d.source, d.key))
    requires !RefTaken(m.rows, e.source, e.externalRef, Live(m.rows, e.source, e.key))
    ensures Alike(Upserted(l, d, now), Upserted(m, e, now))
  {
    AlikeLive(l, m, d.source, d.key);
    var live := Live(l.rows, d.source, d.key);
    assert Erased(NewRecord(d, now)) == Erased(NewRecord(e, now));
    if live.Some? {
      assert Erased(l.rows[live.value]) == Erased(m.rows[live.value]);
      assert Erased(Redetected(l.rows[live.value], d, now)) == Erased(Redetected(m.rows[live.value], e, now));
    }
  }

  lemma CleansAlike(l: Ledger, m: Ledger, source: Id, key: string, now: nat)
    requires Alike(l, m)
    ensures Alike(ResolvedClean(l, source, key, now), ResolvedClean(m, source, key, now))
  {
    forall i | 0 <= i < |l.rows| ensures Erased(Cleaned(l.rows[i], source, key, now)) == Erased(Cleaned(m.rows[i], source, key, now)) {
      assert Erased(l.rows[i]) == Erased(m.rows[i]);
    }
  }

  lemma ManagedAlike(l: Ledger, m: Ledger, e: Event, now: nat)
    requires Alike(l, m)
    ensures Alike(Managed(l, e, now), Managed(m, e, now))
  {
    assert forall i :: 0 <= i < |l.rows| ==> Erased(l.rows[i]) == Erased(m.rows[i])
                                             && l.rows[i].status == m.rows[i].status && l.rows[i].source == m.rows[i].source;
  }

  /** The same observation by either producer takes alike ledgers to alike ledgers. */
  lemma TwinsActAlike(l: Ledger, m: Ledger, a: Act, b: Act)
    requires Alike(l, m) && OneLive(l.rows) && Twins(a, b) && !Clashes(l, a) && !Clashes(m, b)
    ensures Alike(Perform(l, a), Perform(m, b))
  {
    if a.Observes? {
      UpsertsAlike(l, m, a.d, b.d, a.at);
      CleansAlike(l, m, a.d.source, a.d.key, a.at);
    } else {
      ManagedAlike(l, m, a.event, a.at);
    }
  }

  lemma ActsInv(l: Ledger, a: Act)
    requires OneLive(l.rows)
    ensures OneLive(Perform(l, a).rows)
  {
    match a
    case Observes(d, at) =>
      var m := Observed(l, d, at);
      var live := Live(l.rows, d.source, d.key);
      forall i, s, k | 0 <= i < |l.rows| && Some(i) != live && IsLive(m.rows[i], s, k) ensures IsLive(l.rows[i], s, k) {}
    case Manages(e, at) =>
      var m := Managed(l, e, at);
      forall i, s, k | 0 <= i < |l.rows| && IsLive(m.rows[i], s, k) ensures IsLive(l.rows[i], s, k) {}
  }

  lemma {:induction false} ActsAlike(a: seq<Act>, b: seq<Act>)
    requires |a| == |b| && (forall i :: 0 <= i < |a| ==> Twins(a[i], b[i])) && NoClash(a) && NoClash(b)
    ensures Alike(Performed(a), Performed(b)) && OneLive(Performed(a).rows)
  {
    if a != [] {
      var n := |a| - 1;
      assert forall i :: 0 <= i < n ==> a[..n][i] == a[i] && b[..n][i] == b[i];
      ActsAlike(a[..n], b[..n]);
      TwinsActAlike(Performed(a[..n]), Performed(b[..n]), a[n], b[n]);
      ActsInv(Performed(a[..n]), a[n]);
    }
  }

  /** Runs with the same observations, each by whichever producer, and the same requests in the
      same order end in the same ledger, up to what tells the producers apart: however the steps
      of their pushes interleave, as long as no write is refused for its reference. */
  lemma MixedRunsAgree(es: seq<Event>, fs: seq<Event>)
    requires |Acts(es)| == |Acts(fs)| && (forall i :: 0 <= i < |Acts(es)| ==> Twins(Acts(es)[i], Acts(fs)[i]))
    requires NoClash(Acts(es)) && NoClash(Acts(fs))
    ensures Alike(Exec(es).ledger, Exec(fs).ledger)
  {
    LedgerIsItsActs(es);
    LedgerIsItsActs(fs);
    ActsAlike(Acts(es), Acts(fs));
  }
}
