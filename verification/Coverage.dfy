/** The coverage view's join and its cache. The cache is keyed by the source alone although its
    content was read under one caller's scope; the linkage of the tables is what makes the
    entry right for every caller who may see the source. */
module Coverage {
  import opened Collections
  import opened Names
  import opened Tenancy
  import opened Targets
  import opened Linkage

  // ---------------------------------------------------------------- the scoped reads

  function RunsOf(w: World, scope: Scope, source: Id): map<Id, Row> {
    map id | id in w.rows && w.rows[id].RunRow? && w.rows[id].source == Some(source) && Permits(scope, w.rows[id].org) :: w.rows[id]
  }

  ghost predicate Newest(runs: map<Id, Row>, id: Id) {
    && id in runs && runs[id].RunRow?
    && forall o :: o in runs && runs[o].RunRow? && runs[o].key == runs[id].key ==> runs[o].created <= runs[id].created
  }

  /** DISTINCT ON (state_key) ... ORDER BY created_at DESC. */
  ghost predicate IsLatestPerState(latest: map<string, Row>, runs: map<Id, Row>) {
    && (forall id :: id in runs && runs[id].RunRow? ==> runs[id].key in latest)
    && (forall k :: k in latest ==> exists id :: Newest(runs, id) && runs[id].key == k && runs[id] == latest[k])
  }

  function LiveRecordsOf(w: World, scope: Scope, source: Id): map<Id, Row> {
    map id | id in w.rows && w.rows[id].RecordRow? && IsLive(w.rows[id], source, w.rows[id].stateKey)
             && Permits(scope, w.rows[id].org) :: w.rows[id]
  }

  function SchedulesIn(w: World, scope: Scope): map<Id, Row> {
    map id | id in w.rows && w.rows[id].ScheduleRow? && Permits(scope, w.rows[id].org) :: w.rows[id]
  }

  predicate Covers(s: Row, source: Id, key: string) {
    s.ScheduleRow? && s.enabled && key != "" && PlansState(Items(s.target), source, key)
  }

  /** The keys an enabled schedule in sight targets. */
  ghost predicate IsScheduledKeys(keys: set<string>, w: World, scope: Scope, source: Id) {
    forall k :: k in keys <==> Scheduled(w, scope, source, k)
  }

  ghost predicate Scheduled(w: World, scope: Scope, source: Id, key: string) {
    exists id :: id in SchedulesIn(w, scope) && Covers(w.rows[id], source, key)
  }

  ghost predicate AnyCovers(schedules: seq<Row>, source: Id, key: string) {
    exists s :: s in schedules && Covers(s, source, key)
  }

  lemma AnyCoversMore(schedules: seq<Row>, s: Row, source: Id, key: string)
    ensures AnyCovers(schedules + [s], source, key) <==> AnyCovers(schedules, source, key) || Covers(s, source, key)
  {
    assert s in schedules + [s];
  }

  method ScheduledStateKeys(schedules: seq<Row>, source: Id) returns (out: set<string>)
    requires forall s :: s in schedules ==> s.ScheduleRow?
    ensures forall k :: k in out <==> AnyCovers(schedules, source, k)
  {
    out := {};
    for i := 0 to |schedules|
      invariant forall k :: k in out <==> AnyCovers(schedules[..i], source, k)
    {
      var s := schedules[i];
      assert s in schedules;
      assert schedules[..i + 1] == schedules[..i] + [s];
      forall k ensures AnyCovers(schedules[..i + 1], source, k) <==> AnyCovers(schedules[..i], source, k) || Covers(s, source, k) {
        AnyCoversMore(schedules[..i], s, source, k);
      }
      if s.enabled {
        var keys := KeysFor(Items(s.target), source);
        assert forall k :: k in keys <==> Covers(s, source, k);
        out := out + keys;
      }
    }
    assert schedules[..|schedules|] == schedules;
  }

  method KeysFor(items: seq<Item>, source: Id) returns (keys: set<string>)
    ensures forall k :: k in keys <==> k != "" && PlansState(items, source, k)
  {
    keys := {};
    for j := 0 to |items|
      invariant forall k :: k in keys <==> k != "" && PlansState(items[..j], source, k)
    {
      assert items[..j + 1] == items[..j] + [items[j]];
      if items[j].source == source && items[j].key != "" {
        keys := keys + {items[j].key};
      }
    }
    assert items[..|items|] == items;
  }

  // ---------------------------------------------------------------- one join for every caller

  /** Two scopes that both reach a source's organization see the same runs, live records and
      scheduled keys of it. */
  lemma ScopesAgree(w: World, a: Scope, b: Scope, source: Id)
    requires Inv(w) && source != "" && source in w.owner && Permits(a, w.owner[source]) && Permits(b, w.owner[source])
    ensures RunsOf(w, a, source) == RunsOf(w, b, source)
    ensures LiveRecordsOf(w, a, source) == LiveRecordsOf(w, b, source)
    ensures forall keys :: IsScheduledKeys(keys, w, a, source) <==> IsScheduledKeys(keys, w, b, source)
  {
    RowsAgree(w, a, b, source);
    forall k ensures Scheduled(w, a, source, k) <==> Scheduled(w, b, source, k) {
      if Scheduled(w, a, source, k) { ScheduledAgree(w, a, b, source, k); }
      if Scheduled(w, b, source, k) { ScheduledAgree(w, b, a, source, k); }
    }
  }

  lemma RowsAgree(w: World, a: Scope, b: Scope, source: Id)
    requires Inv(w) && source in w.owner && Permits(a, w.owner[source]) && Permits(b, w.owner[source])
    ensures RunsOf(w, a, source) == RunsOf(w, b, source)
    ensures LiveRecordsOf(w, a, source) == LiveRecordsOf(w, b, source)
  {
    forall id | id in w.rows ensures id in RunsOf(w, a, source) <==> id in RunsOf(w, b, source)
                             ensures id in LiveRecordsOf(w, a, source) <==> id in LiveRecordsOf(w, b, source)
    {
      RowSeenAlike(w, a, b, source, id);
    }
  }

  lemma RowSeenAlike(w: World, a: Scope, b: Scope, source: Id, id: Id)
    requires Inv(w) && source in w.owner && Permits(a, w.owner[source]) && Permits(b, w.owner[source]) && id in w.rows
    ensures (w.rows[id].RunRow? && w.rows[id].source == Some(source)) || (w.rows[id].RecordRow? && w.rows[id].about == Some(source))
            ==> Permits(a, w.rows[id].org) && Permits(b, w.rows[id].org)
  {
    var row := w.rows[id];
    if row.RunRow? && row.source == Some(source) {
      assert RefsOf(row)[|Maybe(Connections, row.connection)|] == Ref(Sources, source);
      ReferrerOwned(w, id, source);
    } else if row.RecordRow? && row.about == Some(source) {
      assert RefsOf(row)[0] == Ref(Sources, source);
      ReferrerOwned(w, id, source);
    }
  }

  lemma ScheduledAgree(w: World, a: Scope, b: Scope, source: Id, key: string)
    requires Inv(w) && source != "" && source in w.owner && Permits(b, w.owner[source]) && Scheduled(w, a, source, key)
    ensures Scheduled(w, b, source, key)
  {
    var id :| id in SchedulesIn(w, a) && Covers(w.rows[id], source, key);
    var items := Items(w.rows[id].target);
    var i :| 0 <= i < |items| && items[i].source == source && items[i].key == key;
    ItemRef(items, i);
    ReferrerOwned(w, id, source);
    assert id in SchedulesIn(w, b);
  }

  predicate RefersTo(row: Row, source: Id) {
    Ref(Sources, source) in RefsOf(row)
  }

  lemma ReferrerOwned(w: World, id: Id, source: Id)
    requires Inv(w) && id in w.rows && RefersTo(w.rows[id], source)
    ensures source in w.owner && w.owner[source] == w.rows[id].org
  {
    assert RowOk(w.owner, id, w.rows[id]);
  }

  // ---------------------------------------------------------------- the cache

  /** The system over time: the tables, and what each source's backend lists. */
  datatype Moment = Moment(w: World, listing: map<Id, seq<string>>)

  type History = nat -> Moment

  ghost predicate Lawful(h: History) {
    && (forall t :: Inv(h(t).w))
    && (forall t, u :: t <= u ==> Grows(h(t).w, h(u).w))
  }

  datatype Inputs = Inputs(refs: seq<string>, latestRuns: map<string, Row>, liveRecords: map<Id, Row>, scheduled: set<string>)

  /** When the four reads of one fill happened. */
  datatype Reads = Reads(listed: nat, runs: nat, records: nat, schedules: nat)

  predicate InOrder(r: Reads) {
    r.listed <= r.runs <= r.records <= r.schedules
  }

  /** data is what a caller with this scope reads at those moments. */
  ghost predicate IsJoin(h: History, source: Id, scope: Scope, r: Reads, data: Inputs) {
    && source in h(r.listed).listing && data.refs == h(r.listed).listing[source]
    && IsLatestPerState(data.latestRuns, RunsOf(h(r.runs).w, scope, source))
    && data.liveRecords == LiveRecordsOf(h(r.records).w, scope, source)
    && IsScheduledKeys(data.scheduled, h(r.schedules).w, scope, source)
  }

  /** The cache is transparent: what one caller's fill read is what another caller's would have. */
  lemma JoinForEveryone(h: History, source: Id, a: Scope, b: Scope, r: Reads, data: Inputs, t: nat)
    requires Lawful(h) && InOrder(r) && t <= r.listed && Loads(h(t).w, Ref(Sources, source), a)
    requires Permits(b, h(t).w.rows[source].org) && source != ""
    ensures IsJoin(h, source, a, r, data) <==> IsJoin(h, source, b, r, data)
  {
    assert RowOk(h(t).w.owner, source, h(t).w.rows[source]);
    forall u | u == r.runs || u == r.records || u == r.schedules
      ensures Inv(h(u).w) && source in h(u).w.owner && h(u).w.owner[source] == h(t).w.rows[source].org
    {
      assert Grows(h(t).w, h(u).w);
    }
    ScopesAgree(h(r.runs).w, a, b, source);
    ScopesAgree(h(r.records).w, a, b, source);
    ScopesAgree(h(r.schedules).w, a, b, source);
  }

  /** run is the newest of the source's runs for this state, of whatever organization. */
  ghost predicate IsNewestRun(rows: map<Id, Row>, source: Id, key: string, run: Row) {
    && (exists id :: id in rows && rows[id] == run && run.RunRow? && run.source == Some(source) && run.key == key)
    && (forall id :: id in rows && rows[id].RunRow? && rows[id].source == Some(source) && rows[id].key == key && run.RunRow?
          ==> rows[id].created <= run.created)
  }

  /** An enabled schedule has an item for this state, in its targets or as its one target. */
  ghost predicate IsTargeted(rows: map<Id, Row>, source: Id, key: string) {
    exists id :: id in rows && rows[id].ScheduleRow? && rows[id].enabled
                 && if rows[id].target.targets == [] then rows[id].target.source == source && rows[id].target.key == key
                    else exists it :: it in rows[id].target.targets && it.source == source && it.key == key
  }

  /** What a join says, over the tables alone: for anyone who may load the source it holds the
      newest run of every state that has one, every record of the source that is not resolved, and
      the non-empty keys that enabled schedules target. */
  lemma JoinSays(h: History, source: Id, scope: Scope, r: Reads, data: Inputs, t: nat)
    requires Lawful(h) && InOrder(r) && t <= r.listed && Loads(h(t).w, Ref(Sources, source), scope) && source != ""
    requires IsJoin(h, source, scope, r, data)
    ensures var rows := h(r.runs).w.rows;
            && (forall k :: k in data.latestRuns ==> IsNewestRun(rows, source, k, data.latestRuns[k]))
            && (forall id :: id in rows && rows[id].RunRow? && rows[id].source == Some(source) ==> rows[id].key in data.latestRuns)
    ensures var rows := h(r.records).w.rows;
            forall id :: id in data.liveRecords
                         <==> id in rows && rows[id].RecordRow? && rows[id].about == Some(source) && rows[id].stage != "resolved"
    ensures forall id :: id in data.liveRecords ==> data.liveRecords[id] == h(r.records).w.rows[id]
    ensures forall k :: k in data.scheduled <==> k != "" && IsTargeted(h(r.schedules).w.rows, source, k)
  {
    JoinForEveryone(h, source, scope, Everywhere, r, data, t);
    NewestMeans(h(r.runs).w, source, data.latestRuns);
    forall k ensures k in data.scheduled <==> k != "" && IsTargeted(h(r.schedules).w.rows, source, k) {
      TargetedMeans(h(r.schedules).w, source, k);
    }
  }

  lemma NewestMeans(w: World, source: Id, latest: map<string, Row>)
    requires IsLatestPerState(latest, RunsOf(w, Everywhere, source))
    ensures forall k :: k in latest ==> IsNewestRun(w.rows, source, k, latest[k])
    ensures forall id :: id in w.rows && w.rows[id].RunRow? && w.rows[id].source == Some(source) ==> w.rows[id].key in latest
  {
    var runs := RunsOf(w, Everywhere, source);
    forall id | id in w.rows && w.rows[id].RunRow? && w.rows[id].source == Some(source) ensures w.rows[id].key in latest {
      assert id in runs && runs[id].RunRow?;
    }
    forall k | k in latest ensures IsNewestRun(w.rows, source, k, latest[k]) {
      var id :| Newest(runs, id) && runs[id].key == k && runs[id] == latest[k];
      assert forall o :: o in w.rows && w.rows[o].RunRow? && w.rows[o].source == Some(source) ==> o in runs;
    }
  }

  lemma TargetedMeans(w: World, source: Id, key: string)
    ensures Scheduled(w, Everywhere, source, key) <==> key != "" && IsTargeted(w.rows, source, key)
  {
    forall id | id in w.rows && w.rows[id].ScheduleRow?
      ensures PlansState(Items(w.rows[id].target), source, key)
              <==> if w.rows[id].target.targets == [] then w.rows[id].target.source == source && w.rows[id].target.key == key
                   else exists it :: it in w.rows[id].target.targets && it.source == source && it.key == key
    {
      var t := w.rows[id].target;
      if t.targets == [] {
        assert Items(t)[0].source == t.source && Items(t)[0].key == t.key;
      } else if it :| it in t.targets && it.source == source && it.key == key {
        var i :| 0 <= i < |t.targets| && t.targets[i] == it;
      }
    }
    assert SchedulesIn(w, Everywhere).Keys == set id | id in w.rows && w.rows[id].ScheduleRow?;
  }

  const TTL: nat := 60

  datatype Entry = Entry(at: nat, data: Inputs)

  /** An entry remembered with the fill that made it: who read, when the caller's own lookup of
      the source happened, and when each read happened. */
  datatype Fill = Fill(scope: Scope, asked: nat, taken: Reads)

  ghost predicate Sound(h: History, s: Id, e: Entry, f: Fill) {
    && s != "" && f.asked <= f.taken.listed && InOrder(f.taken) && f.taken.schedules <= e.at
    && Loads(h(f.asked).w, Ref(Sources, s), f.scope)
    && IsJoin(h, s, f.scope, f.taken, e.data)
  }

  ghost predicate AllSound(h: History, entries: map<Id, Entry>, fills: map<Id, Fill>) {
    entries.Keys == fills.Keys && forall s :: s in entries ==> Sound(h, s, entries[s], fills[s])
  }

  lemma PutSound(h: History, entries: map<Id, Entry>, fills: map<Id, Fill>, s: Id, e: Entry, f: Fill)
    requires AllSound(h, entries, fills) && Sound(h, s, e, f)
    ensures AllSound(h, entries[s := e], fills[s := f])
  {
    var es, fs := entries[s := e], fills[s := f];
    assert es.Keys == entries.Keys + {s} && fs.Keys == fills.Keys + {s};
    forall j | j in es ensures Sound(h, j, es[j], fs[j]) {
      if j != s {
        assert es[j] == entries[j] && fs[j] == fills[j];
      }
    }
  }

  /** An entry answers anyone who can load the source now. */
  lemma EntryAnswers(h: History, s: Id, e: Entry, f: Fill, scope: Scope, now: nat)
    requires Lawful(h) && Sound(h, s, e, f) && Loads(h(now).w, Ref(Sources, s), scope)
    ensures IsJoin(h, s, scope, f.taken, e.data)
  {
    SourceKeepsOrg(h, s, f.asked, now);
    JoinForEveryone(h, s, f.scope, scope, f.taken, e.data, f.asked);
  }

  class CoverageCache {
    var entries: map<Id, Entry>
    ghost var fills: map<Id, Fill>
    ghost const history: History

    ghost predicate Valid() reads this {
      AllSound(history, entries, fills)
    }

    constructor (h: History)
      ensures Valid() && history == h && entries == map[]
    {
      history, entries, fills := h, map[], map[];
    }

    method Get(source: Id, now: nat) returns (data: Option<Inputs>)
      ensures data == if source in entries && now - entries[source].at <= TTL then Some(entries[source].data) else None
    {
      if source !in entries || now - entries[source].at > TTL {
        return None;
      }
      return Some(entries[source].data);
    }

    method Set(source: Id, now: nat, data: Inputs)
      modifies this
      ensures entries == old(entries)[source := Entry(now, data)] && fills == old(fills)
    {
      entries := entries[source := Entry(now, data)];
    }

    /** Whether Get answers from the cache. */
    predicate Hit(source: Id, now: nat) reads this {
      source in entries && now - entries[source].at <= TTL
    }

    /** One coverage request at now. reading is what this caller's own reads return, made only on
        a miss; fails says that one of them fails. A caller who cannot load the source gets
        nothing; anyone else gets a join that is the caller's own. A hit is answered from the
        entry as it stands, a miss with the reading, which is stored under the moment the fill
        ended. */
    method Coverage(source: Id, scope: Scope, now: nat, current: World, taken: Reads, reading: Inputs, stamp: nat, fails: bool)
      returns (answer: Option<Inputs>)
      requires Valid() && Lawful(history) && source != "" && current == history(now).w
      requires now <= taken.listed && InOrder(taken) && taken.schedules <= stamp
      requires !fails ==> IsJoin(history, source, scope, taken, reading)
      modifies this
      ensures Valid()
      ensures answer.Some? <==> Loads(current, Ref(Sources, source), scope) && (old(Hit(source, now)) || !fails)
      ensures answer.None? ==> entries == old(entries) && fills == old(fills)
      ensures answer.Some? && old(Hit(source, now)) ==>
                && answer == Some(old(entries)[source].data) && entries == old(entries) && fills == old(fills)
                && (old(entries)[source].at <= now ==>
                      Served(history, source, scope, old(fills)[source].taken, answer.value, old(entries)[source].at, now))
      ensures answer.Some? && !old(Hit(source, now)) ==>
                && answer == Some(reading) && entries == old(entries)[source := Entry(stamp, reading)]
                && fills == old(fills)[source := Fill(scope, now, taken)]
    {
      if !Loads(current, Ref(Sources, source), scope) {
        return None;
      }
      answer := Get(source, now);
      if answer.Some? {
        EntryAnswers(history, source, entries[source], fills[source], scope, now);
        return;
      }
      if fails {
        return None;
      }
      Store(source, Entry(stamp, reading), Fill(scope, now, taken));
      return Some(reading);
    }

    method Store(source: Id, e: Entry, ghost f: Fill)
      requires Valid() && Sound(history, source, e, f)
      modifies this
      ensures Valid() && entries == old(entries)[source := e] && fills == old(fills)[source := f]
    {
      PutSound(history, entries, fills, source, e, f);
      Set(source, e.at, e.data);
      fills := fills[source := f];
    }
  }

  /** An answer the cache gives at now to a caller who can load the source then: a join of the
      caller's own, from reads that ended by a stamp at most TTL ago. */
  ghost predicate Served(h: History, source: Id, scope: Scope, r: Reads, data: Inputs, stamp: nat, now: nat) {
    && source != "" && InOrder(r) && r.schedules <= stamp && stamp <= now && now - stamp <= TTL
    && Loads(h(now).w, Ref(Sources, source), scope) && IsJoin(h, source, scope, r, data)
  }

  /** A source that exists at two moments has the same owner at both. */
  lemma SourceKeepsOrg(h: History, source: Id, t: nat, u: nat)
    requires Lawful(h) && Exists(h(t).w, Ref(Sources, source)) && Exists(h(u).w, Ref(Sources, source))
    ensures h(t).w.rows[source].org == h(u).w.rows[source].org
  {
    assert RowOk(h(t).w.owner, source, h(t).w.rows[source]) && RowOk(h(u).w.owner, source, h(u).w.rows[source]);
    assert t <= u ==> Grows(h(t).w, h(u).w);
    assert u <= t ==> Grows(h(u).w, h(t).w);
  }

  // ---------------------------------------------------------------- histories of the API

  /** The tables after the first n steps. */
  function After(labels: nat -> Label, n: nat): World {
    if n == 0 then EMPTY else Step(After(labels, n - 1), labels(n - 1))
  }

  lemma {:induction false} AfterInv(labels: nat -> Label, m: nat, n: nat)
    requires m <= n
    ensures Inv(After(labels, n)) && Grows(After(labels, m), After(labels, n))
    decreases n
  {
    if n > 0 {
      AfterInv(labels, if m == n then n - 1 else m, n - 1);
      StepFine(After(labels, n - 1), labels(n - 1));
    }
  }

  /** Any run of the drift API, spread over time in any way, is a lawful history. */
  lemma RunsAreLawful(h: History, labels: nat -> Label, stepsBy: nat -> nat)
    requires forall t, u :: t <= u ==> stepsBy(t) <= stepsBy(u)
    requires forall t :: h(t).w == After(labels, stepsBy(t))
    ensures Lawful(h)
  {
    forall t ensures Inv(h(t).w) { AfterInv(labels, stepsBy(t), stepsBy(t)); }
    forall t, u | t <= u ensures Grows(h(t).w, h(u).w) { AfterInv(labels, stepsBy(t), stepsBy(u)); }
  }

  // ---------------------------------------------------------------- how old an answer is

  /** data is what the caller would have read itself within the last 60 seconds before now. */
  ghost predicate WithinTTL(h: History, source: Id, scope: Scope, data: Inputs, now: nat) {
    exists r: Reads :: InOrder(r) && now - 60 <= r.listed && r.schedules <= now && IsJoin(h, source, scope, r, data)
  }

  /** Whatever the history, every answer served over the life of an entry whose fill took d
      seconds is a join of the last 60 seconds. */
  ghost predicate AlwaysWithinTTL(d: nat) {
    forall h: History, source, scope, r, data, stamp: nat, now: nat ::
      Lawful(h) && Served(h, source, scope, r, data, stamp, now) && stamp - r.listed == d ==> WithinTTL(h, source, scope, data, now)
  }

  /** One source whose backend lists one state at first and none from second 1 on. */
  function Emptied(t: nat): Moment {
    Moment(Step(EMPTY, AddSource("s", "o")), map["s" := if t == 0 then ["a"] else []])
  }

  const FIRST_LISTING := Inputs(["a"], map[], map[], {})

  lemma EmptiedHistory()
    ensures Lawful(Emptied) && forall t :: Loads(Emptied(t).w, Ref(Sources, "s"), Everywhere)
    ensures IsJoin(Emptied, "s", Everywhere, Reads(0, 0, 0, 0), FIRST_LISTING)
    ensures forall r: Reads :: r.listed > 0 ==> !IsJoin(Emptied, "s", Everywhere, r, FIRST_LISTING)
  {
    var w := Step(EMPTY, AddSource("s", "o"));
    StepFine(EMPTY, AddSource("s", "o"));
    assert !IsSpace("s"[0]);
    assert w.rows == map["s" := SourceRow("o")];
    assert forall t :: Emptied(t).w == w;
  }

  /** The stamp is taken when the fill ends, so the TTL bounds the age of answers exactly when
      filling takes no time at all. */
  lemma FreshIffFillIsInstant(d: nat)
    ensures AlwaysWithinTTL(d) <==> d == 0
  {
    if d == 0 {
      forall h: History, source, scope, r, data, stamp: nat, now: nat
        | Lawful(h) && Served(h, source, scope, r, data, stamp, now) && stamp - r.listed == d
        ensures WithinTTL(h, source, scope, data, now)
      {
        assert now - 60 <= r.listed && r.schedules <= now;
      }
    } else {
      EmptiedHistory();
      assert Served(Emptied, "s", Everywhere, Reads(0, 0, 0, 0), FIRST_LISTING, d, d + 60);
      assert !WithinTTL(Emptied, "s", Everywhere, FIRST_LISTING, d + 60);
    }
  }

  /** Two requests that show it: the first fills the cache from reads at 0 and ends at d, the
      second is answered at d + 60 with what no join of the 60 seconds before it gives. */
  method AnswerLate(d: nat) returns (late: Option<Inputs>)
    requires d > 0
    ensures late == Some(FIRST_LISTING) && !WithinTTL(Emptied, "s", Everywhere, FIRST_LISTING, d + 60)
  {
    EmptiedHistory();
    var cache := new CoverageCache(Emptied);
    var first := cache.Coverage("s", Everywhere, 0, Emptied(0).w, Reads(0, 0, 0, 0), FIRST_LISTING, d, false);
    var again := Reads(d + 60, d + 60, d + 60, d + 60);
    late := cache.Coverage("s", Everywhere, d + 60, Emptied(d + 60).w, again, FIRST_LISTING, d + 60, true);
  }
}
