/** The dashboard's aggregates, memoized per tenant scope under a rendered key. */
module Overview {
  import opened Collections
  import opened Names
  import opened Tenancy
  import opened Reports
  import Analyzer

  const TTL: nat := 30
  const MAX_ENTRIES: nat := 64

  /** A scope as a request carries it; the order of the ids means nothing. */
  datatype Caller = PlatformAdmin | Member(orgs: seq<Org>)

  function ScopeOf(c: Caller): Scope {
    if c.PlatformAdmin? then Everywhere else Within(set o | o in c.orgs)
  }

  /** An administrator sees everything, anyone else what is in an organization of theirs. */
  lemma CallerSees(c: Caller, rows: seq<Row>, r: Row)
    ensures r in Select(InScope(ScopeOf(c)), rows) <==> r in rows && (c == PlatformAdmin || (c.Member? && r.org in c.orgs))
  {
    SelectMembers(InScope(ScopeOf(c)), rows, r);
  }

  // ---------------------------------------------------------------- the key

  function ScopeCacheKey(c: Caller): string {
    if c.PlatformAdmin? then "platform-admin" else "orgs:" + Join(',', Sort(Less, c.orgs))
  }

  function CacheKey(syncKey: string, c: Caller): string {
    syncKey + [NUL] + ScopeCacheKey(c)
  }

  /** What an organization id looks like: not empty, no comma. */
  predicate PlainId(id: string) {
    PlainPart(',', id)
  }

  predicate PlainCaller(c: Caller) {
    c.Member? ==> forall i :: 0 <= i < |c.orgs| ==> PlainId(c.orgs[i])
  }

  /** Two callers share an entry exactly when both are administrators or their id lists are the
      same up to order. */
  lemma KeyIsScope(a: Caller, b: Caller)
    requires PlainCaller(a) && PlainCaller(b)
    ensures ScopeCacheKey(a) == ScopeCacheKey(b) <==> a == b || (a.Member? && b.Member? && multiset(a.orgs) == multiset(b.orgs))
  {
    if a.Member? && b.Member? {
      if multiset(a.orgs) == multiset(b.orgs) {
        LessIsStrictOrder();
        SortIgnoresOrder(Less, a.orgs, b.orgs);
      }
      if ScopeCacheKey(a) == ScopeCacheKey(b) {
        var x, y := Sort(Less, a.orgs), Sort(Less, b.orgs);
        assert Join(',', x) == ScopeCacheKey(a)[5..] == ScopeCacheKey(b)[5..] == Join(',', y);
        SortedPlain(a.orgs);
        SortedPlain(b.orgs);
        JoinInjective(',', x, y);
        assert multiset(a.orgs) == multiset(x) == multiset(y) == multiset(b.orgs);
      }
    } else if a.Member? || b.Member? {
      var m := if a.Member? then a else b;
      assert "orgs:" + Join(',', Sort(Less, m.orgs)) != "platform-admin" by {
        assert ("orgs:" + Join(',', Sort(Less, m.orgs)))[0] == 'o';
      }
    }
  }

  lemma SortedPlain(ids: seq<string>)
    requires forall i :: 0 <= i < |ids| ==> PlainId(ids[i])
    ensures forall i :: 0 <= i < |Sort(Less, ids)| ==> PlainId(Sort(Less, ids)[i])
  {
    var s := Sort(Less, ids);
    forall i | 0 <= i < |s| ensures PlainId(s[i]) {
      assert s[i] in multiset(s);
      assert s[i] in ids;
    }
  }

  /** Both conditions on ids are needed. */
  lemma KeyCollisions()
    ensures ScopeCacheKey(Member(["a,b"])) == ScopeCacheKey(Member(["a", "b"]))
    ensures ScopeCacheKey(Member([""])) == ScopeCacheKey(Member([]))
  {
    SortOne("a,b");
    SortOne("");
    assert "a"[0] < "b"[0];
    SortTwo("a", "b");
    var two := ["a", "b"];
    assert two[1..] == ["b"];
    assert Join(',', two) == "a" + "," + "b" == "a,b";
  }

  lemma SortOne(x: string)
    ensures Sort(Less, [x]) == [x]
  {
    assert [x][1..] == [];
  }

  lemma SortTwo(x: string, y: string)
    requires Less(x, y)
    ensures Sort(Less, [x, y]) == [x, y]
  {
    assert [x, y][1..] == [y];
    SortOne(y);
    if Less(y, x) {
      LessTransitive(x, y, x);
      LessIrreflexive(x);
    }
  }

  lemma CacheKeyIsScope(s: string, a: Caller, t: string, b: Caller)
    requires PlainCaller(a) && PlainCaller(b) && NUL !in s && NUL !in t && CacheKey(s, a) == CacheKey(t, b)
    ensures s == t && ScopeOf(a) == ScopeOf(b)
  {
    SplitAtFirst(NUL, s, ScopeCacheKey(a), t, ScopeCacheKey(b));
    KeyIsScope(a, b);
    if a.Member? && a != b {
      SameScope(a.orgs, b.orgs);
    }
  }

  lemma SameScope(a: seq<Org>, b: seq<Org>)
    requires multiset(a) == multiset(b)
    ensures ScopeOf(Member(a)) == ScopeOf(Member(b))
  {
    forall o ensures o in a <==> o in b { assert o in multiset(a) <==> o in multiset(b); }
  }

  // ---------------------------------------------------------------- the aggregates

  datatype Aggregates = Aggregates(totals: Summary, providers: map<string, int>, kinds: map<string, int>, versions: map<string, int>)

  function InScope(scope: Scope): Row -> bool {
    (r: Row) => Permits(scope, r.org)
  }

  function Merge(a: map<string, int>, b: map<string, int>): map<string, int> {
    map k | k in a.Keys + b.Keys :: Count(a, k) + Count(b, k)
  }

  function ProviderCounts(rows: seq<Row>): map<string, int> {
    if rows == [] then map[] else Merge(ProviderCounts(rows[..|rows| - 1]), rows[|rows| - 1].providers)
  }

  function KindCounts(rows: seq<Row>): map<string, int> {
    if rows == [] then map[] else Merge(KindCounts(rows[..|rows| - 1]), rows[|rows| - 1].kinds)
  }

  function VersionLabel(version: string): string {
    if version == "" then "unknown" else version
  }

  function VersionCounts(rows: seq<Row>): map<string, int> {
    if rows == [] then map[] else Bump(VersionCounts(rows[..|rows| - 1]), VersionLabel(rows[|rows| - 1].version), 1)
  }

  /** When the four queries of one computation ran. */
  datatype Reads = Reads(totals: nat, providers: nat, kinds: nat, versions: nat)

  type History = nat -> seq<Row>

  function Visible(h: History, t: nat, scope: Scope): seq<Row> {
    Select(InScope(scope), h(t))
  }

  function AggregatesAt(h: History, scope: Scope, r: Reads): Aggregates {
    Aggregates(Summed(Visible(h, r.totals, scope)), ProviderCounts(Visible(h, r.providers, scope)),
               KindCounts(Visible(h, r.kinds, scope)), VersionCounts(Visible(h, r.versions, scope)))
  }

  predicate InOrder(r: Reads) {
    r.totals <= r.providers <= r.kinds <= r.versions
  }

  function ProviderTotal(rows: seq<Row>, k: string): int {
    if rows == [] then 0 else ProviderTotal(rows[..|rows| - 1], k) + Count(rows[|rows| - 1].providers, k)
  }

  function KindTotal(rows: seq<Row>, k: string): int {
    if rows == [] then 0 else KindTotal(rows[..|rows| - 1], k) + Count(rows[|rows| - 1].kinds, k)
  }

  function VersionTotal(rows: seq<Row>, bucket: string): int {
    if rows == [] then 0
    else VersionTotal(rows[..|rows| - 1], bucket) + if VersionLabel(rows[|rows| - 1].version) == bucket then 1 else 0
  }

  /** Per key, the distributions are sums over the states. */
  lemma {:induction false} DistributionsAreSums(rows: seq<Row>, k: string)
    ensures Count(ProviderCounts(rows), k) == ProviderTotal(rows, k)
    ensures Count(KindCounts(rows), k) == KindTotal(rows, k)
    ensures Count(VersionCounts(rows), k) == VersionTotal(rows, k)
  {
    if rows != [] {
      DistributionsAreSums(rows[..|rows| - 1], k);
    }
  }

  /** What an aggregation says of a label: the sums over the states in scope at the moment each of
      its queries ran. */
  lemma AggregatesSay(h: History, c: Caller, r: Reads, k: string)
    ensures var a := AggregatesAt(h, ScopeOf(c), r);
            && a.totals == Summed(Select(InScope(ScopeOf(c)), h(r.totals)))
            && Count(a.providers, k) == ProviderTotal(Select(InScope(ScopeOf(c)), h(r.providers)), k)
            && Count(a.kinds, k) == KindTotal(Select(InScope(ScopeOf(c)), h(r.kinds)), k)
            && Count(a.versions, k) == VersionTotal(Select(InScope(ScopeOf(c)), h(r.versions)), k)
  {
    DistributionsAreSums(Select(InScope(ScopeOf(c)), h(r.providers)), k);
    DistributionsAreSums(Select(InScope(ScopeOf(c)), h(r.kinds)), k);
    DistributionsAreSums(Select(InScope(ScopeOf(c)), h(r.versions)), k);
  }

  /** One more state in scope adds its own counts, and one under its version or "unknown". */
  lemma OneMoreState(rows: seq<Row>, r: Row, k: string)
    ensures ProviderTotal(rows + [r], k) == ProviderTotal(rows, k) + (if k in r.providers then r.providers[k] else 0)
    ensures KindTotal(rows + [r], k) == KindTotal(rows, k) + (if k in r.kinds then r.kinds[k] else 0)
    ensures VersionTotal(rows + [r], k) == VersionTotal(rows, k) + (if k == (if r.version == "" then "unknown" else r.version) then 1 else 0)
  {
    assert (rows + [r])[..|rows|] == rows;
  }

  lemma {:induction false} VersionsCountEveryState(rows: seq<Row>)
    ensures Total(VersionCounts(rows)) == |rows|
  {
    if rows != [] {
      VersionsCountEveryState(rows[..|rows| - 1]);
      TotalBump(VersionCounts(rows[..|rows| - 1]), VersionLabel(rows[|rows| - 1].version), 1);
    }
  }

  // ---------------------------------------------------------------- the cache

  datatype Entry = Entry(expires: nat, data: Aggregates)

  datatype Fill = Fill(syncKey: string, caller: Caller, taken: Reads, stamp: nat)

  ghost predicate Sound(h: History, k: string, e: Entry, f: Fill) {
    && NUL !in f.syncKey && PlainCaller(f.caller) && k == CacheKey(f.syncKey, f.caller)
    && InOrder(f.taken) && f.taken.versions <= f.stamp && e.expires == f.stamp + TTL
    && e.data == AggregatesAt(h, ScopeOf(f.caller), f.taken)
  }

  ghost predicate AllSound(h: History, entries: map<string, Entry>, fills: map<string, Fill>) {
    entries.Keys == fills.Keys && forall k :: k in entries ==> Sound(h, k, entries[k], fills[k])
  }

  lemma PutSound(h: History, entries: map<string, Entry>, fills: map<string, Fill>, k: string, e: Entry, f: Fill)
    requires AllSound(h, entries, fills) && Sound(h, k, e, f)
    ensures AllSound(h, entries[k := e], fills[k := f])
  {
    var es, fs := entries[k := e], fills[k := f];
    assert es.Keys == entries.Keys + {k} && fs.Keys == fills.Keys + {k};
    forall j | j in es ensures Sound(h, j, es[j], fs[j]) {
      if j != k {
        assert es[j] == entries[j] && fs[j] == fills[j];
      }
    }
  }

  lemma SizeGrows(entries: map<string, Entry>, k: string, e: Entry)
    ensures |entries[k := e]| <= |entries| + 1
  {
    assert entries[k := e].Keys == entries.Keys + {k};
    assert |entries.Keys + {k}| <= |entries.Keys| + 1;
  }

  /** What is left of a full map that is to take one more entry: nothing. */
  function Room(entries: map<string, Entry>): map<string, Entry> {
    if |entries| >= MAX_ENTRIES then map[] else entries
  }

  ghost function RoomFills(entries: map<string, Entry>, fills: map<string, Fill>): map<string, Fill> {
    if |entries| >= MAX_ENTRIES then map[] else fills
  }

  lemma PutInRoom(h: History, entries: map<string, Entry>, fills: map<string, Fill>, k: string, e: Entry, f: Fill)
    requires |entries| <= MAX_ENTRIES && AllSound(h, entries, fills) && Sound(h, k, e, f)
    ensures var es, fs := Room(entries), RoomFills(entries, fills);
            AllSound(h, es[k := e], fs[k := f]) && |es[k := e]| <= MAX_ENTRIES
  {
    PutSound(h, Room(entries), RoomFills(entries, fills), k, e, f);
    SizeGrows(Room(entries), k, e);
  }

  class OverviewCache {
    var entries: map<string, Entry>
    ghost var fills: map<string, Fill>
    const history: History

    ghost predicate Valid() reads this {
      |entries| <= MAX_ENTRIES && AllSound(history, entries, fills)
    }

    constructor (h: History)
      ensures Valid() && history == h && entries == map[]
    {
      history, entries, fills := h, map[], map[];
    }

    predicate Hit(key: string, now: nat) reads this {
      key in entries && now < entries[key].expires
    }

    /** One dashboard load at now. On a miss the four queries run at the moments in taken and the
        entry is stamped when they are done; a failed query answers nothing and stores nothing.
        Whatever is answered is what this caller's own queries would have given: on a hit those
        of the computation that filled the entry, on a miss its own. */
    method OverviewAggregates(syncKey: string, caller: Caller, now: nat, taken: Reads, stamp: nat, fails: bool)
      returns (answer: Option<Aggregates>)
      requires Valid() && NUL !in syncKey && PlainCaller(caller)
      requires now <= taken.totals && InOrder(taken) && taken.versions <= stamp
      modifies this
      ensures Valid()
      ensures answer.None? <==> !old(Hit(CacheKey(syncKey, caller), now)) && fails
      ensures answer.None? ==> entries == old(entries) && fills == old(fills)
      ensures old(Hit(CacheKey(syncKey, caller), now)) ==>
                var f := old(fills)[CacheKey(syncKey, caller)];
                && answer == Some(old(entries)[CacheKey(syncKey, caller)].data) && entries == old(entries) && fills == old(fills)
                && f.syncKey == syncKey
                && (f.stamp <= now ==> Served(history, caller, f.taken, answer.value, f.stamp, now))
      ensures |entries| <= 64 && (|old(entries)| < 64 ==> old(entries).Keys <= entries.Keys)
      ensures answer.Some? && !old(Hit(CacheKey(syncKey, caller), now)) ==>
                && answer == Some(AggregatesAt(history, ScopeOf(caller), taken))
                && entries == Room(old(entries))[CacheKey(syncKey, caller) := Entry(stamp + TTL, answer.value)]
                && fills == RoomFills(old(entries), old(fills))[CacheKey(syncKey, caller) := Fill(syncKey, caller, taken, stamp)]
    {
      var key := CacheKey(syncKey, caller);
      if key in entries && now < entries[key].expires {
        CacheKeyIsScope(syncKey, caller, fills[key].syncKey, fills[key].caller);
        return Some(entries[key].data);
      }
      if fails {
        return None;
      }
      var scope := ScopeOf(caller);
      var data := AggregatesAt(history, scope, taken);
      Put(key, Entry(stamp + TTL, data), Fill(syncKey, caller, taken, stamp));
      return Some(data);
    }

    /** A full map is dropped before the entry goes in. */
    method Put(key: string, e: Entry, ghost f: Fill)
      requires Valid() && Sound(history, key, e, f)
      modifies this
      ensures Valid() && entries == Room(old(entries))[key := e] && fills == RoomFills(old(entries), old(fills))[key := f]
    {
      PutInRoom(history, entries, fills, key, e, f);
      ghost var rest := RoomFills(entries, fills);
      var kept := Room(entries);
      entries, fills := kept[key := e], rest[key := f];
    }
  }

  // ---------------------------------------------------------------- how old an answer is

  /** An answer the cache gives this caller at now: the aggregates of its own scope, from queries
      that ended by a stamp less than TTL ago. */
  ghost predicate Served(h: History, caller: Caller, r: Reads, data: Aggregates, stamp: nat, now: nat) {
    InOrder(r) && r.versions <= stamp && stamp <= now < stamp + TTL && data == AggregatesAt(h, ScopeOf(caller), r)
  }

  /** data is what the caller would have aggregated itself less than 30 seconds before now. */
  ghost predicate WithinTTL(h: History, caller: Caller, data: Aggregates, now: nat) {
    exists r: Reads :: InOrder(r) && now - 30 < r.totals && r.versions <= now && data == AggregatesAt(h, ScopeOf(caller), r)
  }

  /** Whatever the history, every answer served over the life of an entry whose computation took
      d seconds is an aggregation of the last 30 seconds. */
  ghost predicate AlwaysWithinTTL(d: nat) {
    forall h: History, caller, r, data, stamp: nat, now: nat ::
      Served(h, caller, r, data, stamp, now) && stamp - r.totals == d ==> WithinTTL(h, caller, data, now)
  }

  /** A store with one state at first and none from second 1 on. */
  function Vanished(t: nat): seq<Row> {
    if t == 0 then [Reports.Row("s", "o", "k", "", 0, 0, 0, 0, 0, map[], map[])] else []
  }

  function FirstAggregates(): Aggregates {
    AggregatesAt(Vanished, Everywhere, Reads(0, 0, 0, 0))
  }

  lemma VanishedHistory()
    ensures forall r: Reads :: r.totals > 0 ==> AggregatesAt(Vanished, Everywhere, r) != FirstAggregates()
  {
    assert |Visible(Vanished, 0, Everywhere)| == 1 by { assert Vanished(0)[..0] == []; }
    forall r: Reads | r.totals > 0 ensures AggregatesAt(Vanished, Everywhere, r) != FirstAggregates() {
      assert Visible(Vanished, r.totals, Everywhere) == [];
    }
  }

  /** The stamp is taken after the queries, so the TTL bounds the age of answers exactly when they
      take no time at all. */
  lemma FreshIffQueriesAreInstant(d: nat)
    ensures AlwaysWithinTTL(d) <==> d == 0
  {
    if d == 0 {
      forall h: History, caller, r, data, stamp: nat, now: nat | Served(h, caller, r, data, stamp, now) && stamp - r.totals == d
        ensures WithinTTL(h, caller, data, now)
      {
        assert now - 30 < r.totals && r.versions <= now;
      }
    } else {
      LateAggregates(d);
    }
  }

  lemma LateAggregates(d: nat)
    requires d > 0
    ensures !AlwaysWithinTTL(d) && !WithinTTL(Vanished, PlatformAdmin, FirstAggregates(), d + 29)
  {
    VanishedHistory();
    assert Served(Vanished, PlatformAdmin, Reads(0, 0, 0, 0), FirstAggregates(), d, d + 29);
    assert !WithinTTL(Vanished, PlatformAdmin, FirstAggregates(), d + 29);
  }

  /** Two loads that show it: the first computes at 0 and ends at d, the second is answered 29
      seconds after d with what no aggregation of the 30 seconds before it gives. */
  method AnswerLate(d: nat) returns (late: Option<Aggregates>)
    requires d > 0
    ensures late == Some(FirstAggregates()) && !WithinTTL(Vanished, PlatformAdmin, FirstAggregates(), d + 29)
  {
    LateAggregates(d);
    var cache := new OverviewCache(Vanished);
    var first := cache.OverviewAggregates("", PlatformAdmin, 0, Reads(0, 0, 0, 0), d, false);
    var t := d + 29;
    late := cache.OverviewAggregates("", PlatformAdmin, t, Reads(t, t, t, t), t, true);
  }

  /** The first entries of the sorted list; no limit gives all of it. */
  method TopCounts(m: map<string, int>, limit: int) returns (out: seq<Analyzer.Tag>)
    ensures out == if 0 < limit < |Analyzer.Breakdown(m)| then Analyzer.Breakdown(m)[..limit] else Analyzer.Breakdown(m)
  {
    out := Analyzer.SortedCounts(m);
    if limit > 0 && |out| > limit {
      out := out[..limit];
    }
  }
}
