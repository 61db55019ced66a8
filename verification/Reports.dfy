/** The Reports query: which predicates go to the database, which are applied afterwards, and the
    fast path that leaves counting and summing to the database. The store is the sequence of
    analysed states in the order the database returns them. */
module Reports {
  import opened Collections
  import opened Names
  import opened Tenancy
  import Analyzer

  const MAX_INT: int := 0x7FFF_FFFF_FFFF_FFFF
  const PREVIEW_CAP: nat := 500

  datatype Row = Row(source: Id, org: Org, key: string, version: string, size: int, rum: int, managed: int, data: int, total: int,
                     providers: map<string, int>, kinds: map<string, int>)

  datatype Range = Range(min: int, max: int)

  datatype Filters = Filters(sources: seq<Id>, keyQuery: string, version: string, op: string, provider: string, kind: string,
                             rum: Range, managed: Range, data: Range, total: Range, size: Range)

  /** What goes into the WHERE clause; None adds no term. */
  datatype Bounds = Bounds(min: Option<int>, max: Option<int>)

  datatype StateQuery = StateQuery(sources: seq<Id>, keyContains: string, versionExact: Option<string>,
                                   rum: Bounds, managed: Bounds, data: Bounds, total: Bounds, size: Bounds)

  /** Case folding, and semantic-version validity and order. */
  datatype Text = Text(lower: string -> string, valid: string -> bool, compare: (string, string) -> int)

  // ---------------------------------------------------------------- versions

  predicate RangeMatch(cmp: int, op: string) {
    match op
    case "lt" => cmp < 0
    case "lte" => cmp <= 0
    case "gt" => cmp > 0
    case "gte" => cmp >= 0
    case _ => false
  }

  predicate MatchesExactVersion(stored: string, ver: string) {
    if ver == "unknown" || ver == "" then stored == "" else stored == ver
  }

  predicate MatchesVersion(x: Text, stored: string, ver: string, op: string) {
    if op == "eq" then MatchesExactVersion(stored, ver)
    else x.valid(stored) && x.valid(ver) && RangeMatch(x.compare(stored, ver), op)
  }

  // ---------------------------------------------------------------- the meaning of a filter

  predicate MapKeyContains(x: Text, m: map<string, int>, sub: string) {
    exists k :: k in m && Contains(x.lower(k), sub)
  }

  predicate Inside(n: int, r: Range) {
    r.min <= n <= r.max
  }

  /** Every predicate of the request, all of which a state must satisfy. */
  predicate Wanted(x: Text, f: Filters, r: Row) {
    && (f.sources != [] ==> r.source in f.sources)
    && (f.keyQuery != "" ==> Contains(x.lower(r.key), f.keyQuery))
    && (f.version != "" ==> MatchesVersion(x, r.version, f.version, f.op))
    && (f.provider != "" ==> MapKeyContains(x, r.providers, f.provider))
    && (f.kind != "" ==> MapKeyContains(x, r.kinds, f.kind))
    && Inside(r.rum, f.rum) && Inside(r.managed, f.managed) && Inside(r.data, f.data) && Inside(r.total, f.total)
    && Inside(r.size, f.size)
  }

  /** The same over the fields of the request alone: source ids, substrings, the version compared
      as the operator says, and every count between its two bounds. */
  lemma WantedByFields(x: Text, f: Filters, r: Row)
    ensures Wanted(x, f, r) <==>
            (&& (f.sources == [] || r.source in f.sources)
             && (f.keyQuery == "" || exists i :: 0 <= i <= |x.lower(r.key)| && f.keyQuery <= x.lower(r.key)[i..])
             && (f.version == ""
                 || (f.op == "eq" && r.version == (if f.version == "unknown" then "" else f.version))
                 || (x.valid(r.version) && x.valid(f.version)
                     && ((x.compare(r.version, f.version) < 0 && f.op in ["lt", "lte"])
                         || (x.compare(r.version, f.version) == 0 && f.op in ["lte", "gte"])
                         || (x.compare(r.version, f.version) > 0 && f.op in ["gt", "gte"]))))
             && (f.provider == "" || exists k, i :: k in r.providers && 0 <= i <= |x.lower(k)| && f.provider <= x.lower(k)[i..])
             && (f.kind == "" || exists k, i :: k in r.kinds && 0 <= i <= |x.lower(k)| && f.kind <= x.lower(k)[i..])
             && f.rum.min <= r.rum <= f.rum.max && f.managed.min <= r.managed <= f.managed.max && f.data.min <= r.data <= f.data.max
             && f.total.min <= r.total <= f.total.max && f.size.min <= r.size <= f.size.max)
  {
    ContainsMeans(x.lower(r.key), f.keyQuery);
    HasSubstring(x, r.providers, f.provider);
    HasSubstring(x, r.kinds, f.kind);
  }

  lemma HasSubstring(x: Text, m: map<string, int>, sub: string)
    ensures MapKeyContains(x, m, sub) <==> exists k, i :: k in m && 0 <= i <= |x.lower(k)| && sub <= x.lower(k)[i..]
  {
    forall k ensures Contains(x.lower(k), sub) <==> exists i :: 0 <= i <= |x.lower(k)| && sub <= x.lower(k)[i..] {
      ContainsMeans(x.lower(k), sub);
    }
  }

  // ---------------------------------------------------------------- the split

  predicate InBounds(n: int, b: Bounds) {
    (b.min.Some? ==> n >= b.min.value) && (b.max.Some? ==> n <= b.max.value)
  }

  /** buildStateWhere. */
  predicate Where(x: Text, q: StateQuery, r: Row) {
    && (q.sources != [] ==> r.source in q.sources)
    && (q.keyContains != "" ==> Contains(x.lower(r.key), q.keyContains))
    && (q.versionExact.Some? ==> r.version == q.versionExact.value)
    && InBounds(r.rum, q.rum) && InBounds(r.managed, q.managed) && InBounds(r.data, q.data) && InBounds(r.total, q.total)
    && InBounds(r.size, q.size)
  }

  /** The widest bounds are left out. */
  function BoundsOf(r: Range): Bounds {
    Bounds(if r.min > 0 then Some(r.min) else None, if r.max < MAX_INT then Some(r.max) else None)
  }

  method SqlFilter(f: Filters) returns (q: StateQuery)
    ensures q == SqlOf(f)
  {
    q := StateQuery(f.sources, f.keyQuery, None, Bounds(None, None), Bounds(None, None), Bounds(None, None), Bounds(None, None), Bounds(None, None));
    if f.version != "" && f.op == "eq" {
      q := q.(versionExact := Some(if f.version == "unknown" then "" else f.version));
    }
    var rum := DropWidest(f.rum);
    var managed := DropWidest(f.managed);
    var data := DropWidest(f.data);
    var total := DropWidest(f.total);
    var size := DropWidest(f.size);
    q := q.(rum := rum, managed := managed, data := data, total := total, size := size);
  }

  method DropWidest(r: Range) returns (b: Bounds)
    ensures b == BoundsOf(r)
  {
    b := Bounds(None, None);
    if r.min > 0 {
      b := b.(min := Some(r.min));
    }
    if r.max < MAX_INT {
      b := b.(max := Some(r.max));
    }
  }

  function SqlOf(f: Filters): StateQuery {
    StateQuery(f.sources, f.keyQuery,
               if f.version != "" && f.op == "eq" then Some(if f.version == "unknown" then "" else f.version) else None,
               BoundsOf(f.rum), BoundsOf(f.managed), BoundsOf(f.data), BoundsOf(f.total), BoundsOf(f.size))
  }

  predicate HasResidual(f: Filters) {
    (f.version != "" && f.op != "eq") || f.provider != "" || f.kind != ""
  }

  predicate Residual(x: Text, f: Filters, r: Row) {
    && (f.version != "" && f.op != "eq" ==> MatchesVersion(x, r.version, f.version, f.op))
    && (f.provider != "" ==> MapKeyContains(x, r.providers, f.provider))
    && (f.kind != "" ==> MapKeyContains(x, r.kinds, f.kind))
  }

  /** A count that a bound left out of the WHERE clause would have excluded. */
  predicate Escapes(n: int, r: Range) {
    (r.min <= 0 && n < r.min) || (r.max >= MAX_INT && n > r.max)
  }

  predicate AnyEscapes(f: Filters, r: Row) {
    Escapes(r.rum, f.rum) || Escapes(r.managed, f.managed) || Escapes(r.data, f.data) || Escapes(r.total, f.total) || Escapes(r.size, f.size)
  }

  lemma BoundSplit(n: int, r: Range)
    ensures Inside(n, r) <==> InBounds(n, BoundsOf(r)) && !Escapes(n, r)
  {
  }

  /** The exact account of the split: a row satisfies every predicate of the request if and only
      if it passes both parts and no dropped bound would have excluded it. */
  lemma SplitExactly(x: Text, f: Filters, r: Row)
    ensures Wanted(x, f, r) <==> Where(x, SqlOf(f), r) && Residual(x, f, r) && !AnyEscapes(f, r)
  {
    BoundSplit(r.rum, f.rum);
    BoundSplit(r.managed, f.managed);
    BoundSplit(r.data, f.data);
    BoundSplit(r.total, f.total);
    BoundSplit(r.size, f.size);
  }

  /** Counts the store can hold: not negative, and not above the widest bound. */
  predicate WellCounted(r: Row) {
    && 0 <= r.rum <= MAX_INT && 0 <= r.managed <= MAX_INT && 0 <= r.data <= MAX_INT && 0 <= r.total <= MAX_INT && 0 <= r.size <= MAX_INT
  }

  lemma SplitForCounts(x: Text, f: Filters, r: Row)
    requires WellCounted(r)
    ensures Wanted(x, f, r) <==> Where(x, SqlOf(f), r) && Residual(x, f, r)
  {
    SplitExactly(x, f, r);
  }

  /** Every analysis has such counts. */
  lemma AnalysesAreWellCounted(s: Analyzer.State, r: Row)
    requires Analyzer.AnalysisOf(s).Some? && 0 <= r.size <= MAX_INT
    requires var a := Analyzer.AnalysisOf(s).value;
             r.rum == a.rum && r.managed == a.managed && r.data == a.data && r.total == a.total && a.total <= MAX_INT
    ensures WellCounted(r)
  {
    Analyzer.AnalysisConservesCounts(s);
    Analyzer.ModesPartition(Analyzer.Normalized(s).resources);
  }

  // ---------------------------------------------------------------- selecting rows

  function Select(p: Row -> bool, rows: seq<Row>): seq<Row> {
    if rows == [] then []
    else
      var n := |rows| - 1;
      Select(p, rows[..n]) + if p(rows[n]) then [rows[n]] else []
  }

  lemma SelectSnoc(p: Row -> bool, s: seq<Row>, r: Row)
    ensures Select(p, s + [r]) == Select(p, s) + if p(r) then [r] else []
  {
    assert (s + [r])[..|s|] == s;
  }

  lemma {:induction false} SelectTwice(p: Row -> bool, q: Row -> bool, both: Row -> bool, rows: seq<Row>)
    requires forall r :: r in rows ==> (both(r) <==> p(r) && q(r))
    ensures Select(q, Select(p, rows)) == Select(both, rows)
  {
    if rows != [] {
      var n := |rows| - 1;
      SelectTwice(p, q, both, rows[..n]);
      assert rows[n] in rows;
      if p(rows[n]) {
        SelectSnoc(q, Select(p, rows[..n]), rows[n]);
      } else {
        assert Select(p, rows) == Select(p, rows[..n]);
      }
    }
  }

  lemma {:induction false} SelectAll(p: Row -> bool, rows: seq<Row>)
    requires forall r :: r in rows ==> p(r)
    ensures Select(p, rows) == rows
  {
    if rows != [] {
      SelectAll(p, rows[..|rows| - 1]);
    }
  }

  lemma {:induction false} SelectMembers(p: Row -> bool, rows: seq<Row>, r: Row)
    ensures r in Select(p, rows) <==> r in rows && p(r)
  {
    if rows != [] {
      var n := |rows| - 1;
      SelectMembers(p, rows[..n], r);
      assert rows == rows[..n] + [rows[n]];
    }
  }

  /** out is what stands at these increasing positions, which are those that satisfy p. */
  ghost predicate PickedAt(at: seq<nat>, p: Row -> bool, rows: seq<Row>, out: seq<Row>) {
    && |at| == |out| && (forall i, j :: 0 <= i < j < |at| ==> at[i] < at[j])
    && (forall i :: 0 <= i < |at| ==> at[i] < |rows| && out[i] == rows[at[i]] && p(rows[at[i]]))
    && (forall k: nat :: k < |rows| && p(rows[k]) ==> k in at)
  }

  function Positions(p: Row -> bool, rows: seq<Row>): seq<nat> {
    if rows == [] then []
    else
      var n := |rows| - 1;
      Positions(p, rows[..n]) + if p(rows[n]) then [n] else []
  }

  /** Selecting keeps exactly the rows that satisfy p, in order. */
  lemma {:induction false} SelectKeepsOrder(p: Row -> bool, rows: seq<Row>)
    ensures PickedAt(Positions(p, rows), p, rows, Select(p, rows))
  {
    if rows != [] {
      var n := |rows| - 1;
      SelectKeepsOrder(p, rows[..n]);
      PickOneMore(Positions(p, rows[..n]), p, rows[..n], Select(p, rows[..n]), rows[n]);
      assert rows[..n] + [rows[n]] == rows;
      assert Select(p, rows[..n]) + [] == Select(p, rows[..n]) && Positions(p, rows[..n]) + [] == Positions(p, rows[..n]);
    }
  }

  lemma PickOneMore(at: seq<nat>, p: Row -> bool, rows: seq<Row>, out: seq<Row>, r: Row)
    requires PickedAt(at, p, rows, out)
    ensures if p(r) then PickedAt(at + [|rows|], p, rows + [r], out + [r]) else PickedAt(at, p, rows + [r], out)
  {
    var all := rows + [r];
    assert forall k: nat :: k < |rows| ==> all[k] == rows[k];
    if p(r) {
      forall k: nat | k < |all| && p(all[k]) ensures k in at + [|rows|] {
        assert k < |rows| ==> k in at;
      }
    }
  }

  function InSql(x: Text, scope: Scope, q: StateQuery): Row -> bool {
    (r: Row) => Permits(scope, r.org) && Where(x, q, r)
  }

  function InResidual(x: Text, f: Filters): Row -> bool {
    (r: Row) => Residual(x, f, r)
  }

  function InAnswer(x: Text, scope: Scope, f: Filters): Row -> bool {
    (r: Row) => Permits(scope, r.org) && Wanted(x, f, r)
  }

  /** The WHERE-reduced rows, then the residual pass, are the rows wanted, in store order. */
  lemma PushdownPreservesMeaning(x: Text, scope: Scope, f: Filters, store: seq<Row>)
    requires forall r :: r in store ==> WellCounted(r)
    ensures Select(InResidual(x, f), Select(InSql(x, scope, SqlOf(f)), store)) == Select(InAnswer(x, scope, f), store)
  {
    forall r | r in store ensures InAnswer(x, scope, f)(r) <==> InSql(x, scope, SqlOf(f))(r) && InResidual(x, f)(r) {
      SplitForCounts(x, f, r);
    }
    SelectTwice(InSql(x, scope, SqlOf(f)), InResidual(x, f), InAnswer(x, scope, f), store);
  }

  /** Without a residual predicate the WHERE clause is the whole filter. */
  lemma FastPathSound(x: Text, scope: Scope, f: Filters, store: seq<Row>)
    requires (forall r :: r in store ==> WellCounted(r)) && !HasResidual(f)
    ensures Select(InSql(x, scope, SqlOf(f)), store) == Select(InAnswer(x, scope, f), store)
  {
    PushdownPreservesMeaning(x, scope, f, store);
    SelectAll(InResidual(x, f), Select(InSql(x, scope, SqlOf(f)), store));
  }

  /** A report is on the wanted rows of the caller's organizations and no others. */
  lemma AnsweredRows(x: Text, scope: Scope, f: Filters, rows: seq<Row>, r: Row)
    ensures r in Select(InAnswer(x, scope, f), rows) <==> r in rows && (scope == Everywhere || (scope.Within? && r.org in scope.orgs)) && Wanted(x, f, r)
  {
    SelectMembers(InAnswer(x, scope, f), rows, r);
  }

  // ---------------------------------------------------------------- the two paths

  datatype Summary = Summary(matched: nat, rum: int, managed: int, data: int, total: int)

  datatype Report = Report(total: nat, truncated: bool, summary: Summary, states: seq<Row>)

  function RumOf(r: Row): int { r.rum }
  function ManagedOf(r: Row): int { r.managed }
  function DataOf(r: Row): int { r.data }
  function TotalOf(r: Row): int { r.total }

  function Summed(rows: seq<Row>): Summary {
    Summary(|rows|, SumOf(RumOf, rows), SumOf(ManagedOf, rows), SumOf(DataOf, rows), SumOf(TotalOf, rows))
  }

  function FirstRows(rows: seq<Row>, n: nat): seq<Row> {
    if |rows| > n then rows[..n] else rows
  }

  /** What a report on these matches says. */
  function ReportOn(matched: seq<Row>): Report {
    Report(|matched|, |matched| > PREVIEW_CAP, Summed(matched), FirstRows(matched, PREVIEW_CAP))
  }

  /** The totals count every match; the states are the first 500. */
  lemma ReportSays(matched: seq<Row>, r: Row)
    ensures var all := ReportOn(matched);
            && all.total == all.summary.matched == |matched| && (all.truncated <==> |matched| > 500)
            && all.states <= matched && |all.states| == if |matched| > 500 then 500 else |matched|
    ensures var a, b := ReportOn(matched).summary, ReportOn(matched + [r]).summary;
            b == Summary(a.matched + 1, a.rum + r.rum, a.managed + r.managed, a.data + r.data, a.total + r.total)
    ensures ReportOn([]).summary == Summary(0, 0, 0, 0, 0)
  {
    SumSnoc(RumOf, matched, r);
    SumSnoc(ManagedOf, matched, r);
    SumSnoc(DataOf, matched, r);
    SumSnoc(TotalOf, matched, r);
  }

  class Store {
    var rows: seq<Row>

    constructor (rows: seq<Row>)
      ensures this.rows == rows
    {
      this.rows := rows;
    }

    /** FilterStatesInScope. */
    method FilterStates(x: Text, scope: Scope, q: StateQuery) returns (out: seq<Row>)
      ensures out == Select(InSql(x, scope, q), rows)
    {
      out := [];
      for i := 0 to |rows|
        invariant out == Select(InSql(x, scope, q), rows[..i])
      {
        assert rows[..i + 1][..i] == rows[..i];
        if Permits(scope, rows[i].org) && Where(x, q, rows[i]) {
          out := out + [rows[i]];
        }
      }
      assert rows[..|rows|] == rows;
    }

    /** PreviewStatesWithTotalsInScope: a page, and the window aggregates its rows carry. An empty
        page carries none and leaves the totals at zero. */
    method PreviewStatesWithTotals(x: Text, scope: Scope, q: StateQuery, limit: nat) returns (page: seq<Row>, agg: Summary)
      requires limit > 0
      ensures var all := Select(InSql(x, scope, q), rows);
              page == FirstRows(all, limit) && agg == Summed(all)
    {
      var all := FilterStates(x, scope, q);
      var window := SummarizeStates(all);
      page, agg := [], Summary(0, 0, 0, 0, 0);
      while |page| < |all| && |page| < limit
        invariant |page| <= |all| && |page| <= limit && page == all[..|page|]
        invariant agg == if page == [] then Summary(0, 0, 0, 0, 0) else window
      {
        page, agg := page + [all[|page|]], window;
      }
    }

    method ApplyResidual(x: Text, f: Filters, rs: seq<Row>) returns (out: seq<Row>)
      ensures out == Select(InResidual(x, f), rs)
    {
      if !HasResidual(f) {
        SelectAll(InResidual(x, f), rs);
        return rs;
      }
      out := [];
      for i := 0 to |rs|
        invariant out == Select(InResidual(x, f), rs[..i])
      {
        var r := rs[i];
        assert rs[..i + 1][..i] == rs[..i];
        if f.version != "" && f.op != "eq" && !MatchesVersion(x, r.version, f.version, f.op) {
          continue;
        }
        if f.provider != "" && !MapKeyContains(x, r.providers, f.provider) {
          continue;
        }
        if f.kind != "" && !MapKeyContains(x, r.kinds, f.kind) {
          continue;
        }
        out := out + [r];
      }
      assert rs[..|rs|] == rs;
    }

    /** Both paths, one meaning: totals, sums and the truncation flag over every wanted row in
        scope, and the first 500 of them. */
    method ReportStates(x: Text, scope: Scope, f: Filters) returns (report: Report)
      requires forall r :: r in rows ==> WellCounted(r)
      ensures report == ReportOn(Select(InAnswer(x, scope, f), rows))
    {
      var q := SqlFilter(f);
      if !HasResidual(f) {
        var preview, agg := PreviewStatesWithTotals(x, scope, q, PREVIEW_CAP);
        FastPathSound(x, scope, f, rows);
        return Report(agg.matched, agg.matched > PREVIEW_CAP, agg, preview);
      }
      var fetched := FilterStates(x, scope, q);
      var matched := ApplyResidual(x, f, fetched);
      PushdownPreservesMeaning(x, scope, f, rows);
      var summary := SummarizeStates(matched);
      report := Report(|matched|, |matched| > PREVIEW_CAP, summary, CapRows(matched).0);
    }
  }

  function CapRows(rows: seq<Row>): (seq<Row>, bool) {
    if |rows| > PREVIEW_CAP then (rows[..PREVIEW_CAP], true) else (rows, false)
  }

  method SummarizeStates(rows: seq<Row>) returns (s: Summary)
    ensures s == Summed(rows)
  {
    s := Summary(|rows|, 0, 0, 0, 0);
    for i := 0 to |rows|
      invariant s == Summed(rows[..i]).(matched := |rows|)
    {
      var r := rows[i];
      assert rows[..i + 1][..i] == rows[..i];
      s := s.(rum := s.rum + r.rum, managed := s.managed + r.managed, data := s.data + r.data, total := s.total + r.total);
    }
    assert rows[..|rows|] == rows;
  }
}
