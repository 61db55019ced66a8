/** The record repository and the handlers on it, updating the ledger in place. */
module RecordHandlers {
  import opened Collections
  import opened Names
  import opened Tenancy
  import opened Records

  /** What a push answers. */
  datatype Answer = Missing | Refused | Replay(record: Record) | Unverified | Clean(resolved: bool) | Recorded(record: Record)

  datatype Moved = Changed(record: Record) | Conflict(status: Status) | NotFound | TooLong

  const MAX_NOTE := 1000

  class RecordLedger {
    var sources: set<Id>
    var rows: seq<Record>

    function Value(): Ledger reads this {
      Ledger(sources, rows)
    }

    constructor ()
      ensures Value() == EMPTY
    {
      sources, rows := {}, [];
    }

    method FindLive(source: Id, key: string) returns (found: Option<nat>)
      ensures found == Live(rows, source, key)
    {
      found := None;
      for i := 0 to |rows|
        invariant found == Live(rows[..i], source, key)
      {
        assert rows[..i + 1][..i] == rows[..i];
        if IsLive(rows[i], source, key) {
          found := Some(i);
        }
      }
      assert rows[..|rows|] == rows;
    }

    /** A record of the source that holds the reference. */
    method GetByExternalRef(source: Id, ref: string) returns (found: Option<Record>)
      ensures found.Some? ==> found.value in rows && Holds(found.value, source, ref)
      ensures found.None? ==> !RefTaken(rows, source, Some(ref), None)
    {
      for i := 0 to |rows|
        invariant forall j :: 0 <= j < i ==> !Holds(rows[j], source, ref)
      {
        if Holds(rows[i], source, ref) {
          return Some(rows[i]);
        }
      }
      return None;
    }

    method ViolatesReference(d: Detection, live: Option<nat>) returns (taken: bool)
      ensures taken == RefTaken(rows, d.source, d.externalRef, live)
    {
      if d.externalRef.None? {
        return false;
      }
      for i := 0 to |rows|
        invariant forall j :: 0 <= j < i && Some(j) != live ==> !Holds(rows[j], d.source, d.externalRef.value)
      {
        if Some(i) != live && Holds(rows[i], d.source, d.externalRef.value) {
          return true;
        }
      }
      return false;
    }

    /** The record the detection landed on; on a taken reference, the record that holds it. */
    method UpsertDetection(d: Detection, now: nat) returns (out: Option<Record>)
      modifies this
      ensures Value() == Upserted(old(Value()), d, now)
      ensures out.None? <==> d.source !in old(sources)
      ensures out.Some? && RefTaken(old(rows), d.source, d.externalRef, Live(old(rows), d.source, d.key)) ==>
                out.value in old(rows) && Holds(out.value, d.source, d.externalRef.value)
      ensures out.Some? && !RefTaken(old(rows), d.source, d.externalRef, Live(old(rows), d.source, d.key)) ==>
                out.value in rows && IsLive(out.value, d.source, d.key) && out.value.counts == d.result.counts
    {
      if d.source !in sources {
        return None;
      }
      var live := FindLive(d.source, d.key);
      var taken := ViolatesReference(d, live);
      if taken {
        out := GetByExternalRef(d.source, d.externalRef.value);
        return;
      }
      if live.Some? {
        rows := rows[live.value := Redetected(rows[live.value], d, now)];
        return Some(rows[live.value]);
      }
      rows := rows + [NewRecord(d, now)];
      return Some(rows[|rows| - 1]);
    }

    /** Whether a record was open. */
    method ResolveClean(source: Id, key: string, now: nat) returns (resolved: bool)
      modifies this
      ensures Value() == ResolvedClean(old(Value()), source, key, now)
      ensures resolved <==> Live(old(rows), source, key).Some?
    {
      ghost var was := rows;
      resolved := false;
      for i := 0 to |rows|
        invariant |rows| == |was| && sources == old(sources)
        invariant forall j :: 0 <= j < i ==> rows[j] == Cleaned(was[j], source, key, now)
        invariant forall j :: i <= j < |was| ==> rows[j] == was[j]
        invariant resolved <==> exists j :: 0 <= j < i && IsLive(was[j], source, key)
      {
        if IsLive(rows[i], source, key) {
          rows := rows[i := rows[i].(status := Resolved, resolvedAt := Some(now))];
          resolved := true;
        }
      }
      assert rows == ResolvedClean(old(Value()), source, key, now).rows;
    }

    method RecordDriftOutcome(source: Option<Id>, key: string, connection: Option<Id>, run: Id, status: string, r: Result, now: nat)
      modifies this
      ensures var d := OutcomeOf(source, key, connection, run, status, r);
              Value() == if d.Some? then Observed(old(Value()), d.value, now) else old(Value())
      ensures Inv(old(Value()), now) && status == "completed" && source.Some? && source.value in old(sources) && key != "" ==>
                ResultCounts(old(Value()), Value(), source.value, key, r, now)
    {
      ghost var d := OutcomeOf(source, key, connection, run, status, r);
      if d.Some? && d.value.source in sources && Inv(Value(), now) {
        ObservedCounts(Value(), d.value, now);
      }
      if status != "completed" || source.None? || key == "" || source.value !in sources {
        return;
      }
      if HasDriftFinding(r.drifted, r.infra.counts) {
        var _ := UpsertDetection(Detection(source.value, key, connection, Some(run), "run", r, None), now);
        return;
      }
      if r.marks.unparseable {
        return;
      }
      var _ := ResolveClean(source.value, key, now);
    }

    /** A push that nothing interrupts; fails says that looking the reference up fails, which
        lets the push go on. */
    method IngestDrift(source: Id, key: string, ref: string, body: Body, plan: Option<PlanReading>, fails: bool, now: nat)
      returns (a: Answer)
      modifies this
      ensures var settled := SettleIngest(body, plan);
              Value() == if settled.None? then old(Value()) else Ingested(old(Value()), Push(source, key, ref, settled.value, false), fails, now)
      ensures var settled := SettleIngest(body, plan);
              settled.Some? && !a.Missing? && !a.Replay? ==>
                var r := settled.value;
                var found := r.drifted || r.infra.counts.added + r.infra.counts.changed + r.infra.counts.destroyed > 0;
                (a.Recorded? <==> found) && (a.Clean? <==> !found && !r.marks.unparseable) && (a.Unverified? <==> !found && r.marks.unparseable)
      ensures a.Missing? <==> source == "" || key == "" || source !in old(sources)
      ensures a.Replay? <==> !a.Missing? && ref != "" && !fails
                             && exists j :: 0 <= j < |old(rows)| && old(rows)[j].source == Some(source) && old(rows)[j].externalRef == Some(ref)
      ensures a.Refused? <==> !a.Missing? && !a.Replay? && plan.Some? && plan.value.marks.unparseable
      ensures a.Missing? || a.Replay? || a.Refused? || a.Unverified? ==> Value() == old(Value())
      ensures a.Replay? ==> a.record in old(rows) && Holds(a.record, source, ref) && !fails
      ensures a.Recorded? && !RefTaken(old(rows), source, if ref == "" then None else Some(ref), Live(old(rows), source, key)) ==>
                a.record in rows && IsLive(a.record, source, key)
      ensures a.Clean? ==> (a.resolved <==> Live(old(rows), source, key).Some?)
    {
      if source == "" || key == "" || source !in sources {
        return Missing;
      }
      if ref != "" && !fails {
        var existing := GetByExternalRef(source, ref);
        if existing.Some? {
          assert RefTaken(rows, source, Some(ref), None) by {
            var j :| 0 <= j < |rows| && rows[j] == existing.value;
          }
          return Replay(existing.value);
        }
      }
      var settled := SettleIngest(body, plan);
      if settled.None? {
        return Refused;
      }
      var r := settled.value;
      if !HasDriftFinding(r.drifted, r.infra.counts) {
        if r.marks.unparseable {
          return Unverified;
        }
        var resolved := ResolveClean(source, key, now);
        return Clean(resolved);
      }
      var rec := UpsertDetection(Detection(source, key, None, None, "ingest", r, if ref == "" then None else Some(ref)), now);
      return Recorded(rec.value);
    }

    method AcknowledgeDriftRecord(id: nat, who: string, note: string, now: nat) returns (m: Moved)
      modifies this
      ensures Value() == if ByteLength(note) <= MAX_NOTE then Managed(old(Value()), Acknowledge(id, who, note), now) else old(Value())
      ensures m.Changed? <==> ByteLength(note) <= 1000 && id < |old(rows)| && old(rows)[id].status == Open
      ensures m.Changed? ==> id < |rows| && m.record == rows[id]
      ensures m.Changed? ==> rows == old(rows)[id := old(rows)[id].(status := Acknowledged, ack := Some(Ack(who, note, now)))]
      ensures !m.Changed? ==> Value() == old(Value())
    {
      if ByteLength(note) > MAX_NOTE {
        return TooLong;
      }
      if id >= |rows| {
        return NotFound;
      }
      if rows[id].status != Open {
        return Conflict(rows[id].status);
      }
      rows := rows[id := rows[id].(status := Acknowledged, ack := Some(Ack(who, note, now)))];
      return Changed(rows[id]);
    }

    method ResolveDriftRecord(id: nat, now: nat) returns (m: Moved)
      modifies this
      ensures Value() == Managed(old(Value()), Resolve(id), now)
      ensures m.Changed? <==> id < |old(rows)| && old(rows)[id].status != Resolved
      ensures m.Changed? ==> rows == old(rows)[id := old(rows)[id].(status := Resolved, resolvedAt := Some(now))]
      ensures !m.Changed? ==> Value() == old(Value())
    {
      if id >= |rows| {
        return NotFound;
      }
      if rows[id].status == Resolved {
        return Conflict(Resolved);
      }
      rows := rows[id := rows[id].(status := Resolved, resolvedAt := Some(now))];
      return Changed(rows[id]);
    }
  }
}
