/** The edit and transfer handlers as they are written: connector, backup and lock calls one
    after another, each of which may fail unless the plane is reliable. A ghost trace ties every call to a step of the
    protocol, so whatever the protocol guarantees over its runs holds of these methods. */
module StateHandlers {
  import opened Collections
  import opened StatePlane
  import opened Names

  /** One step of an operation that is about to take lock c. */
  lemma AcquireNext(w: World, o: OpId, c: Cell, q: Request, p: Phase, n: Phase, r: Phase, ch: Choice)
    requires o in w.ops && w.ops[o] == Op(q, p) && Decide(w, Op(q, p), ch) == Acquire(w, c, n, r, ch.fault)
    ensures Next(w, Advance(o, ch)) ==
            if c in w.owner || ch.fault then w.(ops := w.ops[o := Op(q, r)]) else w.(owner := w.owner[c := o], ops := w.ops[o := Op(q, n)])
  {
  }

  class Plane {
    var cells: map<Cell, Content>
    var backups: map<Cell, seq<Content>>
    var locks: map<Cell, OpId>
    var nextId: OpId
    /** No call fails. */
    const reliable: bool
    ghost const start: World
    ghost var trace: seq<Label>

    /** The protocol's view: operations of other processes may be anywhere in it. */
    ghost function W(): World
      reads this
    {
      Exec(start, trace)
    }

    ghost predicate Valid()
      reads this
    {
      && Initial(start) && NoForce(trace)
      && W().cells == cells && W().backups == backups && W().owner == locks
      && forall o :: o in W().ops ==> o < nextId
    }

    /** The plane as found at any point of any run. */
    constructor (ghost w: World, ghost ls: seq<Label>, v: World, n: OpId, reliable: bool)
      requires Initial(w) && NoForce(ls) && v == Exec(w, ls) && forall o :: o in v.ops ==> o < n
      ensures Valid() && W() == v && this.reliable == reliable
    {
      this.reliable := reliable;
      cells, backups, locks, nextId := v.cells, v.backups, v.owner, n;
      start, trace := w, ls;
    }

    ghost predicate At(o: OpId, q: Request, p: Phase)
      reads this
    {
      o in W().ops && W().ops[o] == Op(q, p)
    }

    /** What the protocol lets operation o do in its next step, success and failure. */
    ghost predicate Allows(o: OpId, q: Request, p: Phase, result: Content, good: Step, bad: Step)
      reads this
    {
      && At(o, q, p)
      && Decide(W(), Op(q, p), Choice(false, result)) == good
      && Decide(W(), Op(q, p), Choice(true, result)) == bad
    }

    ghost method Log(o: OpId, ch: Choice)
      requires o in W().ops && NoForce(trace)
      modifies this`trace
      ensures NoForce(trace) && W() == Next(old(W()), Advance(o, ch))
    {
      assert (trace + [Advance(o, ch)])[..|trace|] == trace;
      trace := trace + [Advance(o, ch)];
    }

    method Open(q: Request) returns (o: OpId)
      requires Valid() && Enabled(W(), Begin(nextId, q))
      modifies this`trace, this`nextId
      ensures o == old(nextId) && nextId == o + 1 && Valid() && At(o, q, Waiting)
    {
      o := nextId;
      assert (trace + [Begin(o, q)])[..|trace|] == trace;
      trace := trace + [Begin(o, q)];
      nextId := nextId + 1;
    }

    /** Whether a call that nothing stands in the way of goes through. */
    method Attempt() returns (ok: bool)
      ensures reliable ==> ok
    {
      ok := *;
      ok := ok || reliable;
    }

    method AcquireLock(o: OpId, c: Cell, ghost q: Request, ghost p: Phase, ghost n: Phase, ghost r: Phase)
      returns (ok: bool)
      requires Valid() && At(o, q, p)
      requires forall ch :: Decide(W(), Op(q, p), ch) == Acquire(W(), c, n, r, ch.fault)
      modifies this`locks, this`trace
      ensures Valid() && At(o, q, if ok then n else r)
      ensures ok ==> c !in old(locks) && locks == old(locks)[c := o]
      ensures !ok ==> locks == old(locks)
      ensures reliable && c !in old(locks) ==> ok
    {
      ok := Attempt();
      ok := ok && c !in locks;
      AcquireNext(W(), o, c, q, p, n, r, Choice(!ok, OK.result));
      if ok {
        locks := locks[c := o];
      }
      Log(o, Choice(!ok, OK.result));
    }

    method ReleaseLock(o: OpId, c: Cell, ghost q: Request, ghost p: Phase, ghost n: Phase)
      requires Valid() && At(o, q, p) && c in locks && locks[c] == o
      requires Decide(W(), Op(q, p), OK) == Step(Drop(c), n)
      modifies this`locks, this`trace
      ensures Valid() && At(o, q, n) && locks == old(locks) - {c}
    {
      locks := locks - {c};
      Log(o, OK);
    }

    /** A decision that calls nothing, or a read. */
    method Think(o: OpId, ch: Choice, ghost q: Request, ghost p: Phase, ghost n: Phase)
      requires Valid() && At(o, q, p) && Decide(W(), Op(q, p), ch) == Step(Quiet, n)
      modifies this`trace
      ensures Valid() && At(o, q, n)
    {
      Log(o, ch);
    }

    method CreateBackup(o: OpId, c: Cell, x: Content, result: Content, ghost q: Request, ghost p: Phase, ghost n: Phase, ghost r: Phase)
      returns (ok: bool)
      requires Valid()
      requires Allows(o, q, p, result, Step(Archive(c, x), n), Step(Quiet, r))
      modifies this`backups, this`trace
      ensures Valid() && At(o, q, if ok then n else r)
      ensures backups == if ok then WithBackup(old(backups), c, x) else old(backups)
      ensures reliable ==> ok
    {
      ok := Attempt();
      if ok {
        backups := backups[c := (if c in backups then backups[c] else []) + [x]];
      }
      Log(o, Choice(!ok, result));
    }

    method DeleteObject(o: OpId, c: Cell, ghost q: Request, ghost p: Phase, ghost n: Phase, ghost r: Phase) returns (ok: bool)
      requires Valid()
      requires Allows(o, q, p, OK.result, Step(Remove(c), n), Step(Quiet, r))
      modifies this`cells, this`trace
      ensures Valid() && At(o, q, if ok then n else r)
      ensures cells == if ok then old(cells) - {c} else old(cells)
      ensures reliable ==> ok
    {
      ok := Attempt();
      if ok {
        cells := cells - {c};
      }
      Log(o, Choice(!ok, OK.result));
    }

    /** A purge that fails leaves the backups; the delete is reported either way. */
    method PurgeBackups(o: OpId, c: Cell, ghost q: Request)
      requires Valid() && At(o, q, Erased) && q.at == c
      modifies this`backups, this`trace
      ensures Valid() && At(o, q, Releasing(Deleted))
      ensures backups == old(backups)[c := []] || (!reliable && backups == old(backups))
    {
      var ok := Attempt();
      if ok {
        backups := backups[c := []];
      }
      Log(o, Choice(!ok, OK.result));
    }

    method WriteState(o: OpId, c: Cell, x: Content, ghost q: Request, ghost p: Phase, ghost n: Phase, ghost r: Phase)
      returns (ok: bool)
      requires Valid()
      requires Allows(o, q, p, OK.result, Step(Put(c, x), n), Step(Quiet, r))
      modifies this`cells, this`trace
      ensures Valid() && At(o, q, if ok then n else r)
      ensures cells == if ok then old(cells)[c := x] else old(cells)
      ensures reliable ==> ok
    {
      ok := Attempt();
      if ok {
        cells := cells[c := x];
      }
      Log(o, Choice(!ok, OK.result));
    }
  }

  function WithBackup(backups: map<Cell, seq<Content>>, c: Cell, x: Content): map<Cell, seq<Content>> {
    backups[c := (if c in backups then backups[c] else []) + [x]]
  }

  type Cells = map<Cell, Content>
  type Backups = map<Cell, seq<Content>>

  function Saving(backups: Backups, c: Cell, cur: Option<Content>): Backups {
    if cur.Some? then WithBackup(backups, c, cur.value) else backups
  }

  /** A write that went through has saved what it replaced; one that did not has changed no
      state file and at most left a spare backup of it. */
  predicate Edited(c0: Cells, b0: Backups, c1: Cells, b1: Backups, at: Cell, out: Outcome) {
    match out
    case Written(x) => c1 == c0[at := x] && b1 == Saving(b0, at, Find(c0, at))
    case _ => c1 == c0 && (b1 == b0 || b1 == Saving(b0, at, Find(c0, at)))
  }

  /** PUT /state/raw. */
  method EditState(h: Plane, at: Cell, data: Content, force: bool) returns (out: Outcome)
    requires h.Valid()
    modifies h
    ensures h.Valid() && h.locks == old(h.locks)
    ensures Edited(old(h.cells), old(h.backups), h.cells, h.backups, at, out)
    ensures out.Written? ==> out.data == data && data.reading.Some? && GuardAllows(old(Find(h.cells, at)), data, force)
    ensures out.Conflict? ==> data.reading.Some? && !GuardAllows(old(Find(h.cells, at)), data, force)
    ensures data.reading.Some? ==> h.At(old(h.nextId), Replace(at, data, force), Done(out))
    ensures h.reliable && data.reading.Some? ==>
              out == if at in old(h.locks) then Refused
                     else if GuardAllows(old(Find(h.cells, at)), data, force) then Written(data) else Conflict
  {
    if data.reading.None? {
      return Failed;
    }
    var q := Replace(at, data, force);
    var o := h.Open(q);
    var locked := h.AcquireLock(o, at, q, Waiting, Holding, Done(Refused));
    if !locked {
      return Refused;
    }
    out := ReadCheckSaveWrite(h, o, q, data);
    h.ReleaseLock(o, at, q, Releasing(out), Done(out));
  }

  /** POST .../restore: the backup was loaded before the lock is taken. */
  method RestoreBackup(h: Plane, at: Cell, index: nat) returns (out: Outcome)
    requires h.Valid() && at in h.backups && index < |h.backups[at]|
    modifies h
    ensures h.Valid() && h.locks == old(h.locks)
    ensures Edited(old(h.cells), old(h.backups), h.cells, h.backups, at, out)
    ensures out.Written? ==> out.data == old(h.backups[at][index])
    ensures h.At(old(h.nextId), Restore(at, old(h.backups[at][index])), Done(out))
    ensures h.reliable ==> out == if at in old(h.locks) then Refused else Written(old(h.backups[at][index]))
  {
    var data := h.backups[at][index];
    var q := Restore(at, data);
    var o := h.Open(q);
    var locked := h.AcquireLock(o, at, q, Waiting, Holding, Done(Refused));
    if !locked {
      return Refused;
    }
    out := ReadCheckSaveWrite(h, o, q, data);
    h.ReleaseLock(o, at, q, Releasing(out), Done(out));
  }

  /** What EditState and RestoreBackup do under the lock. */
  method ReadCheckSaveWrite(h: Plane, o: OpId, q: Request, data: Content) returns (out: Outcome)
    requires h.Valid() && h.At(o, q, Holding)
    requires ((q.Replace? && data.reading.Some?) || q.Restore?) && q.data == data
    modifies h`cells, h`backups, h`trace
    ensures h.Valid() && h.At(o, q, Releasing(out)) && (out == Written(data) || out.Failed? || out.Conflict?)
    ensures Edited(old(h.cells), old(h.backups), h.cells, h.backups, q.at, out)
    ensures q.Replace? && out.Written? ==> GuardAllows(old(Find(h.cells, q.at)), data, q.force)
    ensures out.Conflict? ==> q.Replace? && !GuardAllows(old(Find(h.cells, q.at)), data, q.force)
    ensures h.reliable ==> !out.Failed?
  {
    var at := q.at;
    var cur := Find(h.cells, at);
    var readable := h.Attempt();
    if !readable {
      h.Think(o, Choice(true, OK.result), q, Holding, Releasing(Failed));
      return Failed;
    }
    h.Think(o, OK, q, Holding, Read(cur));
    if q.Replace? && !GuardAllows(cur, data, q.force) {
      h.Think(o, OK, q, Read(cur), Releasing(Conflict));
      return Conflict;
    }
    if cur.Some? {
      var saved := h.CreateBackup(o, at, cur.value, OK.result, q, Read(cur), Saved(cur, Some(data)), Releasing(Failed));
      if !saved {
        return Failed;
      }
    } else {
      h.Think(o, OK, q, Read(cur), Saved(cur, Some(data)));
    }
    var ok := h.WriteState(o, at, data, q, Saved(cur, Some(data)), Releasing(Written(data)), Releasing(Failed));
    return if ok then Written(data) else Failed;
  }

  /** POST /state/operations with rm or mv; result is what stateops returns on what was read. */
  method ApplyOperation(h: Plane, at: Cell, result: Content) returns (out: Outcome)
    requires h.Valid()
    modifies h
    ensures h.Valid() && h.locks == old(h.locks)
    ensures Edited(old(h.cells), old(h.backups), h.cells, h.backups, at, out)
    ensures out.Written? ==> out.data == result && result.reading.Some? && at in old(h.cells)
    ensures h.At(old(h.nextId), Operate(at), Done(out))
    ensures h.reliable ==> out == if at in old(h.locks) then Refused
                                  else if at in old(h.cells) && result.reading.Some? then Written(result) else Failed
  {
    var q := Operate(at);
    var o := h.Open(q);
    var locked := h.AcquireLock(o, at, q, Waiting, Holding, Done(Refused));
    if !locked {
      return Refused;
    }
    out := OperateLocked(h, o, q, result);
    h.ReleaseLock(o, at, q, Releasing(out), Done(out));
  }

  method OperateLocked(h: Plane, o: OpId, q: Request, result: Content) returns (out: Outcome)
    requires h.Valid() && q.Operate? && h.At(o, q, Holding)
    modifies h`cells, h`backups, h`trace
    ensures h.Valid() && h.At(o, q, Releasing(out)) && (out == Written(result) || out.Failed?)
    ensures Edited(old(h.cells), old(h.backups), h.cells, h.backups, q.at, out)
    ensures out.Written? ==> result.reading.Some? && q.at in old(h.cells)
    ensures h.reliable ==> (out.Written? <==> result.reading.Some? && q.at in old(h.cells))
  {
    var cur := Find(h.cells, q.at);
    var readable := h.Attempt();
    if !readable || cur.None? {
      h.Think(o, Choice(!readable, result), q, Holding, Releasing(Failed));
      return Failed;
    }
    h.Think(o, OK, q, Holding, Read(cur));
    if result.reading.None? {
      h.Think(o, Choice(false, result), q, Read(cur), Releasing(Failed));
      return Failed;
    }
    var saved := h.CreateBackup(o, q.at, cur.value, result, q, Read(cur), Saved(cur, Some(result)), Releasing(Failed));
    if !saved {
      return Failed;
    }
    var ok := h.WriteState(o, q.at, result, q, Saved(cur, Some(result)), Releasing(Written(result)), Releasing(Failed));
    return if ok then Written(result) else Failed;
  }

  /** A delete keeps a last backup unless the purge asked for went through, in which case the
      key is left with none. */
  predicate Removed(c0: Cells, b0: Backups, c1: Cells, b1: Backups, at: Cell, purge: bool, out: Outcome) {
    match out
    case Deleted =>
      && at in c0 && c1 == c0 - {at}
      && (b1 == WithBackup(b0, at, c0[at]) || (purge && b1 == b0[at := []]))
    case _ => c1 == c0 && (b1 == b0 || b1 == Saving(b0, at, Find(c0, at)))
  }

  /** POST /state/operations with delete. */
  method DeleteState(h: Plane, at: Cell, purge: bool) returns (out: Outcome)
    requires h.Valid()
    modifies h
    ensures h.Valid() && h.locks == old(h.locks)
    ensures Removed(old(h.cells), old(h.backups), h.cells, h.backups, at, purge, out)
    ensures h.At(old(h.nextId), Delete(at, purge), Done(out))
    ensures h.reliable ==>
              && out == (if at in old(h.locks) then Refused else if at in old(h.cells) then Deleted else Failed)
              && (out.Deleted? && purge ==> h.backups == old(h.backups)[at := []])
  {
    var q := Delete(at, purge);
    var o := h.Open(q);
    var locked := h.AcquireLock(o, at, q, Waiting, Holding, Done(Refused));
    if !locked {
      return Refused;
    }
    out := DeleteLocked(h, o, q);
    h.ReleaseLock(o, at, q, Releasing(out), Done(out));
  }

  method DeleteLocked(h: Plane, o: OpId, q: Request) returns (out: Outcome)
    requires h.Valid() && q.Delete? && h.At(o, q, Holding)
    modifies h`cells, h`backups, h`trace
    ensures h.Valid() && h.At(o, q, Releasing(out)) && (out.Deleted? || out.Failed?)
    ensures Removed(old(h.cells), old(h.backups), h.cells, h.backups, q.at, q.purge, out)
    ensures h.reliable ==> (out.Deleted? <==> q.at in old(h.cells))
    ensures h.reliable && out.Deleted? && q.purge ==> h.backups == old(h.backups)[q.at := []]
  {
    var cur := Find(h.cells, q.at);
    var readable := h.Attempt();
    if !readable || cur.None? {
      h.Think(o, Choice(!readable, OK.result), q, Holding, Releasing(Failed));
      return Failed;
    }
    h.Think(o, OK, q, Holding, Read(cur));
    var saved := h.CreateBackup(o, q.at, cur.value, OK.result, q, Read(cur), Saved(cur, None), Releasing(Failed));
    if !saved {
      return Failed;
    }
    var gone := h.DeleteObject(o, q.at, q, Saved(cur, None), if q.purge then Erased else Releasing(Deleted), Releasing(Failed));
    if !gone {
      return Failed;
    }
    if q.purge {
      h.PurgeBackups(o, q.at, q);
    }
    return Deleted;
  }

  /** What a transfer reports when nothing fails: a migrate of a readable source is verified and,
      if that was asked for, decommissioned. */
  function Carried(raw: Content, migrate: bool, decommission: bool): Outcome {
    Transferred(raw, migrate && raw.reading.Some?, migrate && raw.reading.Some? && decommission)
  }

  /** What a backup or migrate call leaves, by what it reports. */
  predicate Moved(c0: Cells, b0: Backups, c1: Cells, b1: Backups, q: Request, out: Outcome)
    requires q.Transfer?
  {
    match out
    case Transferred(raw, verified, decommissioned) =>
      && Find(c0, q.at) == Some(raw)
      && (verified ==> q.migrate && raw.reading.Some?)
      && (decommissioned ==> verified && q.decommission)
      && c1 == (if decommissioned then c0[q.to := raw][q.at := EmptyState(raw.reading.value)] else c0[q.to := raw])
      && (b1 == WithBackup(b0, q.at, raw) || (!decommissioned && b1 == b0))
    case _ => c1 == c0 && b1 == b0
  }

  /** Both locks in (source, key) order, one lock for a transfer onto itself; all or none. */
  method AcquireTransferLocks(h: Plane, o: OpId, q: Request) returns (ok: bool)
    requires h.Valid() && q.Transfer? && h.At(o, q, Waiting)
    modifies h`locks, h`trace
    ensures h.Valid() && h.At(o, q, if ok then Holding else Done(Refused))
    ensures ok ==> q.at !in old(h.locks) && q.to !in old(h.locks) && h.locks == old(h.locks)[q.at := o][q.to := o]
    ensures !ok ==> h.locks == old(h.locks)
    ensures h.reliable ==> (ok <==> q.at !in old(h.locks) && q.to !in old(h.locks))
  {
    var first, second := q.at, q.to;
    if first == second {
      ok := h.AcquireLock(o, first, q, Waiting, Holding, Done(Refused));
      return;
    }
    if CellLess(second, first) {
      first, second := second, first;
    }
    ok := h.AcquireLock(o, first, q, Waiting, Half, Done(Refused));
    if ok {
      ok := h.AcquireLock(o, second, q, Half, Holding, Leaving(Refused));
      if !ok {
        h.ReleaseLock(o, first, q, Leaving(Refused), Done(Refused));
        assert h.locks == old(h.locks);
      }
    }
  }

  method ReleaseTransferLocks(h: Plane, o: OpId, q: Request, out: Outcome)
    requires h.Valid() && q.Transfer? && h.At(o, q, Releasing(out))
    requires q.at in h.locks && q.to in h.locks && h.locks[q.at] == h.locks[q.to] == o
    modifies h`locks, h`trace
    ensures h.Valid() && h.At(o, q, Done(out)) && h.locks == old(h.locks) - {q.at, q.to}
  {
    if q.at == q.to {
      h.ReleaseLock(o, q.at, q, Releasing(out), Done(out));
    } else {
      CellOrder(q);
      h.ReleaseLock(o, Second(q), q, Releasing(out), Leaving(out));
      h.ReleaseLock(o, First(q), q, Leaving(out), Done(out));
    }
  }

  /** POST .../backup and .../migrate. */
  method DoTransfer(h: Plane, at: Cell, to: Cell, migrate: bool, decommission: bool, force: bool) returns (out: Outcome)
    requires h.Valid()
    modifies h
    ensures h.Valid() && h.locks == old(h.locks)
    ensures Moved(old(h.cells), old(h.backups), h.cells, h.backups, Transfer(at, to, migrate, decommission, force), out)
    ensures h.At(old(h.nextId), Transfer(at, to, migrate, decommission, force), Done(out))
    ensures h.reliable ==>
              out == if at in old(h.locks) || to in old(h.locks) then Refused
                     else if at !in old(h.cells) then Failed
                     else Carried(old(h.cells)[at], migrate, decommission)
  {
    var q := Transfer(at, to, migrate, decommission, force);
    var o := h.Open(q);
    var locked := AcquireTransferLocks(h, o, q);
    if !locked {
      return Refused;
    }
    out := CopyVerifyDecommission(h, o, q);
    ReleaseTransferLocks(h, o, q, out);
    assert h.locks == old(h.locks);
  }

  method CopyVerifyDecommission(h: Plane, o: OpId, q: Request) returns (out: Outcome)
    requires h.Valid() && q.Transfer? && h.At(o, q, Holding)
    modifies h`cells, h`backups, h`trace
    ensures h.Valid() && h.At(o, q, Releasing(out))
    ensures Moved(old(h.cells), old(h.backups), h.cells, h.backups, q, out)
    ensures h.reliable ==> out == if q.at !in old(h.cells) then Failed else Carried(old(h.cells)[q.at], q.migrate, q.decommission)
  {
    var cur := Find(h.cells, q.at);
    var readable := h.Attempt();
    if !readable || cur.None? {
      h.Think(o, Choice(!readable, OK.result), q, Holding, Releasing(Failed));
      return Failed;
    }
    var raw := cur.value;
    h.Think(o, OK, q, Holding, Read(cur));
    var copied := h.WriteState(o, q.to, raw, q, Read(cur),
                               if q.migrate then Copied(raw) else Releasing(Transferred(raw, false, false)),
                               Releasing(TargetFailed(raw)));
    if !copied {
      return TargetFailed(raw);
    }
    if !q.migrate {
      return Transferred(raw, false, false);
    }
    var readBack := h.Attempt();
    var verified := VerifyPasses(World(h.cells, h.backups, h.locks, map[]), q.to, raw, !readBack);
    if !verified || !q.decommission {
      h.Think(o, Choice(!readBack, OK.result), q, Copied(raw), Releasing(Transferred(raw, verified, false)));
      return Transferred(raw, verified, false);
    }
    if q.force {
      h.Think(o, OK, q, Copied(raw), Checked(raw));
    } else {
      h.Think(o, OK, q, Copied(raw), Verified(raw));
      var reread := h.Attempt();
      if !RecheckPasses(World(h.cells, h.backups, h.locks, map[]), q.at, raw, !reread) {
        h.Think(o, Choice(!reread, OK.result), q, Verified(raw), Releasing(Transferred(raw, true, false)));
        return Transferred(raw, true, false);
      }
      h.Think(o, Choice(!reread, OK.result), q, Verified(raw), Checked(raw));
    }
    out := Decommission(h, o, q, raw);
  }

  /** Back the source up, then empty it; either failing leaves the source as it was. */
  method Decommission(h: Plane, o: OpId, q: Request, raw: Content) returns (out: Outcome)
    requires h.Valid() && q.Transfer? && raw.reading.Some? && h.At(o, q, Checked(raw))
    modifies h`cells, h`backups, h`trace
    ensures h.Valid() && h.At(o, q, Releasing(out)) && out.Transferred? && out.raw == raw && out.verified
    ensures h.cells == if out.decommissioned then old(h.cells)[q.at := EmptyState(raw.reading.value)] else old(h.cells)
    ensures h.backups == WithBackup(old(h.backups), q.at, raw) || (!out.decommissioned && h.backups == old(h.backups))
    ensures h.reliable ==> out.decommissioned
  {
    var saved := h.CreateBackup(o, q.at, raw, OK.result, q, Checked(raw), Archived(raw), Releasing(Transferred(raw, true, false)));
    if !saved {
      return Transferred(raw, true, false);
    }
    var emptied := h.WriteState(o, q.at, EmptyState(raw.reading.value), q, Archived(raw),
                                Releasing(Transferred(raw, true, true)), Releasing(Transferred(raw, true, false)));
    return Transferred(raw, true, emptied);
  }

  // ---------------------------------------------------------------- counterparties

  /** The organizations to notify: each owner of an end once, never the acting organization
      and never the blank one, which an audit entry would show to everybody. */
  method CounterpartyOrganizations(acting: string, ends: seq<string>) returns (out: seq<string>)
    ensures forall i, j :: 0 <= i < j < |out| ==> out[i] != out[j]
    ensures forall org :: org in out <==> org != "" && org != TrimSpace(acting) && exists k :: 0 <= k < |ends| && TrimSpace(ends[k]) == org
  {
    var seen := {TrimSpace(acting), ""};
    out := [];
    for i := 0 to |ends|
      invariant seen == {TrimSpace(acting), ""} + set o | o in out
      invariant forall a, b :: 0 <= a < b < |out| ==> out[a] != out[b]
      invariant forall org :: org in out <==> org != "" && org != TrimSpace(acting) && exists k :: 0 <= k < i && TrimSpace(ends[k]) == org
    {
      var org := TrimSpace(ends[i]);
      if org !in seen {
        seen := seen + {org};
        out := out + [org];
      }
    }
  }
}
