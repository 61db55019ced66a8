/** What each operation of the mutation plane does when nothing fails and nobody interferes: which
    edits are accepted, which transfers are verified and decommissioned, what a delete and an rm
    or mv leave. Everything is said in terms of the files themselves. */
module StateAlone {
  import opened Collections
  import opened StatePlane
  import opened StateSafety
  import opened StateEdits

  /** Operation o begun and then scheduled k times. */
  function Script(o: OpId, q: Request, ch: Choice, k: nat): seq<Label> {
    if k == 0 then [Begin(o, q)] else Script(o, q, ch, k - 1) + [Advance(o, ch)]
  }

  lemma Begun(w: World, o: OpId, q: Request, ch: Choice)
    requires Enabled(w, Begin(o, q))
    ensures Exec(w, Script(o, q, ch, 0)) == w.(ops := w.ops[o := Op(q, Waiting)])
  {
    assert [Begin(o, q)][..0] == [];
  }

  lemma OneMore(w: World, o: OpId, q: Request, ch: Choice, k: nat, v: World)
    requires o in Exec(w, Script(o, q, ch, k)).ops && Next(Exec(w, Script(o, q, ch, k)), Advance(o, ch)) == v
    ensures Exec(w, Script(o, q, ch, k + 1)) == v
  {
    ExecSnoc(w, Script(o, q, ch, k), Advance(o, ch));
  }

  lemma DoneStep(v: World, o: OpId, ch: Choice)
    requires o in v.ops && v.ops[o].phase.Done?
    ensures Next(v, Advance(o, ch)) == v
  {
    assert v.ops[o := v.ops[o]] == v.ops;
  }

  lemma OneMoreDone(w: World, o: OpId, q: Request, ch: Choice, k: nat)
    requires var v := Exec(w, Script(o, q, ch, k)); o in v.ops && v.ops[o].phase.Done?
    ensures Exec(w, Script(o, q, ch, k + 1)) == Exec(w, Script(o, q, ch, k))
  {
    DoneStep(Exec(w, Script(o, q, ch, k)), o, ch);
    OneMore(w, o, q, ch, k, Exec(w, Script(o, q, ch, k)));
  }

  /** An operation that is done stays as it is. */
  lemma {:induction false} StaysDone(w: World, o: OpId, q: Request, ch: Choice, k: nat, j: nat)
    requires k <= j && var v := Exec(w, Script(o, q, ch, k)); o in v.ops && v.ops[o].phase.Done?
    ensures Exec(w, Script(o, q, ch, j)) == Exec(w, Script(o, q, ch, k))
    decreases j - k
  {
    if k < j {
      OneMoreDone(w, o, q, ch, k);
      StaysDone(w, o, q, ch, k + 1, j);
    }
  }

  // ---------------------------------------------------------------- the world around one operation

  predicate Free(w: World, q: Request) {
    First(q) !in w.owner && (TwoLocks(q) ==> Second(q) !in w.owner)
  }

  function OwnerAt(w: World, o: OpId, q: Request, p: Phase): map<Cell, OpId> {
    if p.Waiting? || p.Done? then w.owner
    else if p.Half? || p.Leaving? || !TwoLocks(q) then w.owner[First(q) := o]
    else w.owner[First(q) := o][Second(q) := o]
  }

  /** w with operation o at phase p and files and backups as given. */
  function Around(w: World, o: OpId, q: Request, p: Phase, cells: map<Cell, Content>, backups: map<Cell, seq<Content>>): World {
    World(cells, backups, OwnerAt(w, o, q, p), w.ops[o := Op(q, p)])
  }

  /** Phases between which an operation holds all its locks. */
  predicate Inside(p: Phase) {
    !p.Waiting? && !p.Half? && !p.Leaving? && !p.Done?
  }

  lemma InsideStep(w: World, o: OpId, q: Request, ch: Choice, p: Phase, cells: map<Cell, Content>, backups: map<Cell, seq<Content>>, s: Step)
    requires Inside(p) && Inside(s.phase) && !s.effect.Take? && !s.effect.Drop?
    requires Decide(Around(w, o, q, p, cells, backups), Op(q, p), ch) == s
    ensures var u := Effected(World(cells, backups, map[], map[]), o, s.effect);
            Next(Around(w, o, q, p, cells, backups), Advance(o, ch)) == Around(w, o, q, s.phase, u.cells, u.backups)
  {
    var v := Around(w, o, q, p, cells, backups);
    assert v.ops[o := Op(q, s.phase)] == w.ops[o := Op(q, s.phase)];
  }

  /** How many steps taking the locks takes. */
  function LockSteps(q: Request): nat {
    if TwoLocks(q) then 2 else 1
  }

  lemma TakesOne(w: World, o: OpId, q: Request, ch: Choice)
    requires Free(w, q) && !ch.fault && !TwoLocks(q)
    ensures Next(Around(w, o, q, Waiting, w.cells, w.backups), Advance(o, ch)) == Around(w, o, q, Holding, w.cells, w.backups)
  {
    assert Around(w, o, q, Waiting, w.cells, w.backups).ops[o := Op(q, Holding)] == w.ops[o := Op(q, Holding)];
  }

  lemma TakesTwo(w: World, o: OpId, q: Request, ch: Choice)
    requires Free(w, q) && !ch.fault && TwoLocks(q)
    ensures Next(Around(w, o, q, Waiting, w.cells, w.backups), Advance(o, ch)) == Around(w, o, q, Half, w.cells, w.backups)
    ensures Next(Around(w, o, q, Half, w.cells, w.backups), Advance(o, ch)) == Around(w, o, q, Holding, w.cells, w.backups)
  {
    CellOrder(q);
    assert Around(w, o, q, Waiting, w.cells, w.backups).ops[o := Op(q, Half)] == w.ops[o := Op(q, Half)];
    assert Around(w, o, q, Half, w.cells, w.backups).ops[o := Op(q, Holding)] == w.ops[o := Op(q, Holding)];
  }

  lemma TakesLocks(w: World, o: OpId, q: Request, ch: Choice)
    requires Enabled(w, Begin(o, q)) && Free(w, q) && !ch.fault
    ensures Exec(w, Script(o, q, ch, LockSteps(q))) == Around(w, o, q, Holding, w.cells, w.backups)
  {
    Begun(w, o, q, ch);
    var zero := LockSteps(q) - LockSteps(q);
    assert Exec(w, Script(o, q, ch, zero)) == Around(w, o, q, Waiting, w.cells, w.backups);
    if TwoLocks(q) {
      TakesTwo(w, o, q, ch);
      OneMore(w, o, q, ch, zero, Around(w, o, q, Half, w.cells, w.backups));
      OneMore(w, o, q, ch, zero + 1, Around(w, o, q, Holding, w.cells, w.backups));
    } else {
      TakesOne(w, o, q, ch);
      OneMore(w, o, q, ch, zero, Around(w, o, q, Holding, w.cells, w.backups));
    }
  }

  lemma ReturnsOne(w: World, o: OpId, q: Request, ch: Choice, out: Outcome, cells: map<Cell, Content>, backups: map<Cell, seq<Content>>)
    requires Free(w, q) && !TwoLocks(q)
    ensures Next(Around(w, o, q, Releasing(out), cells, backups), Advance(o, ch)) == Around(w, o, q, Done(out), cells, backups)
  {
    var a, d := Around(w, o, q, Releasing(out), cells, backups), Around(w, o, q, Done(out), cells, backups);
    assert a.owner - {First(q)} == d.owner && a.ops[o := Op(q, Done(out))] == d.ops;
  }

  lemma ReturnsSecond(w: World, o: OpId, q: Request, ch: Choice, out: Outcome, cells: map<Cell, Content>, backups: map<Cell, seq<Content>>)
    requires Free(w, q) && TwoLocks(q)
    ensures Next(Around(w, o, q, Releasing(out), cells, backups), Advance(o, ch)) == Around(w, o, q, Leaving(out), cells, backups)
  {
    CellOrder(q);
    var a, b := Around(w, o, q, Releasing(out), cells, backups), Around(w, o, q, Leaving(out), cells, backups);
    assert a.owner - {Second(q)} == b.owner && a.ops[o := Op(q, Leaving(out))] == b.ops;
  }

  lemma ReturnsFirst(w: World, o: OpId, q: Request, ch: Choice, out: Outcome, cells: map<Cell, Content>, backups: map<Cell, seq<Content>>)
    requires Free(w, q) && TwoLocks(q)
    ensures Next(Around(w, o, q, Leaving(out), cells, backups), Advance(o, ch)) == Around(w, o, q, Done(out), cells, backups)
  {
    var b, d := Around(w, o, q, Leaving(out), cells, backups), Around(w, o, q, Done(out), cells, backups);
    assert b.owner - {First(q)} == d.owner && b.ops[o := Op(q, Done(out))] == d.ops;
  }

  /** From the end of its effects an operation returns its locks and is done. */
  lemma ReturnsLocks(w: World, o: OpId, q: Request, ch: Choice, k: nat, j: nat, out: Outcome,
                     cells: map<Cell, Content>, backups: map<Cell, seq<Content>>)
    requires Free(w, q) && k + LockSteps(q) <= j
    requires Exec(w, Script(o, q, ch, k)) == Around(w, o, q, Releasing(out), cells, backups)
    ensures Exec(w, Script(o, q, ch, j)) == Around(w, o, q, Done(out), cells, backups)
  {
    if TwoLocks(q) {
      ReturnsSecond(w, o, q, ch, out, cells, backups);
      ReturnsFirst(w, o, q, ch, out, cells, backups);
      OneMore(w, o, q, ch, k, Around(w, o, q, Leaving(out), cells, backups));
      OneMore(w, o, q, ch, k + 1, Around(w, o, q, Done(out), cells, backups));
    } else {
      ReturnsOne(w, o, q, ch, out, cells, backups);
      OneMore(w, o, q, ch, k, Around(w, o, q, Done(out), cells, backups));
    }
    StaysDone(w, o, q, ch, k + LockSteps(q), j);
  }

  lemma InsideMore(w: World, o: OpId, q: Request, ch: Choice, k: nat, p: Phase, cells: map<Cell, Content>, backups: map<Cell, seq<Content>>, s: Step)
    requires Inside(p) && Inside(s.phase) && !s.effect.Take? && !s.effect.Drop?
    requires Exec(w, Script(o, q, ch, k)) == Around(w, o, q, p, cells, backups)
    requires Decide(Around(w, o, q, p, cells, backups), Op(q, p), ch) == s
    ensures var u := Effected(World(cells, backups, map[], map[]), o, s.effect);
            Exec(w, Script(o, q, ch, k + 1)) == Around(w, o, q, s.phase, u.cells, u.backups)
  {
    InsideStep(w, o, q, ch, p, cells, backups, s);
    var u := Effected(World(cells, backups, map[], map[]), o, s.effect);
    OneMore(w, o, q, ch, k, Around(w, o, q, s.phase, u.cells, u.backups));
  }

  // ---------------------------------------------------------------- raw replaces

  /** A raw replace left alone is accepted exactly when there is no readable file, or it is forced,
      or its serial is at least the file's and the two lineages are not both known and different.
      Otherwise it is a conflict and nothing changes. */
  lemma ReplaceExactly(w: World, o: OpId, c: Cell, m: Content, force: bool)
    requires o !in w.ops && c !in w.owner && m.reading.Some?
    ensures var v := Exec(w, EditScript(o, Replace(c, m, force)));
            var accepted :=
              || c !in w.cells || w.cells[c].reading.None? || force
              || (m.reading.value.serial >= w.cells[c].reading.value.serial
                  && !(w.cells[c].reading.value.lineage != "" && m.reading.value.lineage != ""
                       && w.cells[c].reading.value.lineage != m.reading.value.lineage));
            && o in v.ops && v.ops[o].phase == Done(if accepted then Written(m) else Conflict)
            && v.cells == (if accepted then w.cells[c := m] else w.cells)
            && v.owner == w.owner
  {
    var q := Replace(c, m, force);
    if Passes(w, q) { EditRuns(w, o, q); } else { RefusalRuns(w, o, q); }
  }

  // ---------------------------------------------------------------- deletes

  /** A delete left alone removes the file, keeps a last backup of it, or with purge none at all;
      without a file it fails and changes nothing. */
  lemma DeleteRuns(w: World, o: OpId, c: Cell, purge: bool, j: nat)
    requires o !in w.ops && c !in w.owner && j >= 7
    ensures var v := Exec(w, Script(o, Delete(c, purge), OK, j));
            && v.owner == w.owner && o in v.ops
            && (c in w.cells ==>
                  && v.ops[o].phase == Done(Deleted) && v.cells == w.cells - {c}
                  && v.backups == w.backups[c := if purge then [] else Backups(w, c) + [w.cells[c]]])
            && (c !in w.cells ==> v.ops[o].phase == Done(Failed) && v.cells == w.cells && v.backups == w.backups)
  {
    var q := Delete(c, purge);
    TakesLocks(w, o, q, OK);
    if c !in w.cells {
      FailsToRead(w, o, q, OK, j);
    } else {
      ReadsFile(w, o, q, OK);
      DeleteSaves(w, o, c, purge);
      var saved := w.backups[c := Backups(w, c) + [w.cells[c]]];
      DeleteEnds(w, o, c, purge, saved, j);
      OverwrittenTwice(w.backups, c, Backups(w, c) + [w.cells[c]], []);
    }
  }

  lemma OverwrittenTwice(m: map<Cell, seq<Content>>, c: Cell, a: seq<Content>, b: seq<Content>)
    ensures m[c := a][c := b] == m[c := b]
  {
  }

  lemma FailsToRead(w: World, o: OpId, q: Request, ch: Choice, j: nat)
    requires (q.Delete? || q.Operate? || q.Transfer?) && Free(w, q) && !ch.fault && q.at !in w.cells && j >= 2 * LockSteps(q) + 1
    requires Exec(w, Script(o, q, ch, LockSteps(q))) == Around(w, o, q, Holding, w.cells, w.backups)
    ensures Exec(w, Script(o, q, ch, j)) == Around(w, o, q, Done(Failed), w.cells, w.backups)
  {
    InsideMore(w, o, q, ch, LockSteps(q), Holding, w.cells, w.backups, Step(Quiet, Releasing(Failed)));
    ReturnsLocks(w, o, q, ch, LockSteps(q) + 1, j, Failed, w.cells, w.backups);
  }

  lemma ReadsFile(w: World, o: OpId, q: Request, ch: Choice)
    requires Free(w, q) && !ch.fault && q.at in w.cells
    requires Exec(w, Script(o, q, ch, LockSteps(q))) == Around(w, o, q, Holding, w.cells, w.backups)
    ensures Exec(w, Script(o, q, ch, LockSteps(q) + 1)) == Around(w, o, q, Read(Some(w.cells[q.at])), w.cells, w.backups)
  {
    InsideMore(w, o, q, ch, LockSteps(q), Holding, w.cells, w.backups, Step(Quiet, Read(Some(w.cells[q.at]))));
  }

  lemma DeleteSaves(w: World, o: OpId, c: Cell, purge: bool)
    requires c in w.cells
    requires var q := Delete(c, purge);
             Exec(w, Script(o, q, OK, LockSteps(q) + 1)) == Around(w, o, q, Read(Some(w.cells[c])), w.cells, w.backups)
    ensures var q := Delete(c, purge);
            Exec(w, Script(o, q, OK, LockSteps(q) + 2))
            == Around(w, o, q, Saved(Some(w.cells[c]), None), w.cells, w.backups[c := Backups(w, c) + [w.cells[c]]])
  {
    var q, cur := Delete(c, purge), Some(w.cells[c]);
    InsideMore(w, o, q, OK, LockSteps(q) + 1, Read(cur), w.cells, w.backups, Step(Archive(c, w.cells[c]), Saved(cur, None)));
  }

  lemma FileRemoved(w: World, o: OpId, c: Cell, purge: bool, k: nat, saved: map<Cell, seq<Content>>)
    requires c in w.cells
    requires Exec(w, Script(o, Delete(c, purge), OK, k)) == Around(w, o, Delete(c, purge), Saved(Some(w.cells[c]), None), w.cells, saved)
    ensures Exec(w, Script(o, Delete(c, purge), OK, k + 1))
            == Around(w, o, Delete(c, purge), if purge then Erased else Releasing(Deleted), w.cells - {c}, saved)
  {
    InsideMore(w, o, Delete(c, purge), OK, k, Saved(Some(w.cells[c]), None), w.cells, saved,
               Step(Remove(c), if purge then Erased else Releasing(Deleted)));
  }

  lemma BackupsPurged(w: World, o: OpId, c: Cell, k: nat, cells: map<Cell, Content>, saved: map<Cell, seq<Content>>)
    requires Exec(w, Script(o, Delete(c, true), OK, k)) == Around(w, o, Delete(c, true), Erased, cells, saved)
    ensures Exec(w, Script(o, Delete(c, true), OK, k + 1)) == Around(w, o, Delete(c, true), Releasing(Deleted), cells, saved[c := []])
  {
    InsideMore(w, o, Delete(c, true), OK, k, Erased, cells, saved, Step(Purge(c), Releasing(Deleted)));
  }

  lemma DeleteEnds(w: World, o: OpId, c: Cell, purge: bool, saved: map<Cell, seq<Content>>, j: nat)
    requires c !in w.owner && c in w.cells && j >= 7
    requires var q := Delete(c, purge);
             Exec(w, Script(o, q, OK, LockSteps(q) + 2)) == Around(w, o, q, Saved(Some(w.cells[c]), None), w.cells, saved)
    ensures Exec(w, Script(o, Delete(c, purge), OK, j))
            == Around(w, o, Delete(c, purge), Done(Deleted), w.cells - {c}, if purge then saved[c := []] else saved)
  {
    var q := Delete(c, purge);
    var k := LockSteps(q) + 2;
    FileRemoved(w, o, c, purge, k, saved);
    if purge {
      BackupsPurged(w, o, c, k + 1, w.cells - {c}, saved);
      ReturnsLocks(w, o, q, OK, k + 2, j, Deleted, w.cells - {c}, saved[c := []]);
    } else {
      ReturnsLocks(w, o, q, OK, k + 1, j, Deleted, w.cells - {c}, saved);
    }
  }

  // ---------------------------------------------------------------- rm and mv

  /** An rm or mv left alone writes what it computed over an existing file, which it backs up
      first, exactly when the analyzer accepts the result; otherwise nothing changes. */
  lemma OperateRuns(w: World, o: OpId, c: Cell, result: Content, j: nat)
    requires o !in w.ops && c !in w.owner && j >= 7
    ensures var v := Exec(w, Script(o, Operate(c), Choice(false, result), j));
            var accepted := c in w.cells && result.reading.Some?;
            && v.owner == w.owner && o in v.ops && v.ops[o].phase == Done(if accepted then Written(result) else Failed)
            && v.cells == (if accepted then w.cells[c := result] else w.cells)
            && v.backups == (if accepted then w.backups[c := Backups(w, c) + [w.cells[c]]] else w.backups)
  {
    var q, ch := Operate(c), Choice(false, result);
    TakesLocks(w, o, q, ch);
    if c !in w.cells {
      FailsToRead(w, o, q, ch, j);
    } else {
      ReadsFile(w, o, q, ch);
      OperateEnds(w, o, c, result, j);
    }
  }

  lemma ResultSaved(w: World, o: OpId, c: Cell, result: Content, k: nat)
    requires c in w.cells && result.reading.Some?
    requires Exec(w, Script(o, Operate(c), Choice(false, result), k)) == Around(w, o, Operate(c), Read(Some(w.cells[c])), w.cells, w.backups)
    ensures Exec(w, Script(o, Operate(c), Choice(false, result), k + 1))
            == Around(w, o, Operate(c), Saved(Some(w.cells[c]), Some(result)), w.cells, w.backups[c := Backups(w, c) + [w.cells[c]]])
  {
    InsideMore(w, o, Operate(c), Choice(false, result), k, Read(Some(w.cells[c])), w.cells, w.backups,
               Step(Archive(c, w.cells[c]), Saved(Some(w.cells[c]), Some(result))));
  }

  lemma ResultWritten(w: World, o: OpId, c: Cell, result: Content, k: nat, saved: map<Cell, seq<Content>>)
    requires c in w.cells
    requires Exec(w, Script(o, Operate(c), Choice(false, result), k))
             == Around(w, o, Operate(c), Saved(Some(w.cells[c]), Some(result)), w.cells, saved)
    ensures Exec(w, Script(o, Operate(c), Choice(false, result), k + 1))
            == Around(w, o, Operate(c), Releasing(Written(result)), w.cells[c := result], saved)
  {
    InsideMore(w, o, Operate(c), Choice(false, result), k, Saved(Some(w.cells[c]), Some(result)), w.cells, saved,
               Step(Put(c, result), Releasing(Written(result))));
  }

  lemma OperateEnds(w: World, o: OpId, c: Cell, result: Content, j: nat)
    requires c !in w.owner && c in w.cells && j >= 7
    requires var q := Operate(c);
             Exec(w, Script(o, q, Choice(false, result), LockSteps(q) + 1)) == Around(w, o, q, Read(Some(w.cells[c])), w.cells, w.backups)
    ensures var ok := result.reading.Some?;
            Exec(w, Script(o, Operate(c), Choice(false, result), j))
            == Around(w, o, Operate(c), Done(if ok then Written(result) else Failed), if ok then w.cells[c := result] else w.cells,
                      if ok then w.backups[c := Backups(w, c) + [w.cells[c]]] else w.backups)
  {
    var q, ch := Operate(c), Choice(false, result);
    var k := LockSteps(q) + 1;
    if result.reading.None? {
      InsideMore(w, o, q, ch, k, Read(Some(w.cells[c])), w.cells, w.backups, Step(Quiet, Releasing(Failed)));
      ReturnsLocks(w, o, q, ch, k + 1, j, Failed, w.cells, w.backups);
    } else {
      var saved := w.backups[c := Backups(w, c) + [w.cells[c]]];
      ResultSaved(w, o, c, result, k);
      ResultWritten(w, o, c, result, k + 1, saved);
      ReturnsLocks(w, o, q, ch, k + 2, j, Written(result), w.cells[c := result], saved);
    }
  }

  // ---------------------------------------------------------------- transfers

  /** The decision after a migrate's copy, whatever has happened to the target meanwhile: the copy
      counts as verified exactly when both files are readable and agree in serial, lineage, total
      and managed counts. */
  lemma VerifiedExactly(w: World, op: Op, raw: Content, result: Content)
    requires op.request.Transfer? && op.phase == Copied(raw)
    ensures var q := op.request;
            var n := Decide(w, op, Choice(false, result));
            var verified := raw.reading.Some? && q.to in w.cells && w.cells[q.to].reading.Some?
                            && (var a, b := raw.reading.value, w.cells[q.to].reading.value;
                                a.serial == b.serial && a.lineage == b.lineage && a.total == b.total && a.managed == b.managed);
            && n.effect == Quiet
            && n.phase == if verified && q.decommission then (if q.force then Checked(raw) else Verified(raw))
                          else Releasing(Transferred(raw, verified, false))
    ensures Decide(w, op, Choice(true, result)) == Step(Quiet, Releasing(Transferred(raw, false, false)))
  {
  }

  /** The re-check before a source is emptied, whatever has happened to it meanwhile: it goes on
      exactly when the source is still there and, if both its content and what was read are
      readable, serial and lineage are those that were read. */
  lemma RecheckedExactly(w: World, op: Op, raw: Content, result: Content)
    requires op.request.Transfer? && op.phase == Verified(raw)
    ensures var c := op.request.at;
            var same := c in w.cells
                        && (w.cells[c].reading.None? || raw.reading.None?
                            || (w.cells[c].reading.value.serial == raw.reading.value.serial
                                && w.cells[c].reading.value.lineage == raw.reading.value.lineage));
            Decide(w, op, Choice(false, result)) == Step(Quiet, if same then Checked(raw) else Releasing(Transferred(raw, true, false)))
    ensures Decide(w, op, Choice(true, result)) == Step(Quiet, Releasing(Transferred(raw, true, false)))
  {
  }

  /** A transfer left alone copies the source's bytes. A migrate of a readable source is verified,
      and then, if that was asked for, decommissions: the source is backed up and replaced by a
      file of its lineage with the next serial and no resources. Nothing else is verified or
      decommissioned. Source and target may be one cell; without a source the transfer fails. */
  lemma TransferRuns(w: World, o: OpId, q: Request, j: nat)
    requires q.Transfer? && o !in w.ops && q.at !in w.owner && q.to !in w.owner && j >= 12
    ensures var v := Exec(w, Script(o, q, OK, j));
            && v.owner == w.owner && o in v.ops
            && (q.at !in w.cells ==> v.ops[o].phase == Done(Failed) && v.cells == w.cells && v.backups == w.backups)
    ensures q.at in w.cells ==>
            var v, raw := Exec(w, Script(o, q, OK, j)), w.cells[q.at];
            var verified := q.migrate && raw.reading.Some?;
            var gone := verified && q.decommission;
            && v.ops[o].phase == Done(Transferred(raw, verified, gone))
            && (!gone ==> v.cells == w.cells[q.to := raw] && v.backups == w.backups)
            && (gone ==>
                  && v.backups == w.backups[q.at := Backups(w, q.at) + [raw]]
                  && q.at in v.cells && v.cells == w.cells[q.to := raw][q.at := v.cells[q.at]]
                  && (var r := raw.reading.value;
                      v.cells[q.at].reading == Some(Reading(r.terraformVersion, Wrap64(r.serial + 1), r.lineage, 0, 0))))
  {
    if TwoLocks(q) { CellOrder(q); }
    TakesLocks(w, o, q, OK);
    if q.at !in w.cells {
      FailsToRead(w, o, q, OK, j);
    } else {
      ReadsFile(w, o, q, OK);
      TransferEnds(w, o, q, j);
      LeftInFull(w, o, q);
    }
  }

  lemma LeftInFull(w: World, o: OpId, q: Request)
    requires q.Transfer? && q.at in w.cells
    ensures var v, raw := Left(w, o, q), w.cells[q.at];
            var verified := q.migrate && raw.reading.Some?;
            var gone := verified && q.decommission;
            && v.owner == w.owner && o in v.ops && v.ops[o].phase == Done(Transferred(raw, verified, gone))
            && (!gone ==> v.cells == w.cells[q.to := raw] && v.backups == w.backups)
            && (gone ==>
                  && v.backups == w.backups[q.at := Backups(w, q.at) + [raw]]
                  && q.at in v.cells && v.cells == w.cells[q.to := raw][q.at := v.cells[q.at]]
                  && (var r := raw.reading.value;
                      v.cells[q.at].reading == Some(Reading(r.terraformVersion, Wrap64(r.serial + 1), r.lineage, 0, 0))))
  {
  }

  /** What a transfer of raw leaves, in full. */
  function Left(w: World, o: OpId, q: Request): World
    requires q.Transfer? && q.at in w.cells
  {
    var raw := w.cells[q.at];
    var verified := q.migrate && raw.reading.Some?;
    if verified && q.decommission
    then Around(w, o, q, Done(Transferred(raw, true, true)), w.cells[q.to := raw][q.at := EmptyState(raw.reading.value)],
                w.backups[q.at := Backups(w, q.at) + [raw]])
    else Around(w, o, q, Done(Transferred(raw, verified, false)), w.cells[q.to := raw], w.backups)
  }

  lemma TransferEnds(w: World, o: OpId, q: Request, j: nat)
    requires q.Transfer? && Free(w, q) && q.at in w.cells && j >= 12
    requires Exec(w, Script(o, q, OK, LockSteps(q) + 1)) == Around(w, o, q, Read(Some(w.cells[q.at])), w.cells, w.backups)
    ensures Exec(w, Script(o, q, OK, j)) == Left(w, o, q)
  {
    var raw, k := w.cells[q.at], LockSteps(q) + 1;
    var copied := w.cells[q.to := raw];
    if !q.migrate {
      InsideMore(w, o, q, OK, k, Read(Some(raw)), w.cells, w.backups, Step(Put(q.to, raw), Releasing(Transferred(raw, false, false))));
      ReturnsLocks(w, o, q, OK, k + 1, j, Transferred(raw, false, false), copied, w.backups);
    } else {
      InsideMore(w, o, q, OK, k, Read(Some(raw)), w.cells, w.backups, Step(Put(q.to, raw), Copied(raw)));
      MigrateEnds(w, o, q, k + 1, j);
    }
  }

  lemma MigrateEnds(w: World, o: OpId, q: Request, k: nat, j: nat)
    requires q.Transfer? && q.migrate && Free(w, q) && q.at in w.cells && k == LockSteps(q) + 2 && j >= 12
    requires Exec(w, Script(o, q, OK, k)) == Around(w, o, q, Copied(w.cells[q.at]), w.cells[q.to := w.cells[q.at]], w.backups)
    ensures Exec(w, Script(o, q, OK, j)) == Left(w, o, q)
  {
    var raw := w.cells[q.at];
    var copied := w.cells[q.to := raw];
    VerifiedExactly(Around(w, o, q, Copied(raw), copied, w.backups), Op(q, Copied(raw)), raw, OK.result);
    if raw.reading.None? || !q.decommission {
      InsideMore(w, o, q, OK, k, Copied(raw), copied, w.backups, Step(Quiet, Releasing(Transferred(raw, raw.reading.Some?, false))));
      ReturnsLocks(w, o, q, OK, k + 1, j, Transferred(raw, raw.reading.Some?, false), copied, w.backups);
    } else if q.force {
      InsideMore(w, o, q, OK, k, Copied(raw), copied, w.backups, Step(Quiet, Checked(raw)));
      DecommissionEnds(w, o, q, k + 1, j);
    } else {
      InsideMore(w, o, q, OK, k, Copied(raw), copied, w.backups, Step(Quiet, Verified(raw)));
      RecheckedExactly(Around(w, o, q, Verified(raw), copied, w.backups), Op(q, Verified(raw)), raw, OK.result);
      InsideMore(w, o, q, OK, k + 1, Verified(raw), copied, w.backups, Step(Quiet, Checked(raw)));
      DecommissionEnds(w, o, q, k + 2, j);
    }
  }

  lemma DecommissionEnds(w: World, o: OpId, q: Request, k: nat, j: nat)
    requires q.Transfer? && q.migrate && q.decommission && Free(w, q) && q.at in w.cells && w.cells[q.at].reading.Some?
    requires k + LockSteps(q) + 2 <= j
    requires Exec(w, Script(o, q, OK, k)) == Around(w, o, q, Checked(w.cells[q.at]), w.cells[q.to := w.cells[q.at]], w.backups)
    ensures Exec(w, Script(o, q, OK, j)) == Left(w, o, q)
  {
    var raw := w.cells[q.at];
    var copied, saved := w.cells[q.to := raw], w.backups[q.at := Backups(w, q.at) + [raw]];
    SourceSaved(w, o, q, k, raw, copied, w.backups);
    assert Backups(World(copied, w.backups, map[], map[]), q.at) == Backups(w, q.at);
    SourceEmptied(w, o, q, k + 1, raw, copied, saved);
    ReturnsLocks(w, o, q, OK, k + 2, j, Transferred(raw, true, true), copied[q.at := EmptyState(raw.reading.value)], saved);
  }

  lemma SourceSaved(w: World, o: OpId, q: Request, k: nat, raw: Content, cells: map<Cell, Content>, backups: map<Cell, seq<Content>>)
    requires q.Transfer? && Exec(w, Script(o, q, OK, k)) == Around(w, o, q, Checked(raw), cells, backups)
    ensures Exec(w, Script(o, q, OK, k + 1))
            == Around(w, o, q, Archived(raw), cells, backups[q.at := (if q.at in backups then backups[q.at] else []) + [raw]])
  {
    InsideMore(w, o, q, OK, k, Checked(raw), cells, backups, Step(Archive(q.at, raw), Archived(raw)));
  }

  lemma SourceEmptied(w: World, o: OpId, q: Request, k: nat, raw: Content, cells: map<Cell, Content>, backups: map<Cell, seq<Content>>)
    requires q.Transfer? && raw.reading.Some? && Exec(w, Script(o, q, OK, k)) == Around(w, o, q, Archived(raw), cells, backups)
    ensures Exec(w, Script(o, q, OK, k + 1))
            == Around(w, o, q, Releasing(Transferred(raw, true, true)), cells[q.at := EmptyState(raw.reading.value)], backups)
  {
    InsideMore(w, o, q, OK, k, Archived(raw), cells, backups,
               Step(Put(q.at, EmptyState(raw.reading.value)), Releasing(Transferred(raw, true, true))));
  }
}
