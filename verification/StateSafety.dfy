/** What the mutation plane promises over whole runs: every edit is reversible, a migrate never
    holds the only copy hostage, and why the two exceptions (a transfer's target, an admin
    force-unlock) have to be exceptions. */
module StateSafety {
  import opened Collections
  import opened StatePlane
  import Analyzer

  /** The step at which a transfer writes its target. */
  predicate TargetWrite(w: World, l: Label, c: Cell) {
    && l.Advance? && l.op in w.ops && !l.choice.fault
    && w.ops[l.op].request.Transfer? && w.ops[l.op].request.to == c && w.ops[l.op].phase.Read?
  }

  /** The step at which delete with purge=true drops the backups of c. */
  predicate PurgesAt(w: World, l: Label, c: Cell) {
    && l.Advance? && l.op in w.ops && !l.choice.fault
    && w.ops[l.op].phase.Erased? && w.ops[l.op].request.at == c
  }

  predicate Readable(w: World, c: Cell) {
    c in w.cells && w.cells[c].reading.Some?
  }

  function SerialOf(w: World, c: Cell): int
    requires Readable(w, c)
  {
    w.cells[c].reading.value.serial
  }

  function LineageOf(w: World, c: Cell): string
    requires Readable(w, c)
  {
    w.cells[c].reading.value.lineage
  }

  // ---------------------------------------------------------------- reversibility

  /** The only calls that take content off a cell: writing an edit, deleting, writing a transfer's
      target, and emptying a source. */
  lemma WhatLeaves(w: World, op: Op, ch: Choice, c: Cell, x: Content)
    requires OpInv(w, op) && Lookup(w, c) == Some(x)
    requires var e := Decide(w, op, ch).effect; (e.Put? || e.Remove?) && e.cell == c && e != Put(c, x)
    requires !(op.request.Transfer? && op.phase.Read?)
    ensures x in Backups(w, c)
  {
  }

  lemma LeavingContentIsSaved(w: World, l: Label, c: Cell, x: Content)
    requires Inv(w) && Enabled(w, l) && !l.Force? && !TargetWrite(w, l, c)
    requires Lookup(w, c) == Some(x) && Lookup(Next(w, l), c) != Some(x)
    ensures x in Backups(Next(w, l), c)
  {
    var op := w.ops[l.op];
    var s := Decide(w, op, l.choice);
    assert OpInv(w, op);
    assert Next(w, l) == Apply(w, l.op, s);
    assert (s.effect.Put? || s.effect.Remove?) && s.effect.cell == c && s.effect != Put(c, x);
    WhatLeaves(w, op, l.choice, c, x);
  }

  lemma BackupsOnlyPurged(w: World, l: Label, c: Cell, x: Content)
    requires Enabled(w, l) && x in Backups(w, c) && !PurgesAt(w, l, c)
    ensures x in Backups(Next(w, l), c)
  {
  }

  lemma LastStep(w: World, ls: seq<Label>, j: nat)
    requires 0 < j <= |ls|
    ensures Exec(w, ls[..j]) == var v := Exec(w, ls[..j - 1]); if Enabled(v, ls[j - 1]) then Next(v, ls[j - 1]) else v
  {
    assert ls[..j][..j - 1] == ls[..j - 1];
  }

  lemma SavedOrPurged(w: World, ls: seq<Label>, j: nat, c: Cell, x: Content)
    requires 0 < j <= |ls| && x in Backups(Exec(w, ls[..j - 1]), c)
    ensures x in Backups(Exec(w, ls[..j]), c) || PurgesAt(Exec(w, ls[..j - 1]), ls[j - 1], c)
  {
    LastStep(w, ls, j);
    var v := Exec(w, ls[..j - 1]);
    if Enabled(v, ls[j - 1]) && !PurgesAt(v, ls[j - 1], c) {
      BackupsOnlyPurged(v, ls[j - 1], c, x);
    }
  }

  lemma {:induction false} SavedUntilPurged(w: World, ls: seq<Label>, i: nat, k: nat, c: Cell, x: Content)
    requires i <= k <= |ls| && x in Backups(Exec(w, ls[..i]), c)
    ensures x in Backups(Exec(w, ls[..k]), c) || exists m :: i <= m < k && PurgesAt(Exec(w, ls[..m]), ls[m], c)
  {
    if i < k {
      SavedUntilPurged(w, ls, i, k - 1, c, x);
      if x in Backups(Exec(w, ls[..k - 1]), c) {
        SavedOrPurged(w, ls, k, c, x);
      }
    }
  }

  /** In every interleaving without a force-unlock, content that leaves a key other than as a
      transfer's target is among that key's backups from then on, until a purge. */
  lemma EveryEditIsReversible(w: World, ls: seq<Label>, i: nat, j: nat, c: Cell, x: Content)
    requires Initial(w) && NoForce(ls) && i < j <= |ls|
    requires Lookup(Exec(w, ls[..i]), c) == Some(x) && Lookup(Exec(w, ls[..i + 1]), c) != Some(x)
    requires !TargetWrite(Exec(w, ls[..i]), ls[i], c)
    ensures x in Backups(Exec(w, ls[..j]), c)
         || exists k :: i < k < j && PurgesAt(Exec(w, ls[..k]), ls[k], c)
  {
    LastStep(w, ls, i + 1);
    ExecInv(w, ls[..i]);
    LeavingContentIsSaved(Exec(w, ls[..i]), ls[i], c, x);
    SavedUntilPurged(w, ls, i + 1, j, c, x);
  }

  lemma ExecSnoc(w: World, ls: seq<Label>, l: Label)
    requires Enabled(Exec(w, ls), l)
    ensures Exec(w, ls + [l]) == Next(Exec(w, ls), l)
  {
    assert (ls + [l])[..|ls|] == ls;
  }

  // ---------------------------------------------------------------- migrate

  /** The bytes a transfer has read. */
  function Original(p: Phase): Option<Content> {
    match p
    case Read(cur) => cur
    case Copied(raw) => Some(raw)
    case Verified(raw) => Some(raw)
    case Checked(raw) => Some(raw)
    case Archived(raw) => Some(raw)
    case Releasing(outcome) => OriginalOf(outcome)
    case Leaving(outcome) => OriginalOf(outcome)
    case Done(outcome) => OriginalOf(outcome)
    case _ => None
  }

  function OriginalOf(outcome: Outcome): Option<Content> {
    match outcome
    case TargetFailed(raw) => Some(raw)
    case Transferred(raw, _, _) => Some(raw)
    case _ => None
  }

  /** Wherever the process stops between the read and the release of its locks, the original
      bytes are at the source, or at the target with a backup at the source. */
  lemma MigrateConservesState(w: World, ls: seq<Label>, o: OpId, raw: Content)
    requires Initial(w) && NoForce(ls)
    requires var v := Exec(w, ls);
             && o in v.ops && v.ops[o].request.Transfer? && v.ops[o].request.at != v.ops[o].request.to
             && Original(v.ops[o].phase) == Some(raw) && !v.ops[o].phase.Leaving? && !v.ops[o].phase.Done?
    ensures var v := Exec(w, ls); var q := v.ops[o].request;
            || Lookup(v, q.at) == Some(raw)
            || (Lookup(v, q.to) == Some(raw) && raw in Backups(v, q.at))
  {
    ExecInv(w, ls);
    assert OpInv(Exec(w, ls), Exec(w, ls).ops[o]);
  }

  lemma OriginalDecides(w: World, op: Op, ch: Choice, raw: Content)
    requires OpInv(w, op) && op.request.Transfer? && Original(op.phase) == Some(raw)
    ensures Original(Decide(w, op, ch).phase) == Some(raw)
  {
  }

  lemma OriginalStep(w: World, l: Label, o: OpId, raw: Content)
    requires Inv(w) && Enabled(w, l) && !l.Force? && o in w.ops && w.ops[o].request.Transfer?
    requires Original(w.ops[o].phase) == Some(raw)
    ensures o in Next(w, l).ops && Next(w, l).ops[o].request == w.ops[o].request
    ensures Original(Next(w, l).ops[o].phase) == Some(raw)
  {
    assert OpInv(w, w.ops[o]);
    if l.Advance? && l.op == o {
      OriginalDecides(w, w.ops[o], l.choice, raw);
    }
  }

  /** The bytes a transfer reports on to the end are those that stood at its source when it
      read it. */
  lemma {:induction false} OriginalIsWhatWasRead(w: World, ls: seq<Label>, i: nat, j: nat, o: OpId)
    requires Initial(w) && NoForce(ls) && i <= j <= |ls|
    requires var v := Exec(w, ls[..i]);
             o in v.ops && v.ops[o].request.Transfer? && v.ops[o].phase.Read?
    ensures var u, v := Exec(w, ls[..i]), Exec(w, ls[..j]);
            && o in v.ops && v.ops[o].request == u.ops[o].request
            && Original(v.ops[o].phase) == Lookup(u, u.ops[o].request.at) && Original(v.ops[o].phase).Some?
  {
    ExecInv(w, ls[..i]);
    assert OpInv(Exec(w, ls[..i]), Exec(w, ls[..i]).ops[o]);
    if i < j {
      OriginalIsWhatWasRead(w, ls, i, j - 1, o);
      assert ls[..j][..j - 1] == ls[..j - 1];
      var v := Exec(w, ls[..j - 1]);
      ExecInv(w, ls[..j - 1]);
      if Enabled(v, ls[j - 1]) {
        OriginalStep(v, ls[j - 1], o, Original(v.ops[o].phase).value);
      }
    }
  }

  /** What a transfer that says it decommissioned its source has done, and that one that says
      it did not has left the source alone. */
  lemma DecommissionOutcome(w: World, ls: seq<Label>, o: OpId, raw: Content, verified: bool, decommissioned: bool)
    requires Initial(w) && NoForce(ls)
    requires var v := Exec(w, ls);
             o in v.ops && v.ops[o].request.Transfer?
             && v.ops[o].phase == Releasing(Transferred(raw, verified, decommissioned))
    ensures var v := Exec(w, ls); var q := v.ops[o].request;
            && (!decommissioned ==> Lookup(v, q.at) == Some(raw) && Lookup(v, q.to) == Some(raw))
            && (decommissioned ==>
                  && q.migrate && q.decommission && verified && raw in Backups(v, q.at)
                  && (q.at != q.to ==> Lookup(v, q.to) == Some(raw))
                  && exists r, e ::
                       && raw.reading == Some(r) && Lookup(v, q.at) == Some(e)
                       && e.reading == Some(Reading(r.terraformVersion, Wrap64(r.serial + 1), r.lineage, 0, 0)))
  {
    ExecInv(w, ls);
    assert OpInv(Exec(w, ls), Exec(w, ls).ops[o]);
    if decommissioned {
      assert raw.reading == Some(raw.reading.value);
      assert EmptyState(raw.reading.value).reading.Some?;
    }
  }

  /** The serial of a source decommissioned in any run goes up by one, except at the top of int64,
      where it falls to the bottom. */
  lemma DecommissionBumpsSerial(w: World, ls: seq<Label>, o: OpId, raw: Content, verified: bool)
    requires Initial(w) && NoForce(ls)
    requires var v := Exec(w, ls);
             o in v.ops && v.ops[o].request.Transfer? && v.ops[o].phase == Releasing(Transferred(raw, verified, true))
    requires raw.reading.Some? ==> -0x8000_0000_0000_0000 <= raw.reading.value.serial < 0x8000_0000_0000_0000
    ensures var v := Exec(w, ls); var c := v.ops[o].request.at;
            && raw.reading.Some? && Readable(v, c)
            && SerialOf(v, c) == if raw.reading.value.serial == 0x7fff_ffff_ffff_ffff then -0x8000_0000_0000_0000 else raw.reading.value.serial + 1
  {
    ExecInv(w, ls);
    assert OpInv(Exec(w, ls), Exec(w, ls).ops[o]);
  }

  /** The document that a decommission marshals. */
  function EmptyDocument(a: Reading): Analyzer.State {
    Analyzer.State(4, a.terraformVersion, Wrap64(a.serial + 1), a.lineage, [], [])
  }

  /** The reading that EmptyState carries is what the analyzer makes of that document. */
  lemma EmptyStateReading(a: Reading)
    ensures var n := Analyzer.AnalysisOf(EmptyDocument(a));
            n.Some? && EmptyState(a).reading
                       == Some(Reading(n.value.terraformVersion, n.value.serial, n.value.lineage, n.value.total, n.value.managed))
  {
  }

  // ---------------------------------------------------------------- the two exceptions

  /** Nothing is archived by the step that writes a transfer's target: what was there can be
      recovered afterwards exactly if it could be recovered without that write. */
  lemma TargetIsNotBackedUp(w: World, l: Label, c: Cell, x: Content)
    requires Enabled(w, l) && TargetWrite(w, l, c)
    ensures x in Backups(Next(w, l), c) <==> x in Backups(w, c)
  {
  }

  function Up(n: nat): Content {
    Content(Uploaded(n), Some(Reading("1.9.0", n, "", 0, 0)))
  }

  /** Everything that holds bytes: cells and backups. */
  ghost predicate Present(w: World, x: Content) {
    (exists c :: c in w.cells && w.cells[c] == x) || (exists c :: c in w.backups && x in w.backups[c])
  }

  const FROM := Cell("s", "a")
  const ONTO := Cell("s", "b")
  const COPYING := Transfer(FROM, ONTO, false, false, false)
  const TWO := World(map[FROM := Up(1), ONTO := Up(2)], map[], map[], map[])

  lemma CopyingOrder()
    ensures First(COPYING) == FROM && Second(COPYING) == ONTO && TwoLocks(COPYING)
  {
    assert Less("a", "b");
  }

  /** The transfer has its first lock. */
  lemma TransferPrefix() returns (ls: seq<Label>)
    ensures NoForce(ls)
    ensures Exec(TWO, ls) == TWO.(owner := map[FROM := 0], ops := map[0 := Op(COPYING, Half)])
  {
    CopyingOrder();
    ExecSnoc(TWO, [], Begin(0, COPYING));
    ls := [] + [Begin(0, COPYING)];
    ExecSnoc(TWO, ls, Advance(0, OK));
    ls := ls + [Advance(0, OK)];
  }

  /** ...and both, and has read its source. */
  lemma TransferMiddle() returns (ls: seq<Label>)
    ensures NoForce(ls)
    ensures Exec(TWO, ls) == TWO.(owner := map[FROM := 0, ONTO := 0], ops := map[0 := Op(COPYING, Read(Some(Up(1))))])
  {
    CopyingOrder();
    ls := TransferPrefix();
    ExecSnoc(TWO, ls, Advance(0, OK));
    ls := ls + [Advance(0, OK)];
    assert Exec(TWO, ls) == TWO.(owner := map[FROM := 0, ONTO := 0], ops := map[0 := Op(COPYING, Holding)]);
    ExecSnoc(TWO, ls, Advance(0, OK));
    ls := ls + [Advance(0, OK)];
  }

  /** A run in which a plain backup transfer destroys the target's only copy. */
  lemma TransferCanDestroyItsTarget() returns (w: World, ls: seq<Label>)
    ensures Initial(w) && NoForce(ls)
    ensures Present(w, Up(2)) && !Present(Exec(w, ls), Up(2))
  {
    w := TWO;
    ls := TransferMiddle();
    ExecSnoc(w, ls, Advance(0, OK));
    ls := ls + [Advance(0, OK)];
    assert w.cells[ONTO] == Up(2);
    assert Exec(w, ls).cells == map[FROM := Up(1), ONTO := Up(1)] && Exec(w, ls).backups == map[];
  }

  const SHARED := Cell("s", "a")
  const EDIT_0 := Replace(SHARED, Up(2), false)
  const EDIT_1 := Replace(SHARED, Up(3), false)
  const BEFORE := World(map[SHARED := Up(1)], map[], map[], map[])

  /** TWO raw replaces, the first already past its backup and waiting to write. */
  lemma ForceUnlockPrefix() returns (ls: seq<Label>)
    ensures Exec(BEFORE, ls) == World(map[SHARED := Up(1)], map[SHARED := [Up(1)]], map[SHARED := 0],
                                      map[0 := Op(EDIT_0, Saved(Some(Up(1)), Some(Up(2)))), 1 := Op(EDIT_1, Waiting)])
  {
    var go := Advance(0, OK);
    ExecSnoc(BEFORE, [], Begin(0, EDIT_0));
    ls := [] + [Begin(0, EDIT_0)];
    ExecSnoc(BEFORE, ls, Begin(1, EDIT_1));
    ls := ls + [Begin(1, EDIT_1)];
    ExecSnoc(BEFORE, ls, go);
    ls := ls + [go];
    ExecSnoc(BEFORE, ls, go);
    ls := ls + [go];
    ExecSnoc(BEFORE, ls, go);
    ls := ls + [go];
    assert Backups(BEFORE, SHARED) + [Up(1)] == [Up(1)];
  }

  /** The force-unlock lets the second one in: it reads and saves what the first one read. */
  lemma ForceUnlockMiddle() returns (ls: seq<Label>)
    ensures Exec(BEFORE, ls) == World(map[SHARED := Up(1)], map[SHARED := [Up(1), Up(1)]], map[SHARED := 1],
                                      map[0 := Op(EDIT_0, Saved(Some(Up(1)), Some(Up(2)))),
                                          1 := Op(EDIT_1, Saved(Some(Up(1)), Some(Up(3))))])
  {
    var go := Advance(1, OK);
    ls := ForceUnlockPrefix();
    ExecSnoc(BEFORE, ls, Force(SHARED));
    ls := ls + [Force(SHARED)];
    assert Exec(BEFORE, ls).owner == map[];
    ExecSnoc(BEFORE, ls, go);
    ls := ls + [go];
    ExecSnoc(BEFORE, ls, go);
    ls := ls + [go];
    ExecSnoc(BEFORE, ls, go);
    ls := ls + [go];
    assert [Up(1)] + [Up(1)] == [Up(1), Up(1)];
  }

  /** One force-unlock is enough to lose an accepted write: the second writer saves the content
      it read before the first one's write, and neither saves the first one's data. */
  lemma ForceUnlockCanLoseAnEdit() returns (w: World, ls: seq<Label>, i: nat, c: Cell)
    ensures Initial(w) && i < |ls|
    ensures Lookup(Exec(w, ls[..i]), c) == Some(Up(2)) && !TargetWrite(Exec(w, ls[..i]), ls[i], c)
    ensures !Present(Exec(w, ls), Up(2))
  {
    w, c := BEFORE, SHARED;
    var before := ForceUnlockMiddle();
    ExecSnoc(w, before, Advance(0, OK));
    before := before + [Advance(0, OK)];
    ExecSnoc(w, before, Advance(1, OK));
    ls, i := before + [Advance(1, OK)], |before|;
    assert ls[..i] == before;
    assert Exec(w, ls).cells == map[c := Up(3)] && Exec(w, ls).backups == map[c := [Up(1), Up(1)]];
  }
}
