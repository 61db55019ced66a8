/** What single edits of the mutation plane promise: what a raw replace or a restore does when it
    runs alone, what a restore has done when it reports success among any others, and what the
    serial and lineage guard is worth over a whole run. */
module StateEdits {
  import opened Collections
  import opened StatePlane
  import opened StateSafety

  // ---------------------------------------------------------------- one edit left alone

  /** A restore or a raw replace left alone, with no call failing. */
  function EditScript(o: OpId, q: Request): seq<Label> {
    [Begin(o, q), Advance(o, OK), Advance(o, OK), Advance(o, OK), Advance(o, OK), Advance(o, OK)]
  }

  predicate IsEdit(q: Request) {
    (q.Replace? && q.data.reading.Some?) || q.Restore?
  }

  predicate Passes(w: World, q: Request)
    requires IsEdit(q)
  {
    q.Replace? ==> GuardAllows(Lookup(w, q.at), q.data, q.force)
  }

  /** The world with edit q at phase p. */
  function Editing(w: World, o: OpId, q: Request, p: Phase): World
    requires IsEdit(q)
  {
    var c := q.at;
    var saved := if c in w.cells && (p.Saved? || p.Releasing? || p.Done?)
                 then w.backups[c := Backups(w, c) + [w.cells[c]]] else w.backups;
    World(if p.Releasing? || p.Done? then w.cells[c := q.data] else w.cells,
          saved,
          if p.Waiting? || p.Done? then w.owner else w.owner[c := o],
          w.ops[o := Op(q, p)])
  }

  /** The phases of an edit in their order. */
  predicate EditOrder(cur: Option<Content>, x: Content, p: Phase, n: Phase) {
    || (p == Waiting && n == Holding) || (p == Holding && n == Read(cur))
    || (p == Read(cur) && n == Saved(cur, Some(x))) || (p == Saved(cur, Some(x)) && n == Releasing(Written(x)))
    || (p == Releasing(Written(x)) && n == Done(Written(x)))
  }

  function EditEffect(cur: Option<Content>, q: Request, p: Phase): Effect
    requires IsEdit(q)
  {
    if p == Waiting then Take(q.at) else if p.Read? && cur.Some? then Archive(q.at, cur.value)
    else if p.Saved? then Put(q.at, q.data) else if p.Releasing? then Drop(q.at) else Quiet
  }

  lemma EditDecides(w: World, o: OpId, q: Request, p: Phase, n: Phase)
    requires IsEdit(q) && Passes(w, q) && q.at !in w.owner && EditOrder(Lookup(w, q.at), q.data, p, n)
    ensures Decide(Editing(w, o, q, p), Op(q, p), OK) == Step(EditEffect(Lookup(w, q.at), q, p), n)
  {
    assert First(q) == q.at;
  }

  lemma EditEffects(w: World, o: OpId, q: Request, p: Phase, n: Phase)
    requires IsEdit(q) && q.at !in w.owner && EditOrder(Lookup(w, q.at), q.data, p, n)
    ensures Apply(Editing(w, o, q, p), o, Step(EditEffect(Lookup(w, q.at), q, p), n)) == Editing(w, o, q, n)
  {
    var u, v := Editing(w, o, q, p), Editing(w, o, q, n);
    assert v.ops == u.ops[o := Op(q, n)];
    if p.Releasing? { assert u.owner - {q.at} == w.owner; }
  }

  lemma EditSnoc(w: World, ls: seq<Label>, o: OpId, q: Request, p: Phase, n: Phase)
    requires IsEdit(q) && Passes(w, q) && q.at !in w.owner && EditOrder(Lookup(w, q.at), q.data, p, n)
    requires Exec(w, ls) == Editing(w, o, q, p)
    ensures Exec(w, ls + [Advance(o, OK)]) == Editing(w, o, q, n)
  {
    ExecSnoc(w, ls, Advance(o, OK));
    EditDecides(w, o, q, p, n);
    EditEffects(w, o, q, p, n);
  }

  lemma EditReads(w: World, o: OpId, q: Request)
    requires IsEdit(q) && Passes(w, q) && q.at !in w.owner && Enabled(w, Begin(o, q))
    ensures Exec(w, EditScript(o, q)[..4]) == Editing(w, o, q, Saved(Lookup(w, q.at), Some(q.data)))
  {
    var s, a, cur := EditScript(o, q), Advance(o, OK), Lookup(w, q.at);
    assert s[..0] == [] && s[..1] == s[..0] + [s[0]] && s[..2] == s[..1] + [a] && s[..3] == s[..2] + [a] && s[..4] == s[..3] + [a];
    ExecSnoc(w, s[..0], s[0]);
    EditSnoc(w, s[..1], o, q, Waiting, Holding);
    EditSnoc(w, s[..2], o, q, Holding, Read(cur));
    EditSnoc(w, s[..3], o, q, Read(cur), Saved(cur, Some(q.data)));
  }

  /** An edit that passes its guard puts its bytes, saves what they replace, and changes nothing
      else. */
  lemma EditRuns(w: World, o: OpId, q: Request)
    requires IsEdit(q) && Passes(w, q) && q.at !in w.owner && Enabled(w, Begin(o, q))
    ensures Exec(w, EditScript(o, q)) ==
            w.(cells := w.cells[q.at := q.data],
               backups := if q.at in w.cells then w.backups[q.at := Backups(w, q.at) + [w.cells[q.at]]] else w.backups,
               ops := w.ops[o := Op(q, Done(Written(q.data)))])
  {
    var s, a, cur := EditScript(o, q), Advance(o, OK), Lookup(w, q.at);
    assert s[..5] == s[..4] + [a] && s == s[..5] + [a];
    EditReads(w, o, q);
    EditSnoc(w, s[..4], o, q, Saved(cur, Some(q.data)), Releasing(Written(q.data)));
    EditSnoc(w, s[..5], o, q, Releasing(Written(q.data)), Done(Written(q.data)));
  }

  /** Any backup can be put back, byte for byte; what it replaces becomes a backup itself, and
      nothing else changes. */
  lemma RestoreUndoes(w: World, o: OpId, c: Cell, x: Content)
    requires o !in w.ops && c !in w.owner && x in Backups(w, c)
    ensures Exec(w, EditScript(o, Restore(c, x))) ==
            w.(cells := w.cells[c := x],
               backups := if c in w.cells then w.backups[c := Backups(w, c) + [w.cells[c]]] else w.backups,
               ops := w.ops[o := Op(Restore(c, x), Done(Written(x)))])
  {
    EditRuns(w, o, Restore(c, x));
  }

  // ---------------------------------------------------------------- a restore among others

  predicate HasWritten(p: Phase, y: Content) {
    p == Releasing(Written(y)) || p == Done(Written(y))
  }

  /** Step i is the one at which restore o puts x over c. */
  ghost predicate RestoredAt(w: World, ls: seq<Label>, i: nat, o: OpId, c: Cell, x: Content) {
    && i < |ls| && ls[i].Advance? && ls[i].op == o
    && Lookup(Exec(w, ls[..i + 1]), c) == Some(x)
    && (forall z :: Lookup(Exec(w, ls[..i]), c) == Some(z) ==> z in Backups(Exec(w, ls[..i]), c))
  }

  lemma WritingStep(v: World, l: Label, o: OpId, c: Cell, x: Content, y: Content)
    requires Inv(v) && Enabled(v, l) && !l.Force? && o in Next(v, l).ops
    requires Next(v, l).ops[o].request == Restore(c, x) && HasWritten(Next(v, l).ops[o].phase, y)
    ensures o in v.ops && v.ops[o].request == Restore(c, x)
    ensures HasWritten(v.ops[o].phase, y)
         || (y == x && l.Advance? && l.op == o && Lookup(Next(v, l), c) == Some(x)
             && forall z :: Lookup(v, c) == Some(z) ==> z in Backups(v, c))
  {
    assert OpInv(v, v.ops[o]);
  }

  /** In any interleaving without a force-unlock, a restore that reports success has put back
      exactly the chosen bytes, at a step at which what it replaced was already backed up. */
  lemma {:induction false} RestoreAmongOthers(w: World, ls: seq<Label>, j: nat, o: OpId, c: Cell, x: Content, y: Content)
    requires Initial(w) && NoForce(ls) && j <= |ls|
    requires var v := Exec(w, ls[..j]); o in v.ops && v.ops[o].request == Restore(c, x) && HasWritten(v.ops[o].phase, y)
    ensures y == x && exists i :: 0 <= i < j && RestoredAt(w, ls, i, o, c, x)
  {
    assert ls[..0] == [];
    if j > 0 {
      var v := Exec(w, ls[..j - 1]);
      LastStep(w, ls, j);
      ExecInv(w, ls[..j - 1]);
      if Enabled(v, ls[j - 1]) {
        WritingStep(v, ls[j - 1], o, c, x, y);
      }
      if o in v.ops && v.ops[o].request == Restore(c, x) && HasWritten(v.ops[o].phase, y) {
        RestoreAmongOthers(w, ls, j - 1, o, c, x, y);
      } else {
        assert RestoredAt(w, ls, j - 1, o, c, x);
      }
    }
  }

  /** ...and what it replaced can be restored in turn from then on, until a purge. */
  lemma ReplacedStaysRestorable(w: World, ls: seq<Label>, i: nat, k: nat, o: OpId, c: Cell, x: Content, z: Content)
    requires Initial(w) && NoForce(ls) && RestoredAt(w, ls, i, o, c, x) && i <= k <= |ls|
    requires Lookup(Exec(w, ls[..i]), c) == Some(z)
    ensures z in Backups(Exec(w, ls[..k]), c) || exists m :: i <= m < k && PurgesAt(Exec(w, ls[..m]), ls[m], c)
  {
    SavedUntilPurged(w, ls, i, k, c, z);
  }

  // ---------------------------------------------------------------- the write guard

  /** A step that writes c, if it does, as an unforced raw replace, and does not remove it. */
  predicate Guarded(w: World, l: Label, c: Cell) {
    l.Advance? && l.op in w.ops ==>
      var op := w.ops[l.op];
      var e := Decide(w, op, l.choice).effect;
      e != Remove(c) && (e.Put? && e.cell == c ==> op.request.Replace? && !op.request.force)
  }

  lemma GuardedStep(w: World, l: Label, c: Cell)
    requires Inv(w) && Enabled(w, l) && !l.Force? && Readable(w, c) && Guarded(w, l, c)
    ensures var v := Next(w, l);
            && Readable(v, c) && SerialOf(v, c) >= SerialOf(w, c)
            && (LineageOf(w, c) == "" || LineageOf(v, c) == "" || LineageOf(v, c) == LineageOf(w, c))
  {
    if l.Advance? {
      assert OpInv(w, w.ops[l.op]);
    }
  }

  ghost predicate GuardedBetween(w: World, ls: seq<Label>, i: nat, j: nat, c: Cell)
    requires i <= j <= |ls|
  {
    forall k :: i <= k < j ==> Guarded(Exec(w, ls[..k]), ls[k], c)
  }

  /** In any interleaving in which a readable file is written only by unforced raw replaces (any
      number of them, by anybody, with anything happening elsewhere), its serial never falls. */
  lemma {:induction false} UnforcedWritesRegressNothing(w: World, ls: seq<Label>, i: nat, j: nat, c: Cell)
    requires Initial(w) && NoForce(ls) && i <= j <= |ls| && Readable(Exec(w, ls[..i]), c) && GuardedBetween(w, ls, i, j, c)
    ensures Readable(Exec(w, ls[..j]), c) && SerialOf(Exec(w, ls[..j]), c) >= SerialOf(Exec(w, ls[..i]), c)
  {
    if i < j {
      UnforcedWritesRegressNothing(w, ls, i, j - 1, c);
      LastStep(w, ls, j);
      ExecInv(w, ls[..j - 1]);
      if Enabled(Exec(w, ls[..j - 1]), ls[j - 1]) {
        GuardedStep(Exec(w, ls[..j - 1]), ls[j - 1], c);
      }
    }
  }

  ghost predicate LineageKnown(w: World, ls: seq<Label>, k: nat, c: Cell)
    requires k <= |ls|
  {
    Readable(Exec(w, ls[..k]), c) ==> LineageOf(Exec(w, ls[..k]), c) != ""
  }

  /** ...and its lineage stays what it is as long as it is never empty. */
  lemma {:induction false} LineageIsFixed(w: World, ls: seq<Label>, i: nat, j: nat, c: Cell)
    requires Initial(w) && NoForce(ls) && i <= j <= |ls| && Readable(Exec(w, ls[..i]), c) && GuardedBetween(w, ls, i, j, c)
    requires forall k :: i <= k <= j ==> LineageKnown(w, ls, k, c)
    ensures Readable(Exec(w, ls[..j]), c) && LineageOf(Exec(w, ls[..j]), c) == LineageOf(Exec(w, ls[..i]), c)
  {
    if i < j {
      LineageIsFixed(w, ls, i, j - 1, c);
      LastStep(w, ls, j);
      ExecInv(w, ls[..j - 1]);
      assert LineageKnown(w, ls, j - 1, c) && LineageKnown(w, ls, j, c);
      if Enabled(Exec(w, ls[..j - 1]), ls[j - 1]) {
        GuardedStep(Exec(w, ls[..j - 1]), ls[j - 1], c);
      }
    }
  }

  /** The world with a replace that its guard refuses at phase p. */
  function Refusing(w: World, o: OpId, q: Request, p: Phase): World {
    w.(owner := if p.Waiting? || p.Done? then w.owner else w.owner[q.at := o], ops := w.ops[o := Op(q, p)])
  }

  predicate RefusalOrder(cur: Option<Content>, p: Phase, n: Phase) {
    || (p == Waiting && n == Holding) || (p == Holding && n == Read(cur)) || (p == Read(cur) && n == Releasing(Conflict))
    || (p == Releasing(Conflict) && n == Done(Conflict)) || (p == Done(Conflict) && n == Done(Conflict))
  }

  function RefusalEffect(q: Request, p: Phase): Effect {
    if p == Waiting then Take(q.at) else if p.Releasing? then Drop(q.at) else Quiet
  }

  lemma RefusalDecides(w: World, o: OpId, q: Request, p: Phase, n: Phase)
    requires q.Replace? && IsEdit(q) && !Passes(w, q) && q.at !in w.owner && RefusalOrder(Lookup(w, q.at), p, n)
    ensures Decide(Refusing(w, o, q, p), Op(q, p), OK) == Step(RefusalEffect(q, p), n)
  {
    assert First(q) == q.at;
  }

  lemma RefusalEffects(w: World, o: OpId, q: Request, p: Phase, n: Phase)
    requires q.at !in w.owner && RefusalOrder(Lookup(w, q.at), p, n)
    ensures Apply(Refusing(w, o, q, p), o, Step(RefusalEffect(q, p), n)) == Refusing(w, o, q, n)
  {
    var u := Refusing(w, o, q, p);
    assert Refusing(w, o, q, n).ops == u.ops[o := Op(q, n)];
    if p.Releasing? { assert u.owner - {q.at} == w.owner; }
  }

  lemma RefusalSnoc(w: World, ls: seq<Label>, o: OpId, q: Request, p: Phase, n: Phase)
    requires q.Replace? && IsEdit(q) && !Passes(w, q) && q.at !in w.owner && RefusalOrder(Lookup(w, q.at), p, n)
    requires Exec(w, ls) == Refusing(w, o, q, p)
    ensures Exec(w, ls + [Advance(o, OK)]) == Refusing(w, o, q, n)
  {
    ExecSnoc(w, ls, Advance(o, OK));
    RefusalDecides(w, o, q, p, n);
    RefusalEffects(w, o, q, p, n);
  }

  /** A replace that its guard refuses changes nothing. */
  lemma RefusalRuns(w: World, o: OpId, q: Request)
    requires q.Replace? && IsEdit(q) && !Passes(w, q) && q.at !in w.owner && o !in w.ops
    ensures Exec(w, EditScript(o, q)) == w.(ops := w.ops[o := Op(q, Done(Conflict))])
  {
    var s, a, cur := EditScript(o, q), Advance(o, OK), Lookup(w, q.at);
    assert s[..0] == [] && s[..1] == s[..0] + [s[0]] && s[..2] == s[..1] + [a] && s[..3] == s[..2] + [a];
    assert s[..4] == s[..3] + [a] && s[..5] == s[..4] + [a] && s == s[..5] + [a];
    ExecSnoc(w, s[..0], s[0]);
    RefusalSnoc(w, s[..1], o, q, Waiting, Holding);
    RefusalSnoc(w, s[..2], o, q, Holding, Read(cur));
    RefusalSnoc(w, s[..3], o, q, Read(cur), Releasing(Conflict));
    RefusalSnoc(w, s[..4], o, q, Releasing(Conflict), Done(Conflict));
    RefusalSnoc(w, s[..5], o, q, Done(Conflict), Done(Conflict));
  }

  lemma {:induction false} ExecConcat(w: World, s: seq<Label>, t: seq<Label>)
    ensures Exec(w, s + t) == Exec(Exec(w, s), t)
  {
    if t == [] {
      assert s + t == s;
    } else {
      ExecConcat(w, s, t[..|t| - 1]);
      assert (s + t)[..|s + t| - 1] == s + t[..|t| - 1];
    }
  }

  /** Two unforced raw replaces of c, one after the other, both accepted. */
  ghost predicate TwoWrites(w: World, o: OpId, p: OpId, c: Cell, m: Content, b: Content) {
    var v := Exec(w, EditScript(o, Replace(c, m, false)) + EditScript(p, Replace(c, b, false)));
    o in v.ops && p in v.ops && v.ops[o].phase == Done(Written(m)) && v.ops[p].phase == Done(Written(b)) && Lookup(v, c) == Some(b)
  }

  /** A replace left alone, either way. */
  lemma ReplaceOutcome(w: World, o: OpId, q: Request)
    requires q.Replace? && IsEdit(q) && q.at !in w.owner && o !in w.ops
    ensures var v := Exec(w, EditScript(o, q));
            && v.owner == w.owner && v.ops == w.ops[o := Op(q, Done(if Passes(w, q) then Written(q.data) else Conflict))]
            && Lookup(v, q.at) == if Passes(w, q) then Some(q.data) else Lookup(w, q.at)
  {
    if Passes(w, q) { EditRuns(w, o, q); } else { RefusalRuns(w, o, q); }
  }

  lemma TwoWritesPass(w: World, o: OpId, p: OpId, c: Cell, m: Content, b: Content)
    requires o !in w.ops && p !in w.ops && o != p && c !in w.owner && Readable(w, c) && m.reading.Some? && b.reading.Some?
    ensures TwoWrites(w, o, p, c, m, b) <==> GuardAllows(Some(w.cells[c]), m, false) && GuardAllows(Some(m), b, false)
  {
    var q, r := Replace(c, m, false), Replace(c, b, false);
    ExecConcat(w, EditScript(o, q), EditScript(p, r));
    ReplaceOutcome(w, o, q);
    ReplaceOutcome(Exec(w, EditScript(o, q)), p, r);
  }

  /** An empty lineage in between is a way around the lineage check: from any world, two accepted
      unforced replaces lead from the file there to another, whatever their lineages, exactly when
      the serial does not fall. */
  lemma LineageChangesInTwoWrites(w: World, o: OpId, p: OpId, c: Cell, b: Content)
    requires o !in w.ops && p !in w.ops && o != p && c !in w.owner && Readable(w, c) && b.reading.Some?
    ensures (exists m: Content :: m.reading.Some? && TwoWrites(w, o, p, c, m, b)) <==> SerialOf(w, c) <= b.reading.value.serial
  {
    var bridge := Content(Uploaded(0), Some(Reading("", SerialOf(w, c), "", 0, 0)));
    TwoWritesPass(w, o, p, c, bridge, b);
    forall m: Content | m.reading.Some? && TwoWrites(w, o, p, c, m, b) ensures SerialOf(w, c) <= b.reading.value.serial {
      TwoWritesPass(w, o, p, c, m, b);
    }
    if SerialOf(w, c) <= b.reading.value.serial {
      assert TwoWrites(w, o, p, c, bridge, b);
    }
  }
}
