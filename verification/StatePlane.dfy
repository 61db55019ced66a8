/** The state-file mutation plane as a protocol: any number of raw replaces, rm/mv, deletes,
    restores and cross-source transfers, interleaved one connector or database call at a time.
    Every call may fail, and a failed call changes nothing. An operation that is never
    scheduled again is one whose process crashed at that point. */
module StatePlane {
  import opened Collections

  /** One (source, key) pair. */
  datatype Cell = Cell(source: string, key: string)

  /** What the analyzer reads out of a state file, as far as this plane looks at it. */
  datatype Reading = Reading(terraformVersion: string, serial: int, lineage: string, total: int, managed: int)

  /** Byte strings: uploaded ones are told apart by a name, the one the decommission step
      marshals is determined by the reading it was built from. */
  datatype Bytes = Uploaded(name: nat) | Emptied(of: Reading)

  /** A state file's bytes with the analyzer's verdict on them; None when it rejects them. */
  datatype Content = Content(bytes: Bytes, reading: Option<Reading>)

  datatype Request =
    | Replace(at: Cell, data: Content, force: bool)
    | Operate(at: Cell)                                // rm and mv
    | Delete(at: Cell, purge: bool)
    | Restore(at: Cell, data: Content)
    | Transfer(at: Cell, to: Cell, migrate: bool, decommission: bool, force: bool)

  datatype Outcome =
    | Refused                                          // a lock was taken
    | Failed
    | Conflict                                         // serial or lineage guard
    | Written(data: Content)
    | Deleted
    | TargetFailed(raw: Content)                       // transfer: the target write failed
    | Transferred(raw: Content, verified: bool, decommissioned: bool)

  datatype Phase =
    | Waiting                                          // about to take the first lock
    | Half                                             // holds the first of two locks
    | Holding                                          // holds every lock it needs
    | Read(cur: Option<Content>)
    | Saved(cur: Option<Content>, next: Option<Content>)  // backed up; next None is a delete
    | Erased                                           // object gone, purge pending
    | Copied(raw: Content)                             // migrate: target written
    | Verified(raw: Content)                           // parity holds, source not re-read yet
    | Checked(raw: Content)                            // decommission approved
    | Archived(raw: Content)                           // source backup taken
    | Releasing(outcome: Outcome)                      // effects over, every lock still held
    | Leaving(outcome: Outcome)                        // second lock released
    | Done(outcome: Outcome)

  datatype Op = Op(request: Request, phase: Phase)

  type OpId = nat

  datatype World = World(
    cells: map<Cell, Content>,
    backups: map<Cell, seq<Content>>,
    owner: map<Cell, OpId>,
    ops: map<OpId, Op>)

  /** One scheduling choice: does the call made in this step fail, and what do
      stateops.RemoveResource / MoveResource return when this is the step that calls them. */
  datatype Choice = Choice(fault: bool, result: Content)

  /** A call that succeeds, where rm and mv are not what is called. */
  const OK := Choice(false, Content(Uploaded(0), None))

  datatype Label =
    | Begin(op: OpId, request: Request)
    | Advance(op: OpId, choice: Choice)
    | Force(cell: Cell)                                // admin force-unlock

  // ---------------------------------------------------------------- the code's decisions

  function Wrap64(n: int): int {
    (n + 0x8000_0000_0000_0000) % 0x1_0000_0000_0000_0000 - 0x8000_0000_0000_0000
  }

  function EmptyState(a: Reading): Content {
    Content(Emptied(a), Some(Reading(a.terraformVersion, Wrap64(a.serial + 1), a.lineage, 0, 0)))
  }

  /** EditState's serial and lineage checks against the current content. */
  predicate GuardAllows(cur: Option<Content>, data: Content, force: bool)
    requires data.reading.Some?
  {
    cur.None? || cur.value.reading.None? || force ||
    (var c, n := cur.value.reading.value, data.reading.value;
     && n.serial >= c.serial
     && (c.lineage == "" || n.lineage == "" || c.lineage == n.lineage))
  }

  /** verifyTransfer's comparison. */
  predicate Parity(a: Reading, b: Reading) {
    a.serial == b.serial && a.lineage == b.lineage && a.total == b.total && a.managed == b.managed
  }

  predicate CellLess(a: Cell, b: Cell) {
    Less(a.source, b.source) || (a.source == b.source && Less(a.key, b.key))
  }

  predicate TwoLocks(q: Request) {
    q.Transfer? && q.at != q.to
  }

  /** The lock taken first: of a transfer's two cells the smaller by (source, key). */
  function First(q: Request): Cell {
    if TwoLocks(q) && CellLess(q.to, q.at) then q.to else q.at
  }

  function Second(q: Request): Cell
    requires TwoLocks(q)
  {
    if CellLess(q.to, q.at) then q.at else q.to
  }

  // ---------------------------------------------------------------- steps

  function Lookup(w: World, c: Cell): Option<Content> {
    if c in w.cells then Some(w.cells[c]) else None
  }

  function Backups(w: World, c: Cell): seq<Content> {
    if c in w.backups then w.backups[c] else []
  }

  /** The one call a step makes; a failed call, or a pure decision, is Quiet. */
  datatype Effect =
    | Quiet
    | Take(cell: Cell)
    | Drop(cell: Cell)
    | Put(cell: Cell, data: Content)
    | Remove(cell: Cell)
    | Archive(cell: Cell, data: Content)
    | Purge(cell: Cell)

  datatype Step = Step(effect: Effect, phase: Phase)

  function Acquire(w: World, c: Cell, next: Phase, refused: Phase, fault: bool): Step {
    if c in w.owner || fault then Step(Quiet, refused) else Step(Take(c), next)
  }

  function BackUp(at: Cell, cur: Option<Content>, next: Option<Content>, fault: bool): Step {
    if cur.None? then Step(Quiet, Saved(cur, next))
    else if fault then Step(Quiet, Releasing(Failed))
    else Step(Archive(at, cur.value), Saved(cur, next))
  }

  /** The call after the read: the conflict check, the backup, or a transfer's target write. */
  function AfterRead(q: Request, cur: Option<Content>, ch: Choice): Step {
    match q
    case Transfer(_, to, migrate, _, _) =>
      if cur.None? then Step(Quiet, Releasing(Failed))
      else if ch.fault then Step(Quiet, Releasing(TargetFailed(cur.value)))
      else Step(Put(to, cur.value),
                if migrate then Copied(cur.value) else Releasing(Transferred(cur.value, false, false)))
    case Replace(at, data, force) =>
      if data.reading.Some? && !GuardAllows(cur, data, force) then Step(Quiet, Releasing(Conflict))
      else BackUp(at, cur, Some(data), ch.fault)
    case Restore(at, data) => BackUp(at, cur, Some(data), ch.fault)
    case Operate(at) =>
      if ch.result.reading.None? then Step(Quiet, Releasing(Failed))
      else BackUp(at, cur, Some(ch.result), ch.fault)
    case Delete(at, _) => BackUp(at, cur, None, ch.fault)
  }

  function AfterSave(w: World, q: Request, next: Option<Content>, fault: bool): Step {
    if fault then Step(Quiet, Releasing(Failed))
    else match next
      case Some(x) => Step(Put(q.at, x), Releasing(Written(x)))
      case None =>
        if q.at !in w.cells then Step(Quiet, Releasing(Failed))
        else Step(Remove(q.at), if q.Delete? && q.purge then Erased else Releasing(Deleted))
  }

  predicate VerifyPasses(w: World, to: Cell, raw: Content, fault: bool) {
    && raw.reading.Some? && !fault
    && to in w.cells && w.cells[to].reading.Some?
    && Parity(raw.reading.value, w.cells[to].reading.value)
  }

  /** The re-check before decommissioning: content the analyzer rejects does not block it. */
  predicate RecheckPasses(w: World, from: Cell, raw: Content, fault: bool) {
    && !fault && from in w.cells
    && (w.cells[from].reading.Some? && raw.reading.Some? ==>
          && w.cells[from].reading.value.serial == raw.reading.value.serial
          && w.cells[from].reading.value.lineage == raw.reading.value.lineage)
  }

  function Decide(w: World, op: Op, ch: Choice): Step {
    var q := op.request;
    match op.phase
    case Waiting => Acquire(w, First(q), if TwoLocks(q) then Half else Holding, Done(Refused), ch.fault)
    case Half =>
      if TwoLocks(q) then Acquire(w, Second(q), Holding, Leaving(Refused), ch.fault) else Step(Quiet, Half)
    case Holding =>
      var cur := Lookup(w, q.at);
      Step(Quiet, if ch.fault || (cur.None? && !q.Replace? && !q.Restore?) then Releasing(Failed) else Read(cur))
    case Read(cur) => AfterRead(q, cur, ch)
    case Saved(_, next) => AfterSave(w, q, next, ch.fault)
    case Erased => Step(if ch.fault then Quiet else Purge(q.at), Releasing(Deleted))
    case Copied(raw) =>
      if !q.Transfer? || !VerifyPasses(w, q.to, raw, ch.fault) then Step(Quiet, Releasing(Transferred(raw, false, false)))
      else if !q.decommission then Step(Quiet, Releasing(Transferred(raw, true, false)))
      else Step(Quiet, if q.force then Checked(raw) else Verified(raw))
    case Verified(raw) =>
      Step(Quiet, if RecheckPasses(w, q.at, raw, ch.fault) then Checked(raw) else Releasing(Transferred(raw, true, false)))
    case Checked(raw) =>
      if ch.fault then Step(Quiet, Releasing(Transferred(raw, true, false)))
      else Step(Archive(q.at, raw), Archived(raw))
    case Archived(raw) =>
      if ch.fault || raw.reading.None? then Step(Quiet, Releasing(Transferred(raw, true, false)))
      else Step(Put(q.at, EmptyState(raw.reading.value)), Releasing(Transferred(raw, true, true)))
    case Releasing(outcome) =>
      if TwoLocks(q) then Step(Drop(Second(q)), Leaving(outcome)) else Step(Drop(First(q)), Done(outcome))
    case Leaving(outcome) => Step(Drop(First(q)), Done(outcome))
    case Done(outcome) => Step(Quiet, Done(outcome))
  }

  /** Release deletes the lock row only under the caller's own lock id. */
  function Effected(w: World, o: OpId, e: Effect): World {
    match e
    case Quiet => w
    case Take(c) => w.(owner := w.owner[c := o])
    case Drop(c) => if c in w.owner && w.owner[c] == o then w.(owner := w.owner - {c}) else w
    case Put(c, x) => w.(cells := w.cells[c := x])
    case Remove(c) => w.(cells := w.cells - {c})
    case Archive(c, x) => w.(backups := w.backups[c := Backups(w, c) + [x]])
    case Purge(c) => w.(backups := w.backups[c := []])
  }

  function Apply(w: World, o: OpId, s: Step): World
    requires o in w.ops
  {
    Effected(w, o, s.effect).(ops := w.ops[o := Op(w.ops[o].request, s.phase)])
  }

  /** An upload is analyzed, and a backup loaded, before the handler takes its lock. */
  predicate Enabled(w: World, l: Label) {
    match l
    case Begin(o, q) =>
      && o !in w.ops
      && (q.Replace? ==> q.data.reading.Some?)
      && (q.Restore? ==> q.data in Backups(w, q.at))
    case Advance(o, _) => o in w.ops
    case Force(_) => true
  }

  function Next(w: World, l: Label): World
    requires Enabled(w, l)
  {
    match l
    case Begin(o, q) => w.(ops := w.ops[o := Op(q, Waiting)])
    case Advance(o, ch) => Apply(w, o, Decide(w, w.ops[o], ch))
    case Force(c) => w.(owner := w.owner - {c})
  }

  // ---------------------------------------------------------------- runs

  /** The world after the whole of ls; a label that is not enabled is skipped. */
  function Exec(w: World, ls: seq<Label>): World {
    if ls == [] then w
    else
      var v := Exec(w, ls[..|ls| - 1]);
      if Enabled(v, ls[|ls| - 1]) then Next(v, ls[|ls| - 1]) else v
  }

  predicate Initial(w: World) {
    w.backups == map[] && w.owner == map[] && w.ops == map[]
  }

  predicate NoForce(ls: seq<Label>) {
    forall i :: 0 <= i < |ls| ==> !ls[i].Force?
  }

  // ---------------------------------------------------------------- invariant

  function Held(op: Op): set<Cell> {
    match op.phase
    case Waiting | Done(_) => {}
    case Half | Leaving(_) => {First(op.request)}
    case _ => if TwoLocks(op.request) then {First(op.request), Second(op.request)} else {First(op.request)}
  }

  ghost function HeldBy(w: World): map<OpId, set<Cell>> {
    map o | o in w.ops :: Held(w.ops[o])
  }

  /** The lock table says exactly who holds what: mutual exclusion. */
  ghost predicate LocksAgree(owner: map<Cell, OpId>, held: map<OpId, set<Cell>>) {
    && (forall c :: c in owner ==> owner[c] in held && c in held[owner[c]])
    && (forall o, c :: o in held && c in held[o] ==> c in owner && owner[c] == o)
  }

  predicate PhaseFits(op: Op) {
    op.phase.Half? || op.phase.Leaving? ==> TwoLocks(op.request)
  }

  /** What one operation knows about the cells it holds. */
  ghost predicate OpInv(w: World, op: Op) {
    var q := op.request;
    && PhaseFits(op)
    && (q.Replace? ==> q.data.reading.Some?)
    && match op.phase
       case Read(cur) =>
         && cur == Lookup(w, q.at)
         && (cur.None? ==> q.Replace? || q.Restore?)
       case Saved(cur, next) =>
         && !q.Transfer?
         && cur == Lookup(w, q.at)
         && (cur.Some? ==> cur.value in Backups(w, q.at))
         && (next.None? <==> q.Delete?)
         && (q.Replace? || q.Restore? ==> next == Some(q.data))
         && (q.Replace? ==> GuardAllows(cur, q.data, q.force))
       case Erased => q.Delete? && q.purge && Lookup(w, q.at) == None
       case Copied(raw) => Conserved(w, q, raw)
       case Verified(raw) => Conserved(w, q, raw) && raw.reading.Some? && q.decommission
       case Checked(raw) => Conserved(w, q, raw) && raw.reading.Some? && q.decommission
       case Archived(raw) =>
         Conserved(w, q, raw) && raw.reading.Some? && raw in Backups(w, q.at) && q.decommission
       case Releasing(Written(x)) =>
         && !q.Transfer? && Lookup(w, q.at) == Some(x)
         && (q.Replace? || q.Restore? ==> x == q.data)
       case Releasing(Deleted) => q.Delete? && Lookup(w, q.at) == None
       case Releasing(TargetFailed(raw)) => q.Transfer? && Lookup(w, q.at) == Some(raw)
       case Releasing(Transferred(raw, verified, true)) =>
         && q.Transfer? && q.migrate && q.decommission && verified && raw.reading.Some?
         && Lookup(w, q.at) == Some(EmptyState(raw.reading.value))
         && raw in Backups(w, q.at)
         && (q.at != q.to ==> Lookup(w, q.to) == Some(raw))
       case Releasing(Transferred(raw, verified, false)) =>
         q.Transfer? && Lookup(w, q.at) == Some(raw) && Lookup(w, q.to) == Some(raw)
       case _ => true
  }

  /** Between the target write and the end of the decommission both cells hold what was read. */
  ghost predicate Conserved(w: World, q: Request, raw: Content) {
    q.Transfer? && q.migrate && Lookup(w, q.at) == Some(raw) && Lookup(w, q.to) == Some(raw)
  }

  ghost predicate Inv(w: World) {
    LocksAgree(w.owner, HeldBy(w)) && forall o :: o in w.ops ==> OpInv(w, w.ops[o])
  }

  // ---------------------------------------------------------------- preservation

  lemma CellOrder(q: Request)
    requires TwoLocks(q)
    ensures First(q) != Second(q) && {First(q), Second(q)} == {q.at, q.to}
  {
  }

  /** The cell an effect writes to is locked by its operation, which locks nothing else. */
  ghost predicate Fits(w: World, op: Op, s: Step) {
    var after := Held(Op(op.request, s.phase));
    match s.effect
    case Quiet => after == Held(op)
    case Take(c) => c !in w.owner && after == Held(op) + {c}
    case Drop(c) => c in Held(op) && after == Held(op) - {c}
    case Put(c, _) => c in Held(op) && after == Held(op)
    case Remove(c) => c in Held(op) && after == Held(op)
    case Archive(c, _) => c in Held(op) && after == Held(op)
    case Purge(c) => c in Held(op) && after == Held(op)
  }

  predicate BeforeTarget(p: Phase) {
    p.Waiting? || p.Half? || p.Holding? || p.Read?
  }

  lemma EarlyFits(w: World, op: Op, ch: Choice)
    requires OpInv(w, op) && BeforeTarget(op.phase)
    ensures Fits(w, op, Decide(w, op, ch))
  {
    if TwoLocks(op.request) { CellOrder(op.request); }
  }

  lemma LateFits(w: World, op: Op, ch: Choice)
    requires OpInv(w, op) && !BeforeTarget(op.phase)
    ensures Fits(w, op, Decide(w, op, ch))
  {
    if TwoLocks(op.request) { CellOrder(op.request); }
  }

  lemma DecideFits(w: World, op: Op, ch: Choice)
    requires OpInv(w, op)
    ensures Fits(w, op, Decide(w, op, ch))
  {
    if BeforeTarget(op.phase) { EarlyFits(w, op, ch); } else { LateFits(w, op, ch); }
  }

  /** What the operation knows is still so after its own step. */
  ghost predicate Keeps(w: World, o: OpId, ch: Choice)
    requires o in w.ops
  {
    var s := Decide(w, w.ops[o], ch);
    OpInv(Effected(w, o, s.effect), Op(w.ops[o].request, s.phase))
  }

  predicate AfterTarget(p: Phase) {
    p.Copied? || p.Verified? || p.Checked? || p.Archived?
  }

  lemma EarlyKeeps(w: World, o: OpId, ch: Choice)
    requires o in w.ops && OpInv(w, w.ops[o]) && BeforeTarget(w.ops[o].phase)
    ensures Keeps(w, o, ch)
  {
  }

  lemma TransferKeeps(w: World, o: OpId, ch: Choice)
    requires o in w.ops && OpInv(w, w.ops[o]) && AfterTarget(w.ops[o].phase)
    ensures Keeps(w, o, ch)
  {
  }

  lemma LateKeeps(w: World, o: OpId, ch: Choice)
    requires o in w.ops && OpInv(w, w.ops[o]) && !BeforeTarget(w.ops[o].phase) && !AfterTarget(w.ops[o].phase)
    ensures Keeps(w, o, ch)
  {
  }

  lemma DecideKeeps(w: World, o: OpId, ch: Choice)
    requires o in w.ops && OpInv(w, w.ops[o])
    ensures Keeps(w, o, ch)
  {
    if BeforeTarget(w.ops[o].phase) {
      EarlyKeeps(w, o, ch);
    } else if AfterTarget(w.ops[o].phase) {
      TransferKeeps(w, o, ch);
    } else {
      LateKeeps(w, o, ch);
    }
  }

  lemma OpInvFrame(w: World, v: World, op: Op)
    requires OpInv(w, op)
    requires forall c :: c in Held(op) ==> Lookup(v, c) == Lookup(w, c) && Backups(v, c) == Backups(w, c)
    ensures OpInv(v, op)
  {
    var q := op.request;
    if TwoLocks(q) { CellOrder(q); }
    if !op.phase.Waiting? && !op.phase.Done? && !op.phase.Half? && !op.phase.Leaving? {
      assert q.at in Held(op);
      assert q.Transfer? ==> q.to in Held(op);
    }
  }

  /** Steps of an operation leave alone every cell it does not hold. */
  lemma EffectFrame(w: World, o: OpId, s: Step, c: Cell)
    requires o in w.ops && Fits(w, w.ops[o], s) && c !in Held(w.ops[o])
    ensures Lookup(Effected(w, o, s.effect), c) == Lookup(w, c)
    ensures Backups(Effected(w, o, s.effect), c) == Backups(w, c)
  {
  }

  lemma LocksStep(owner: map<Cell, OpId>, held: map<OpId, set<Cell>>, o: OpId, c: Cell)
    requires LocksAgree(owner, held) && o in held
    ensures c !in owner ==> LocksAgree(owner[c := o], held[o := held[o] + {c}])
    ensures c in held[o] ==> LocksAgree(owner - {c}, held[o := held[o] - {c}])
  {
  }

  lemma ApplyLocks(w: World, o: OpId, s: Step)
    requires LocksAgree(w.owner, HeldBy(w)) && o in w.ops && Fits(w, w.ops[o], s)
    ensures LocksAgree(Apply(w, o, s).owner, HeldBy(Apply(w, o, s)))
  {
    var held, after := HeldBy(w), Held(Op(w.ops[o].request, s.phase));
    assert HeldBy(Apply(w, o, s)) == held[o := after];
    match s.effect
    case Take(c) => LocksStep(w.owner, held, o, c);
    case Drop(c) => LocksStep(w.owner, held, o, c);
    case _ => assert held[o := after] == held;
  }

  lemma ApplyKeepsOther(w: World, o: OpId, s: Step, p: OpId)
    requires o in w.ops && Fits(w, w.ops[o], s)
    requires p in w.ops && p != o && OpInv(w, w.ops[p])
    requires forall c :: c in Held(w.ops[p]) ==> c !in Held(w.ops[o])
    ensures OpInv(Apply(w, o, s), w.ops[p])
  {
    var v := Apply(w, o, s);
    forall c | c in Held(w.ops[p]) ensures Lookup(v, c) == Lookup(w, c) && Backups(v, c) == Backups(w, c) {
      EffectFrame(w, o, s, c);
    }
    OpInvFrame(w, v, w.ops[p]);
  }

  lemma BeginInv(w: World, o: OpId, q: Request)
    requires Inv(w) && Enabled(w, Begin(o, q))
    ensures Inv(Next(w, Begin(o, q)))
  {
    var v := Next(w, Begin(o, q));
    assert HeldBy(v) == HeldBy(w)[o := {}];
    forall p | p in v.ops ensures OpInv(v, v.ops[p]) {
      if p != o { OpInvFrame(w, v, w.ops[p]); }
    }
  }

  lemma AdvanceInv(w: World, o: OpId, ch: Choice)
    requires Inv(w) && o in w.ops
    ensures Inv(Next(w, Advance(o, ch)))
  {
    var s := Decide(w, w.ops[o], ch);
    var v := Apply(w, o, s);
    DecideFits(w, w.ops[o], ch);
    ApplyLocks(w, o, s);
    forall p | p in v.ops ensures OpInv(v, v.ops[p]) {
      if p == o {
        DecideKeeps(w, o, ch);
        OpInvFrame(Effected(w, o, s.effect), v, v.ops[o]);
      } else {
        HoldersDisjoint(w, o, p);
        ApplyKeepsOther(w, o, s, p);
      }
    }
  }

  lemma HoldersDisjoint(w: World, o: OpId, p: OpId)
    requires LocksAgree(w.owner, HeldBy(w)) && o in w.ops && p in w.ops && o != p
    ensures forall c :: c in Held(w.ops[p]) ==> c !in Held(w.ops[o])
  {
    var held := HeldBy(w);
    assert held[o] == Held(w.ops[o]) && held[p] == Held(w.ops[p]);
    forall c | c in Held(w.ops[p]) ensures c !in Held(w.ops[o]) { assert w.owner[c] == p; }
  }

  lemma {:induction false} ExecInv(w: World, ls: seq<Label>)
    requires Initial(w) && NoForce(ls)
    ensures Inv(Exec(w, ls))
  {
    if ls != [] {
      var v, l := Exec(w, ls[..|ls| - 1]), ls[|ls| - 1];
      ExecInv(w, ls[..|ls| - 1]);
      if Enabled(v, l) {
        match l
        case Begin(o, q) => BeginInv(v, o, q);
        case Advance(o, ch) => AdvanceInv(v, o, ch);
      }
    }
  }
}
