/** Lock discipline of the mutation plane. The handlers never wait for a lock, they answer 409;
    the ordering of a transfer's two locks is there for locks that block. Here an operation
    whose next lock is taken simply cannot step, and every reachable world still makes progress. */
module LockProgress {
  import opened Collections
  import opened StatePlane

  predicate Finished(op: Op) {
    op.phase.Done?
  }

  /** The lock an operation is about to take. */
  function Wants(op: Op): Option<Cell> {
    match op.phase
    case Waiting => Some(First(op.request))
    case Half => if TwoLocks(op.request) then Some(Second(op.request)) else None
    case _ => None
  }

  predicate Blocked(w: World, o: OpId)
    requires o in w.ops
  {
    Wants(w.ops[o]).Some? && Wants(w.ops[o]).value in w.owner
  }

  lemma CellLessTotal(a: Cell, b: Cell)
    ensures a == b || CellLess(a, b) || CellLess(b, a)
  {
    LessTotal(a.source, b.source);
    LessTotal(a.key, b.key);
  }

  lemma CellLessTransitive(a: Cell, b: Cell, c: Cell)
    requires CellLess(a, b) && CellLess(b, c)
    ensures CellLess(a, c)
  {
    LessIsStrictOrder();
  }

  lemma CellLessIrreflexive(a: Cell)
    ensures !CellLess(a, a)
  {
    LessIrreflexive(a.source);
    LessIrreflexive(a.key);
  }

  /** A transfer always takes the smaller of its two cells first. */
  lemma FirstBelowSecond(q: Request)
    requires TwoLocks(q)
    ensures CellLess(First(q), Second(q))
    ensures {First(q), Second(q)} == {q.at, q.to}
    ensures Less(First(q).source, Second(q).source) || (First(q).source == Second(q).source && Less(First(q).key, Second(q).key))
  {
    CellLessTotal(q.at, q.to);
  }

  /** Among waiting operations there is one that no other waits above. */
  lemma {:induction false} HighestWaiter(ops: map<OpId, Op>, waiters: set<OpId>) returns (o: OpId)
    requires waiters != {} && waiters <= ops.Keys && forall p :: p in waiters ==> Wants(ops[p]).Some?
    ensures o in waiters
    ensures forall p :: p in waiters ==> !CellLess(Wants(ops[o]).value, Wants(ops[p]).value)
  {
    o :| o in waiters;
    CellLessIrreflexive(Wants(ops[o]).value);
    if waiters != {o} {
      var h := HighestWaiter(ops, waiters - {o});
      if CellLess(Wants(ops[o]).value, Wants(ops[h]).value) {
        if CellLess(Wants(ops[h]).value, Wants(ops[o]).value) {
          CellLessTransitive(Wants(ops[o]).value, Wants(ops[h]).value, Wants(ops[o]).value);
        }
        o := h;
      } else {
        forall p | p in waiters ensures !CellLess(Wants(ops[o]).value, Wants(ops[p]).value) {
          if p != o && CellLess(Wants(ops[o]).value, Wants(ops[p]).value) {
            CellLessTotal(Wants(ops[o]).value, Wants(ops[h]).value);
            if CellLess(Wants(ops[h]).value, Wants(ops[o]).value) {
              CellLessTransitive(Wants(ops[h]).value, Wants(ops[o]).value, Wants(ops[p]).value);
            }
          }
        }
      }
    }
  }

  lemma UnblockedIn(v: World, any: OpId) returns (o: OpId)
    requires Inv(v) && any in v.ops && !Finished(v.ops[any])
    ensures o in v.ops && !Finished(v.ops[o]) && !Blocked(v, o)
  {
    var waiters := set p | p in v.ops && Blocked(v, p);
    if any !in waiters {
      o := any;
    } else {
      var h := HighestWaiter(v.ops, waiters);
      var c := Wants(v.ops[h]).value;
      o := v.owner[c];
      assert c in HeldBy(v)[o];
      assert OpInv(v, v.ops[o]);
      if o in waiters {
        FirstBelowSecond(v.ops[o].request);
      }
    }
  }

  /** Ordered two-lock transfers mixed with one-lock operations never form a wait cycle. */
  lemma SomeOperationCanStep(w: World, ls: seq<Label>, any: OpId) returns (o: OpId)
    requires Initial(w) && NoForce(ls)
    requires any in Exec(w, ls).ops && !Finished(Exec(w, ls).ops[any])
    ensures o in Exec(w, ls).ops && !Finished(Exec(w, ls).ops[o]) && !Blocked(Exec(w, ls), o)
  {
    ExecInv(w, ls);
    o := UnblockedIn(Exec(w, ls), any);
  }

  /** Calls an operation may still make. */
  function Rank(op: Op): nat {
    match op.phase
    case Waiting => 12
    case Half => 11
    case Holding => 10
    case Read(_) => 9
    case Saved(_, _) => 8
    case Erased => 7
    case Copied(_) => 7
    case Verified(_) => 6
    case Checked(_) => 5
    case Archived(_) => 4
    case Releasing(_) => 3
    case Leaving(_) => 2
    case Done(_) => 0
  }

  lemma RankFalls(w: World, op: Op, ch: Choice)
    requires OpInv(w, op) && !Finished(op)
    ensures Rank(Op(op.request, Decide(w, op, ch).phase)) < Rank(op) <= 12
  {
  }

  /** An operation that keeps being scheduled ends after at most twelve steps, whatever the others
      do. */
  lemma StepsRunOut(w: World, o: OpId, ch: Choice, p: OpId)
    requires Inv(w) && o in w.ops && p in w.ops && !Finished(w.ops[o])
    ensures var v := Next(w, Advance(o, ch));
            && Rank(v.ops[o]) < Rank(w.ops[o]) <= 12
            && (p != o ==> v.ops[p] == w.ops[p])
  {
    assert OpInv(w, w.ops[o]);
    RankFalls(w, w.ops[o], ch);
    var s := Decide(w, w.ops[o], ch);
    assert Next(w, Advance(o, ch)) == Apply(w, o, s);
  }

  ghost function Ranks(ops: map<OpId, Op>): map<OpId, int> {
    map o | o in ops :: Rank(ops[o])
  }

  /** The calls that all operations together may still make. */
  ghost function Work(ops: map<OpId, Op>): int {
    Total(Ranks(ops))
  }

  lemma {:induction false} WorkBounded(ranks: map<OpId, int>)
    requires forall o :: o in ranks ==> 0 <= ranks[o] <= 12
    ensures 0 <= Total(ranks) <= 12 * |ranks|
    decreases |ranks|
  {
    if ranks != map[] {
      var o :| o in ranks;
      TotalRemove(ranks, o);
      assert |(ranks - {o}).Keys| == |ranks.Keys - {o}| == |ranks| - 1;
      WorkBounded(ranks - {o});
    }
  }

  lemma WorkOfOneFalls(ops: map<OpId, Op>, o: OpId, op: Op)
    requires o in ops && Rank(op) < Rank(ops[o])
    ensures Work(ops[o := op]) < Work(ops)
  {
    var a, b := Ranks(ops), Ranks(ops[o := op]);
    TotalRemove(a, o);
    TotalRemove(b, o);
    assert a - {o} == b - {o};
  }

  lemma WorkFalls(w: World, o: OpId, ch: Choice)
    requires Inv(w) && o in w.ops && !Finished(w.ops[o])
    ensures var v := Next(w, Advance(o, ch));
            v.ops.Keys == w.ops.Keys && Work(v.ops) < Work(w.ops)
  {
    assert OpInv(w, w.ops[o]);
    RankFalls(w, w.ops[o], ch);
    var s := Decide(w, w.ops[o], ch);
    WorkOfOneFalls(w.ops, o, Op(w.ops[o].request, s.phase));
    assert Next(w, Advance(o, ch)).ops == w.ops[o := Op(w.ops[o].request, s.phase)];
  }

  /** A step that locks which block allow: by an unfinished operation whose next lock, if it wants
      one, is free. */
  predicate Runnable(v: World, l: Label) {
    l.Advance? && l.op in v.ops && !Finished(v.ops[l.op]) && !Blocked(v, l.op)
  }

  /** A schedule of such steps. */
  ghost predicate Blocking(u: World, sched: seq<Label>) {
    forall k :: 0 <= k < |sched| ==> Runnable(Exec(u, sched[..k]), sched[k])
  }

  lemma {:induction false} WorkDone(u: World, sched: seq<Label>)
    requires Inv(u) && Blocking(u, sched)
    ensures var v := Exec(u, sched);
            Inv(v) && v.ops.Keys == u.ops.Keys && |sched| + Work(v.ops) <= Work(u.ops)
  {
    if sched != [] {
      var n := |sched| - 1;
      assert forall k :: 0 <= k < n ==> sched[..n][..k] == sched[..k];
      WorkDone(u, sched[..n]);
      OneMoreStep(Exec(u, sched[..n]), sched[n]);
    }
  }

  lemma OneMoreStep(v: World, l: Label)
    requires Inv(v) && Runnable(v, l)
    ensures Inv(Next(v, l)) && Next(v, l).ops.Keys == v.ops.Keys && Work(Next(v, l).ops) < Work(v.ops)
  {
    AdvanceInv(v, l.op, l.choice);
    WorkFalls(v, l.op, l.choice);
  }

  lemma WorkOfAll(ops: map<OpId, Op>)
    ensures 0 <= Work(ops) <= 12 * |ops|
  {
    WorkBounded(Ranks(ops));
    assert Ranks(ops).Keys == ops.Keys;
  }

  /** From any reachable world with n operations, locks that block let a schedule run for at most
      12 n steps, and a schedule that cannot go on has finished every operation. */
  lemma BlockingRunsFinish(w: World, ls: seq<Label>, sched: seq<Label>)
    requires Initial(w) && NoForce(ls) && Blocking(Exec(w, ls), sched)
    ensures |sched| <= 12 * |Exec(w, ls).ops|
    ensures var v := Exec(Exec(w, ls), sched);
            (forall l :: !Runnable(v, l)) <==> (forall o :: o in v.ops ==> Finished(v.ops[o]))
  {
    var u, v := Exec(w, ls), Exec(Exec(w, ls), sched);
    ExecInv(w, ls);
    WorkDone(u, sched);
    WorkOfAll(u.ops);
    WorkOfAll(v.ops);
    if any :| any in v.ops && !Finished(v.ops[any]) {
      var o := UnblockedIn(v, any);
      assert Runnable(v, Advance(o, OK));
    }
  }

  /** An operation that was refused holds no lock once it is done. */
  lemma RefusedLeavesNothing(w: World, ls: seq<Label>, o: OpId)
    requires Initial(w) && NoForce(ls) && o in Exec(w, ls).ops
    requires Exec(w, ls).ops[o].phase == Done(Refused)
    ensures forall c :: c in Exec(w, ls).owner ==> Exec(w, ls).owner[c] != o
  {
    ExecInv(w, ls);
    assert HeldBy(Exec(w, ls))[o] == {};
  }

  /** The refusal of a second lock gives back the first in the next step. */
  lemma RefusedSecondLockReleasesFirst(w: World, o: OpId, ch: Choice, ch1: Choice)
    requires Inv(w) && o in w.ops && w.ops[o].phase.Half? && Blocked(w, o)
    ensures var u := Next(w, Advance(o, ch));
            var v := Next(u, Advance(o, ch1));
            && v.cells == w.cells && v.backups == w.backups
            && v.ops[o].phase == Done(Refused)
            && v.owner == w.owner - {First(w.ops[o].request)}
  {
    var c := First(w.ops[o].request);
    assert OpInv(w, w.ops[o]);
    assert c in HeldBy(w)[o];
    SecondLockRefused(w, o, ch);
    var u := Apply(w, o, Step(Quiet, Leaving(Refused)));
    assert u.owner == w.owner && u.cells == w.cells && u.backups == w.backups;
    FirstLockReturned(u, o, ch1);
  }

  lemma SecondLockRefused(w: World, o: OpId, ch: Choice)
    requires o in w.ops && w.ops[o].phase.Half? && Blocked(w, o)
    ensures Next(w, Advance(o, ch)) == Apply(w, o, Step(Quiet, Leaving(Refused)))
  {
    assert Decide(w, w.ops[o], ch) == Step(Quiet, Leaving(Refused));
  }

  lemma FirstLockReturned(u: World, o: OpId, ch: Choice)
    requires o in u.ops && u.ops[o].phase == Leaving(Refused)
    requires First(u.ops[o].request) in u.owner && u.owner[First(u.ops[o].request)] == o
    ensures var v := Next(u, Advance(o, ch));
            && v.cells == u.cells && v.backups == u.backups && v.ops[o].phase == Done(Refused)
            && v.owner == u.owner - {First(u.ops[o].request)}
  {
    assert Decide(u, u.ops[o], ch) == Step(Drop(First(u.ops[o].request)), Done(Refused));
  }
}
