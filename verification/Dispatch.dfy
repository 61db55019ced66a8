/** Dispatching a drift batch: one run row per target, each with its own one-shot token, one CI
    job for all of them, and what is left behind when a step on the way fails. Row ids, batch
    ids and tokens are drawn from one counter. */
module Dispatch {
  import opened Collections
  import opened Tenancy
  import opened Targets

  /** token is None once blanked. */
  datatype Run = Run(org: Org, connection: Id, source: Option<Id>, key: string, repoRef: string, dir: string, actor: string,
                     status: string, token: Option<nat>, batch: Option<nat>, ciRun: Option<string>)

  datatype Connection = Connection(provider: string, fanOut: bool)

  /** The CI provider's answer: the job started, perhaps with a link to it. */
  datatype Answer = Refused | Started(link: Option<string>)

  /** What the dispatch meets on its way: the scoped loads, the credential, which inserts the
      database refuses, whether the targets encode, what the CI answers, and whether the
      failure update and the CI link persist. */
  datatype Surroundings = Surroundings(connection: Option<Connection>, reachable: set<Id>, credential: bool, refused: set<nat>,
                                       encodes: bool, answer: Answer, failurePersists: bool, linkPersists: bool)

  datatype Error = NotFound | NotCapable | NeedsSecretVariables | SourceElsewhere | NoCredential | CreateFailed | EncodeFailed | CIFailed

  datatype Batch = Batch(id: nat, runs: seq<nat>)

  /** What the CI job is started with: the older parameters, and the secret variables of a fan-out. */
  datatype Sent = Sent(callbackRun: nat, token: nat, dir: string, variables: map<string, nat>, targets: seq<nat>)

  type Table = map<nat, Run>

  // ---------------------------------------------------------------- what the rows become

  function RowFor(t: Target, it: Item, org: Org, actor: string, batch: Option<nat>, token: nat): Run {
    Run(org, t.connection, if it.source == "" then None else Some(it.source), it.key, t.repoRef, it.dir, actor,
        "dispatched", Some(token), batch, None)
  }

  /** The i-th row of a batch whose counter started at base, and its token. */
  function RowId(base: nat, i: nat): nat { base + 2 * i }
  function TokenOf(base: nat, i: nat): nat { base + 2 * i + 1 }

  function RowIds(base: nat, n: nat): seq<nat> {
    seq(n, i requires 0 <= i < n => RowId(base, i))
  }

  function WithRuns(runs: Table, t: Target, items: seq<Item>, org: Org, actor: string, batch: Option<nat>, base: nat): Table {
    if items == [] then runs
    else
      var n := |items| - 1;
      WithRuns(runs, t, items[..n], org, actor, batch, base)[RowId(base, n) := RowFor(t, items[n], org, actor, batch, TokenOf(base, n))]
  }

  function Variables(items: seq<Item>, base: nat): map<string, nat> {
    if items == [] then map[]
    else
      var n := |items| - 1;
      Variables(items[..n], base)[VariableName(items[n].dir) := TokenOf(base, n)]
  }

  lemma {:induction false} RowAt(runs: Table, t: Target, items: seq<Item>, org: Org, actor: string, batch: Option<nat>, base: nat, i: nat)
    requires i < |items|
    ensures var after := WithRuns(runs, t, items, org, actor, batch, base);
            RowId(base, i) in after && after[RowId(base, i)] == RowFor(t, items[i], org, actor, batch, TokenOf(base, i))
  {
    var n := |items| - 1;
    if i < n {
      RowAt(runs, t, items[..n], org, actor, batch, base, i);
    }
  }

  lemma {:induction false} OldRowAt(runs: Table, t: Target, items: seq<Item>, org: Org, actor: string, batch: Option<nat>, base: nat, id: nat)
    ensures var after := WithRuns(runs, t, items, org, actor, batch, base);
            && (id in after ==> id in runs || exists i :: 0 <= i < |items| && id == RowId(base, i))
            && (id in runs && id < base ==> id in after && after[id] == runs[id])
  {
    if items != [] {
      OldRowAt(runs, t, items[..|items| - 1], org, actor, batch, base, id);
    }
  }

  /** With distinct names, each item's variable carries that item's token. */
  lemma {:induction false} VariablesAt(items: seq<Item>, base: nat)
    requires forall i, j :: 0 <= i < j < |items| ==> VariableName(items[i].dir) != VariableName(items[j].dir)
    ensures forall i :: 0 <= i < |items| ==> VariableName(items[i].dir) in Variables(items, base)
                                              && Variables(items, base)[VariableName(items[i].dir)] == TokenOf(base, i)
    ensures forall v :: v in Variables(items, base) ==> exists i :: 0 <= i < |items| && VariableName(items[i].dir) == v
  {
    if items != [] {
      var n := |items| - 1;
      VariablesAt(items[..n], base);
      assert forall i :: 0 <= i < n ==> items[..n][i] == items[i];
    }
  }

  lemma {:induction false} LastNamed(items: seq<Item>, base: nat, i: nat)
    requires i < |items|
    ensures VariableName(items[i].dir) in Variables(items, base) && Variables(items, base)[VariableName(items[i].dir)] >= TokenOf(base, i)
  {
    var n := |items| - 1;
    if i < n {
      LastNamed(items[..n], base, i);
    }
  }

  /** ...and without them some item's variable carries another item's token. */
  lemma OwnTokenIffDistinct(items: seq<Item>, base: nat)
    ensures (forall i :: 0 <= i < |items| ==> VariableName(items[i].dir) in Variables(items, base)
                                               && Variables(items, base)[VariableName(items[i].dir)] == TokenOf(base, i))
            <==> (forall i, j :: 0 <= i < j < |items| ==> VariableName(items[i].dir) != VariableName(items[j].dir))
  {
    if i, j :| 0 <= i < j < |items| && VariableName(items[i].dir) == VariableName(items[j].dir) {
      LastNamed(items, base, j);
    } else {
      VariablesAt(items, base);
    }
  }

  /** FailBatch: still-dispatched rows of the batch. */
  function BatchFailed(runs: Table, batch: nat): Table {
    map id | id in runs :: if runs[id].batch == Some(batch) && runs[id].status == "dispatched"
                           then runs[id].(status := "failed", token := None) else runs[id]
  }

  /** UpdateStatus: one row, token untouched. */
  function RunFailed(runs: Table, id: nat): Table {
    if id in runs then runs[id := runs[id].(status := "failed")] else runs
  }

  /** SetCIRun: the rows of the batch, or the run with that id. */
  function Linked(runs: Table, batchOrRun: nat, ciRun: string): Table {
    map id | id in runs :: if runs[id].batch == Some(batchOrRun) || id == batchOrRun then runs[id].(ciRun := Some(ciRun)) else runs[id]
  }

  // ---------------------------------------------------------------- the whole dispatch

  function Gate(t: Target, s: Surroundings): Option<Error> {
    var items := Items(t);
    if s.connection.None? then Some(NotFound)
    else if |items| > 1 && !s.connection.value.fanOut then Some(NotCapable)
    else if |items| > 1 && s.connection.value.provider != "azure_devops" then Some(NeedsSecretVariables)
    else if exists i :: 0 <= i < |items| && items[i].source != "" && items[i].source !in s.reachable then Some(SourceElsewhere)
    else if !s.credential then Some(NoCredential)
    else None
  }

  /** How many inserts go through. */
  function Inserted(refused: set<nat>, n: nat): (m: nat)
    ensures m <= n && (forall i :: 0 <= i < m ==> i !in refused) && (m < n ==> m in refused)
  {
    if n == 0 then 0
    else
      var m := Inserted(refused, n - 1);
      if m < n - 1 || n - 1 in refused then m else n
  }

  predicate Fanned(t: Target) {
    |Items(t)| > 1
  }

  /** The batch id is drawn before the rows, and only for a fan-out. */
  function Column(t: Target, next: nat): Option<nat> { if Fanned(t) then Some(next) else None }
  function Base(t: Target, next: nat): nat { if Fanned(t) then next + 1 else next }
  function BatchId(t: Target, next: nat): nat { next }

  function Outcome(t: Target, s: Surroundings): Option<Error> {
    var n := |Items(t)|;
    if Gate(t, s).Some? then Gate(t, s)
    else if Inserted(s.refused, n) < n then Some(CreateFailed)
    else StartError(t, s)
  }

  /** What can go wrong once the rows exist. */
  function StartError(t: Target, s: Surroundings): Option<Error>
    requires s.connection.Some?
  {
    if Fanned(t) && !s.encodes then Some(EncodeFailed)
    else if s.connection.value.provider !in {"github_actions", "azure_devops"} || s.answer.Refused? then Some(CIFailed)
    else None
  }

  function LinkedIf(s: Surroundings, runs: Table, id: nat): Table
    requires s.answer.Started?
  {
    if s.answer.link.Some? && s.linkPersists then Linked(runs, id, s.answer.link.value) else runs
  }

  function Created(runs: Table, next: nat, t: Target, org: Org, actor: string, s: Surroundings): Table {
    WithRuns(runs, t, Items(t)[..Inserted(s.refused, |Items(t)|)], org, actor, Column(t, next), Base(t, next))
  }

  /** The table a dispatch leaves behind. */
  function Final(runs: Table, next: nat, t: Target, org: Org, actor: string, s: Surroundings): Table {
    var created := Created(runs, next, t, org, actor, s);
    if Gate(t, s).Some? then runs
    else if Outcome(t, s).Some? then
      if !s.failurePersists then created
      else if Fanned(t) then BatchFailed(created, next)
      else if Outcome(t, s) == Some(CreateFailed) then created
      else RunFailed(created, next)
    else LinkedIf(s, created, BatchId(t, next))
  }

  ghost predicate Below(runs: Table, next: nat) {
    forall id :: id in runs ==> id < next && (runs[id].batch.Some? ==> runs[id].batch.value < next)
                                && (runs[id].token.Some? ==> runs[id].token.value < next)
  }

  lemma OneMore(runs: Table, t: Target, items: seq<Item>, org: Org, actor: string, batch: Option<nat>, base: nat, i: nat)
    requires i < |items|
    ensures WithRuns(runs, t, items[..i + 1], org, actor, batch, base)
            == WithRuns(runs, t, items[..i], org, actor, batch, base)[RowId(base, i) := RowFor(t, items[i], org, actor, batch, TokenOf(base, i))]
    ensures Variables(items[..i + 1], base) == Variables(items[..i], base)[VariableName(items[i].dir) := TokenOf(base, i)]
    ensures RowIds(base, i + 1) == RowIds(base, i) + [RowId(base, i)]
  {
    assert items[..i + 1][..i] == items[..i] && items[..i + 1][i] == items[i];
  }

  lemma BelowOneMore(runs: Table, next: nat, row: Run)
    requires Below(runs, next) && (row.batch.Some? ==> row.batch.value < next) && row.token == Some(next + 1)
    ensures Below(runs[next := row], next + 2)
  {
  }

  class Dispatcher {
    var runs: Table
    var next: nat

    ghost predicate Valid() reads this {
      Below(runs, next)
    }

    constructor ()
      ensures Valid() && runs == map[]
    {
      runs, next := map[], 0;
    }

    method SourcesReachable(items: seq<Item>, reachable: set<Id>) returns (ok: bool)
      ensures ok <==> !exists i :: 0 <= i < |items| && items[i].source != "" && items[i].source !in reachable
    {
      for i := 0 to |items|
        invariant forall j :: 0 <= j < i ==> items[j].source == "" || items[j].source in reachable
      {
        if items[i].source != "" && items[i].source !in reachable {
          return false;
        }
      }
      return true;
    }

    method FailBatch(batch: Batch, column: Option<nat>, persists: bool)
      requires |batch.runs| > 0
      modifies this`runs
      ensures runs == if !persists then old(runs)
                      else if column.Some? then BatchFailed(old(runs), batch.id) else RunFailed(old(runs), batch.runs[0])
    {
      if persists {
        if column.Some? {
          runs := BatchFailed(runs, batch.id);
        } else {
          runs := RunFailed(runs, batch.runs[0]);
        }
      }
    }

    /** What a refused insert does to the rows before it: only a fan-out can have any. */
    method AbortBatch(made: seq<nat>, column: Option<nat>, ghost first: nat, persists: bool)
      requires column.Some? ==> column.value == first
      requires made == [] && column.Some? ==> Below(runs, first)
      modifies this`runs
      ensures runs == if persists && column.Some? then BatchFailed(old(runs), column.value) else old(runs)
    {
      if column.Some? && |made| > 0 {
        FailBatch(Batch(column.value, made), column, persists);
      } else if column.Some? {
        NothingToFail(runs, column.value, first);
      }
    }

    /** The insert loop; it stops at the first refused insert. */
    method CreateRuns(t: Target, items: seq<Item>, org: Org, actor: string, batch: Option<nat>, refused: set<nat>)
      returns (made: seq<nat>, variables: map<string, nat>)
      requires Valid() && (batch.Some? ==> batch.value < next)
      modifies this
      ensures Valid()
      ensures |made| == Inserted(refused, |items|)
      ensures made == RowIds(old(next), |made|) && variables == Variables(items[..|made|], old(next))
      ensures runs == WithRuns(old(runs), t, items[..|made|], org, actor, batch, old(next))
    {
      ghost var base := next;
      made, variables := [], map[];
      for i := 0 to |items|
        invariant Valid() && |made| == i && next == RowId(base, i) && (batch.Some? ==> batch.value < next)
        invariant made == RowIds(base, i) && variables == Variables(items[..i], base)
        invariant runs == WithRuns(old(runs), t, items[..i], org, actor, batch, base)
        invariant forall j :: 0 <= j < i ==> j !in refused
      {
        if i in refused {
          return;
        }
        OneMore(old(runs), t, items, org, actor, batch, base, i);
        variables := variables[VariableName(items[i].dir) := next + 1];
        made := made + [next];
        CreateRun(t, items[i], org, actor, batch);
      }
    }

    method CreateRun(t: Target, it: Item, org: Org, actor: string, batch: Option<nat>)
      requires Valid() && (batch.Some? ==> batch.value < next)
      modifies this
      ensures Valid() && next == old(next) + 2
      ensures runs == old(runs)[old(next) := RowFor(t, it, org, actor, batch, old(next) + 1)]
    {
      BelowOneMore(runs, next, RowFor(t, it, org, actor, batch, next + 1));
      runs := runs[next := RowFor(t, it, org, actor, batch, next + 1)];
      next := next + 2;
    }

    method PassGates(t: Target, s: Surroundings) returns (e: Option<Error>)
      ensures e == Gate(t, s)
    {
      var items := Items(t);
      if s.connection.None? {
        return Some(NotFound);
      }
      if |items| > 1 && !s.connection.value.fanOut {
        return Some(NotCapable);
      }
      if |items| > 1 && s.connection.value.provider != "azure_devops" {
        return Some(NeedsSecretVariables);
      }
      var reachable := SourcesReachable(items, s.reachable);
      if !reachable {
        return Some(SourceElsewhere);
      }
      return if s.credential then None else Some(NoCredential);
    }

    /** batch is what the caller can report; sent is what the CI job was asked to start with. */
    method DispatchDriftBatch(t: Target, org: Org, actor: string, s: Surroundings)
      returns (batch: Option<Batch>, error: Option<Error>, sent: Option<Sent>)
      requires Valid()
      modifies this
      ensures error == Outcome(t, s) && runs == Final(old(runs), old(next), t, org, actor, s)
      ensures batch.Some? <==> error.None? || error == Some(EncodeFailed) || error == Some(CIFailed)
      ensures batch.Some? ==> batch.value == Batch(BatchId(t, old(next)), RowIds(Base(t, old(next)), |Items(t)|))
      ensures error.None? ==> sent.Some?
      ensures sent.Some? ==> sent.value == SentBy(t, old(next))
    {
      var items := Items(t);
      error := PassGates(t, s);
      if error.Some? {
        return None, error, None;
      }
      var column := None;
      if |items| > 1 {
        column := Some(next);
        next := next + 1;
      }
      assert Valid();
      ghost var base := next;
      var made, variables := CreateRuns(t, items, org, actor, column, s.refused);
      if |made| < |items| {
        AbortBatch(made, column, old(next), s.failurePersists);
        return None, Some(CreateFailed), None;
      }
      assert items[..|items|] == items;
      var b := Batch(if column.Some? then column.value else made[0], made);
      error, sent := Start(t, s, b, column, variables);
      return Some(b), error, sent;
    }

    /** Encode, start the CI job, record its link. */
    method Start(t: Target, s: Surroundings, b: Batch, column: Option<nat>, variables: map<string, nat>)
      returns (error: Option<Error>, sent: Option<Sent>)
      requires |b.runs| == |Items(t)| && (column.Some? <==> Fanned(t)) && s.connection.Some?
      requires column.None? ==> b.id == b.runs[0]
      modifies this`runs
      ensures error == StartError(t, s)
      ensures runs == if error.None? then LinkedIf(s, old(runs), b.id)
                      else if !s.failurePersists then old(runs)
                      else if Fanned(t) then BatchFailed(old(runs), b.id) else RunFailed(old(runs), b.id)
      ensures error.None? ==> sent.Some?
      ensures sent.Some? ==> sent.value == Sent(b.runs[0], b.runs[0] + 1, Items(t)[0].dir,
                                                if Fanned(t) then variables else map[], if Fanned(t) then b.runs else [])
    {
      var items := Items(t);
      if |items| > 1 && !s.encodes {
        FailBatch(b, column, s.failurePersists);
        return Some(EncodeFailed), None;
      }
      sent := Some(Sent(b.runs[0], b.runs[0] + 1, items[0].dir, if |items| > 1 then variables else map[], if |items| > 1 then b.runs else []));
      if s.connection.value.provider !in {"github_actions", "azure_devops"} || s.answer.Refused? {
        FailBatch(b, column, s.failurePersists);
        return Some(CIFailed), sent;
      }
      if s.answer.link.Some? && s.linkPersists {
        runs := Linked(runs, b.id, s.answer.link.value);
      }
      return None, sent;
    }
  }

  /** The CI job's inputs: the older three from the first target, and for a fan-out the targets
      and each target's token under its own variable. */
  function SentBy(t: Target, next: nat): Sent {
    var items, base := Items(t), Base(t, next);
    Sent(RowId(base, 0), TokenOf(base, 0), items[0].dir,
         if Fanned(t) then Variables(items, base) else map[], if Fanned(t) then RowIds(base, |items|) else [])
  }

  lemma NothingToFail(runs: Table, batch: nat, next: nat)
    requires Below(runs, next) && batch >= next
    ensures BatchFailed(runs, batch) == runs
  {
  }

  // ---------------------------------------------------------------- all or nothing

  /** A row of a batch, field by field. */
  predicate PlannedRow(r: Run, t: Target, it: Item, org: Org, actor: string, batch: Option<nat>) {
    && r.status == "dispatched" && r.org == org && r.actor == actor && r.repoRef == t.repoRef
    && r.connection == t.connection && r.source == (if it.source == "" then None else Some(it.source))
    && r.key == it.key && r.dir == it.dir && r.batch == batch && r.token.Some?
  }

  /** One new row per target and no others, each dispatched under the dispatching organization,
      with a token no other row has; a shared batch id exactly for two or more. */
  ghost predicate FullBatch(runs: Table, after: Table, next: nat, t: Target, org: Org, actor: string) {
    var items, base := Items(t), Base(t, next);
    && (forall i :: 0 <= i < |items| ==> RowId(base, i) !in runs && RowId(base, i) in after
                                          && PlannedRow(after[RowId(base, i)], t, items[i], org, actor, Column(t, next)))
    && (forall i, id :: 0 <= i < |items| && id in after && id != RowId(base, i) ==> after[id].token != after[RowId(base, i)].token)
    && (forall id :: id in after && id !in runs ==> exists i :: 0 <= i < |items| && id == RowId(base, i))
  }

  ghost predicate OldKept(runs: Table, after: Table) {
    forall id :: id in runs ==> id in after && after[id] == runs[id]
  }

  lemma CreatedAt(runs: Table, next: nat, t: Target, org: Org, actor: string, s: Surroundings, id: nat)
    requires Below(runs, next)
    ensures var after, m := Created(runs, next, t, org, actor, s), Inserted(s.refused, |Items(t)|);
            && (id in runs ==> id in after && after[id] == runs[id])
            && (id in after && id !in runs ==> exists i :: 0 <= i < m && id == RowId(Base(t, next), i)
                                                           && after[id] == RowFor(t, Items(t)[i], org, actor, Column(t, next), TokenOf(Base(t, next), i)))
  {
    var m, base := Inserted(s.refused, |Items(t)|), Base(t, next);
    var items := Items(t)[..m];
    OldRowAt(runs, t, items, org, actor, Column(t, next), base, id);
    if id in Created(runs, next, t, org, actor, s) && id !in runs {
      var i :| 0 <= i < m && id == RowId(base, i);
      RowAt(runs, t, items, org, actor, Column(t, next), base, i);
      assert items[i] == Items(t)[i];
    }
  }

  /** A dispatch never touches a row that was there before. */
  lemma OldRowsKept(runs: Table, next: nat, t: Target, org: Org, actor: string, s: Surroundings)
    requires Below(runs, next)
    ensures OldKept(runs, Final(runs, next, t, org, actor, s))
  {
    forall id | id in runs ensures id in Final(runs, next, t, org, actor, s) && Final(runs, next, t, org, actor, s)[id] == runs[id] {
      CreatedAt(runs, next, t, org, actor, s, id);
    }
  }

  /** Every error leaves nothing in flight: when the failure update persists, each row the
      dispatch made is failed. Its token is gone exactly for a fan-out. */
  lemma ErrorLeavesAllFailed(runs: Table, next: nat, t: Target, org: Org, actor: string, s: Surroundings, id: nat)
    requires Below(runs, next) && Outcome(t, s).Some? && s.failurePersists
    requires id in Final(runs, next, t, org, actor, s) && id !in runs
    ensures var r := Final(runs, next, t, org, actor, s)[id];
            r.status == "failed" && (r.token.None? <==> Fanned(t))
  {
    CreatedAt(runs, next, t, org, actor, s, id);
  }

  /** A dispatch leaves new rows behind exactly when its connection is there, carries a fan-out if
      one is asked for, every source is in reach, there is a credential, and the first insert is
      accepted: no refusal before that leaves a trace. */
  lemma NewRowsExactlyWhen(runs: Table, next: nat, t: Target, org: Org, actor: string, s: Surroundings)
    requires Below(runs, next)
    ensures (exists id :: id in Final(runs, next, t, org, actor, s) && id !in runs)
            <==> && s.connection.Some? && (Fanned(t) ==> s.connection.value == Connection("azure_devops", true))
                 && (forall it :: it in Items(t) && it.source != "" ==> it.source in s.reachable)
                 && s.credential && 0 !in s.refused
  {
    var after := Final(runs, next, t, org, actor, s);
    var m := Inserted(s.refused, |Items(t)|);
    if Gate(t, s).None? && m > 0 {
      RowAt(runs, t, Items(t)[..m], org, actor, Column(t, next), Base(t, next), 0);
      assert RowId(Base(t, next), 0) in after;
    } else if id :| id in after && id !in runs {
      CreatedAt(runs, next, t, org, actor, s, id);
    }
  }

  /** When a dispatch succeeds, and when it fails with each error. */
  lemma SucceedsExactlyWhen(t: Target, s: Surroundings)
    ensures var fan, n := |t.targets| > 1, if t.targets == [] then 1 else |t.targets|;
            var gated := fan ==> s.connection.Some? && s.connection.value == Connection("azure_devops", true);
            var ready := gated && s.connection.Some? && (forall it :: it in Items(t) && it.source != "" ==> it.source in s.reachable);
            var inserted := ready && s.credential && forall i :: 0 <= i < n ==> i !in s.refused;
            && (Outcome(t, s).None? <==>
                  inserted && (fan ==> s.encodes) && s.connection.value.provider in ["github_actions", "azure_devops"] && s.answer.Started?)
            && (Outcome(t, s) == Some(NotFound) <==> s.connection.None?)
            && (Outcome(t, s) == Some(NotCapable) <==> s.connection.Some? && fan && !s.connection.value.fanOut)
            && (Outcome(t, s) == Some(NeedsSecretVariables) <==>
                  s.connection.Some? && fan && s.connection.value.fanOut && s.connection.value.provider != "azure_devops")
            && (Outcome(t, s) == Some(SourceElsewhere) <==> s.connection.Some? && gated && !ready)
            && (Outcome(t, s) == Some(NoCredential) <==> ready && !s.credential)
            && (Outcome(t, s) == Some(CreateFailed) <==> ready && s.credential && !inserted)
            && (Outcome(t, s) == Some(EncodeFailed) <==> inserted && fan && !s.encodes)
  {
    var items := Items(t);
    assert (exists i :: 0 <= i < |items| && items[i].source != "" && items[i].source !in s.reachable)
           <==> exists it :: it in items && it.source != "" && it.source !in s.reachable;
  }

  /** What the caller and the CI job learn fits the rows: a fan-out's rows carry the batch id and
      are listed in order, a single run goes by its own id, and the older inputs are those of the
      first row. */
  lemma SentFitsRows(runs: Table, next: nat, t: Target, org: Org, actor: string, s: Surroundings)
    requires Below(runs, next) && Outcome(t, s).None?
    ensures var after, sent, ids := Final(runs, next, t, org, actor, s), SentBy(t, next), RowIds(Base(t, next), |Items(t)|);
            && sent.callbackRun == ids[0] && ids[0] in after
            && after[ids[0]].token == Some(sent.token) && after[ids[0]].dir == sent.dir
            && (|t.targets| <= 1 ==> sent.variables == map[] && sent.targets == [] && ids == [BatchId(t, next)] && after[ids[0]].batch == None)
            && (|t.targets| > 1 ==> |ids| == |t.targets| && sent.targets == ids
                                    && forall i :: 0 <= i < |ids| ==> ids[i] in after && after[ids[i]].batch == Some(BatchId(t, next))
                                                                      && after[ids[i]].dir == t.targets[i].dir)
  {
    forall i: nat | i < |Items(t)|
      ensures var id, after := RowId(Base(t, next), i), Final(runs, next, t, org, actor, s);
              id in after && after[id].token == Some(TokenOf(Base(t, next), i)) && after[id].batch == Column(t, next)
              && after[id].dir == Items(t)[i].dir
    {
      SuccessRow(runs, next, t, org, actor, s, i);
    }
  }

  /** When the failure update does not persist, what was inserted stays dispatched, token and all. */
  lemma LostFailureUpdate(runs: Table, next: nat, t: Target, org: Org, actor: string, s: Surroundings, id: nat)
    requires Below(runs, next) && Outcome(t, s).Some? && !s.failurePersists
    requires id in Final(runs, next, t, org, actor, s) && id !in runs
    ensures var r := Final(runs, next, t, org, actor, s)[id];
            r.status == "dispatched" && r.token.Some? && r.ciRun == None
  {
    CreatedAt(runs, next, t, org, actor, s, id);
  }

  lemma SuccessRow(runs: Table, next: nat, t: Target, org: Org, actor: string, s: Surroundings, i: nat)
    requires Below(runs, next) && Outcome(t, s).None? && i < |Items(t)|
    ensures var id, after := RowId(Base(t, next), i), Final(runs, next, t, org, actor, s);
            && id !in runs && id in after && after[id].token == Some(TokenOf(Base(t, next), i))
            && PlannedRow(after[id], t, Items(t)[i], org, actor, Column(t, next))
            && s.answer.Started? && after[id].ciRun == if s.linkPersists then s.answer.link else None
  {
    var items := Items(t);
    assert items[..Inserted(s.refused, |items|)] == items;
    RowAt(runs, t, items, org, actor, Column(t, next), Base(t, next), i);
  }

  lemma SuccessIsComplete(runs: Table, next: nat, t: Target, org: Org, actor: string, s: Surroundings)
    requires Below(runs, next) && Outcome(t, s).None?
    ensures FullBatch(runs, Final(runs, next, t, org, actor, s), next, t, org, actor)
  {
    var items, base, after := Items(t), Base(t, next), Final(runs, next, t, org, actor, s);
    forall i | 0 <= i < |items|
      ensures RowId(base, i) !in runs && RowId(base, i) in after && after[RowId(base, i)].token == Some(TokenOf(base, i))
              && PlannedRow(after[RowId(base, i)], t, items[i], org, actor, Column(t, next))
    {
      SuccessRow(runs, next, t, org, actor, s, i);
    }
    forall id | id in after && id !in runs ensures exists i :: 0 <= i < |items| && id == RowId(base, i) {
      CreatedAt(runs, next, t, org, actor, s, id);
    }
    forall i, id | 0 <= i < |items| && id in after && id != RowId(base, i) ensures after[id].token != Some(TokenOf(base, i)) {
      if id in runs {
        CreatedAt(runs, next, t, org, actor, s, id);
      }
    }
  }

  /** Valid targets, once dispatched as a fan-out, hand each target's own token to its own
      variable, and the tokens are those the rows store. */
  lemma VariablesMatchRows(runs: Table, next: nat, t: Target, org: Org, actor: string, s: Surroundings, i: nat)
    requires Below(runs, next) && Outcome(t, s).None? && Fanned(t) && ValidTargets(Items(t)) && i < |Items(t)|
    ensures var v, id, after := VariableName(Items(t)[i].dir), RowId(Base(t, next), i), Final(runs, next, t, org, actor, s);
            && v in SentBy(t, next).variables && id in after && SentBy(t, next).targets[i] == id
            && after[id].token == Some(SentBy(t, next).variables[v]) && after[id].dir == Items(t)[i].dir
  {
    SuccessRow(runs, next, t, org, actor, s, i);
    DistinctNames(Items(t));
    VariablesAt(Items(t), Base(t, next));
  }

  lemma DistinctNames(items: seq<Item>)
    requires ValidTargets(items)
    ensures forall i, j :: 0 <= i < j < |items| ==> VariableName(items[i].dir) != VariableName(items[j].dir)
  {
    assert forall i, j :: 0 <= i < j < |items| ==> Compatible(items[i], items[j]);
  }

  lemma {:induction false} SameRows(runs: Table, t: Target, u: Target, a: seq<Item>, b: seq<Item>, org: Org, actor: string, base: nat)
    requires t.connection == u.connection && t.repoRef == u.repoRef && |a| == |b|
    requires forall i :: 0 <= i < |a| ==> a[i].(params := map[]) == b[i].(params := map[])
    ensures WithRuns(runs, t, a, org, actor, None, base) == WithRuns(runs, u, b, org, actor, None, base)
  {
    if a != [] {
      var n := |a| - 1;
      SameRows(runs, t, u, a[..n], b[..n], org, actor, base);
      assert a[n].(params := map[]) == b[n].(params := map[]);
    }
  }

  /** One item in targets is the older shape. */
  lemma OneItemIsSingle(runs: Table, next: nat, t: Target, org: Org, actor: string, s: Surroundings, it: Item)
    requires t.targets == [it]
    ensures var u := t.(targets := [], source := it.source, key := it.key, dir := it.dir);
            && Outcome(t, s) == Outcome(u, s) && SentBy(t, next) == SentBy(u, next)
            && Final(runs, next, t, org, actor, s) == Final(runs, next, u, org, actor, s)
  {
    var u := t.(targets := [], source := it.source, key := it.key, dir := it.dir);
    var m := Inserted(s.refused, 1);
    SameRows(runs, t, u, Items(t)[..m], Items(u)[..m], org, actor, Base(t, next));
    assert Gate(t, s) == Gate(u, s) by {
      assert (exists i :: 0 <= i < 1 && [it][i].source != "" && [it][i].source !in s.reachable)
             <==> (it.source != "" && it.source !in s.reachable) by { assert [it][0] == it; }
      assert (exists i :: 0 <= i < 1 && Items(u)[i].source != "" && Items(u)[i].source !in s.reachable)
             <==> (it.source != "" && it.source !in s.reachable) by { assert Items(u)[0].source == it.source; }
    }
  }
}
