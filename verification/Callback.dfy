/** The one-shot callback of a drift run. Any number of posts to any runs are under way at once;
    each loads its run, authenticates against what it loaded, consumes the token with an atomic
    compare-and-clear, and only then applies the result, step by step. */
module Callback {
  import opened Names
  import opened Tenancy

  datatype Run = Run(org: Org, token: string, status: string)

  datatype Phase =
    | Arrived
    | Authenticated(token: string)
    | Consumed | Resulted | Recorded | Finished
    | Unauthorized | AlreadyProcessed | Errored(consumed: bool)

  datatype Post = Post(run: Id, presented: string, phase: Phase)

  datatype Kind = ResultWrite | RecordChange | ModuleProvenance

  datatype Effect = Effect(kind: Kind, run: Id, post: nat)

  /** log is history: the effects of posts, in order. */
  datatype World = World(runs: map<Id, Run>, posts: map<nat, Post>, log: seq<Effect>)

  const EMPTY := World(map[], map[], [])

  datatype Label =
    | Dispatch(run: Id, org: Org, token: string)
    | Arrive(p: nat, run: Id, header: string, body: string)
    | Advance(p: nat, ok: bool)
    | FailBatch(runs: set<Id>)
    | FailSingle(run: Id)
    | Expire(run: Id)

  // ---------------------------------------------------------------- authentication

  /** The header, unless it is blank; then the body field. */
  function CallbackTokenFrom(header: string, body: string): string {
    var h := TrimSpace(header);
    if h != "" then h else body
  }

  /** The scope the run confers, or nothing. */
  function AuthenticateCallback(id: Id, run: Run, presented: string): (scope: Scope)
    ensures scope != Within({}) <==> presented != "" && run.token != "" && presented == run.token && !Blank(run.org) && !Blank(id)
    ensures scope != Within({}) ==> forall o :: Permits(scope, o) <==> o == TrimSpace(run.org)
  {
    if presented == "" || run.token == "" then Within({})
    else if presented != run.token then Within({})
    else if TrimSpace(id) == "" || TrimSpace(run.org) == "" then Within({})
    else SystemScope(run.org)
  }

  // ---------------------------------------------------------------- steps

  function SetPhase(w: World, p: nat, phase: Phase): World
    requires p in w.posts
  {
    w.(posts := w.posts[p := w.posts[p].(phase := phase)])
  }

  function WithEffect(w: World, p: nat, kind: Kind, phase: Phase): World
    requires p in w.posts
  {
    SetPhase(w, p, phase).(log := w.log + [Effect(kind, w.posts[p].run, p)])
  }

  /** UPDATE ... SET callback_token='' WHERE id AND callback_token = the one loaded. */
  function Consume(w: World, p: nat, token: string): World
    requires p in w.posts
  {
    var id := w.posts[p].run;
    if id in w.runs && token != "" && w.runs[id].token == token
    then SetPhase(w, p, Consumed).(runs := w.runs[id := w.runs[id].(token := "")])
    else SetPhase(w, p, AlreadyProcessed)
  }

  /** The next step of a post; ok is false when its write fails, or for the last two when there
      is nothing to write. */
  function AdvancePost(w: World, p: nat, ok: bool): World
    requires p in w.posts
  {
    var post := w.posts[p];
    match post.phase
    case Arrived =>
      if post.run in w.runs && AuthenticateCallback(post.run, w.runs[post.run], post.presented) != Within({})
      then SetPhase(w, p, Authenticated(w.runs[post.run].token)) else SetPhase(w, p, Unauthorized)
    case Authenticated(token) => if ok then Consume(w, p, token) else SetPhase(w, p, Errored(false))
    case Consumed => if ok then WithEffect(w, p, ResultWrite, Resulted) else SetPhase(w, p, Errored(true))
    case Resulted => if ok then WithEffect(w, p, RecordChange, Recorded) else SetPhase(w, p, Recorded)
    case Recorded => if ok then WithEffect(w, p, ModuleProvenance, Finished) else SetPhase(w, p, Finished)
    case _ => w
  }

  function Cleared(run: Run): Run {
    if run.status == "dispatched" then run.(status := "failed", token := "") else run
  }

  function Step(w: World, l: Label): World {
    match l
    case Dispatch(id, org, token) => if id in w.runs then w else w.(runs := w.runs[id := Run(org, token, "dispatched")])
    case Arrive(p, id, header, body) =>
      if p in w.posts then w else w.(posts := w.posts[p := Post(id, CallbackTokenFrom(header, body), Arrived)])
    case Advance(p, ok) => if p in w.posts then AdvancePost(w, p, ok) else w
    case FailBatch(ids) => w.(runs := map id | id in w.runs :: if id in ids then Cleared(w.runs[id]) else w.runs[id])
    case FailSingle(id) => if id in w.runs then w.(runs := w.runs[id := w.runs[id].(status := "failed")]) else w
    case Expire(id) => if id in w.runs then w.(runs := w.runs[id := Cleared(w.runs[id])]) else w
  }

  function Exec(ls: seq<Label>): World {
    if ls == [] then EMPTY else Step(Exec(ls[..|ls| - 1]), ls[|ls| - 1])
  }

  // ---------------------------------------------------------------- the invariant

  /** How far past token consumption a post is; 0 is not past it. */
  function Rank(phase: Phase): nat {
    match phase
    case Consumed => 1
    case Errored(consumed) => if consumed then 1 else 0
    case Resulted => 2
    case Recorded => 3
    case Finished => 4
    case _ => 0
  }

  predicate Past(post: Post) {
    Rank(post.phase) > 0
  }

  function KindRank(k: Kind): nat {
    match k
    case ResultWrite => 1
    case RecordChange => 2
    case ModuleProvenance => 3
  }

  /** What a post knows about its run: who authenticated presented a token and names a run with
      an organization; who is past consumption left the run without a token. */
  ghost predicate PostOk(runs: map<Id, Run>, post: Post) {
    && (post.phase.Authenticated? || Past(post) ==> post.presented != "" && post.run in runs && !Blank(runs[post.run].org))
    && (post.phase.Authenticated? ==> post.phase.token == post.presented)
    && (Past(post) ==> runs[post.run].token == "")
  }

  ghost predicate PostsOk(w: World) {
    forall p :: p in w.posts ==> PostOk(w.runs, w.posts[p])
  }

  ghost predicate OneConsumer(w: World) {
    forall p, q :: p in w.posts && q in w.posts && Past(w.posts[p]) && Past(w.posts[q]) && w.posts[p].run == w.posts[q].run
                   ==> p == q
  }

  ghost predicate EffectOk(w: World, e: Effect) {
    e.post in w.posts && w.posts[e.post].run == e.run && Rank(w.posts[e.post].phase) > KindRank(e.kind)
  }

  ghost predicate LogOk(w: World) {
    && (forall i :: 0 <= i < |w.log| ==> EffectOk(w, w.log[i]))
    && (forall i, j :: 0 <= i < j < |w.log| ==> w.log[i] != w.log[j])
  }

  ghost predicate Inv(w: World) {
    PostsOk(w) && OneConsumer(w) && LogOk(w)
  }

  /** No step gives an existing run a token or another organization. */
  ghost predicate OnlyClears(a: map<Id, Run>, b: map<Id, Run>) {
    forall id :: id in a ==> id in b && b[id].org == a[id].org && (b[id].token == a[id].token || b[id].token == "")
  }

  lemma RunsStep(w: World, runs: map<Id, Run>)
    requires Inv(w) && OnlyClears(w.runs, runs)
    ensures Inv(w.(runs := runs))
  {
  }

  lemma PhaseStep(w: World, p: nat, phase: Phase)
    requires Inv(w) && p in w.posts && PostOk(w.runs, w.posts[p].(phase := phase))
    requires Rank(phase) >= Rank(w.posts[p].phase) && (Rank(phase) > 0 ==> Past(w.posts[p]))
    ensures Inv(SetPhase(w, p, phase))
  {
    var v := SetPhase(w, p, phase);
    assert forall q :: q in v.posts ==> v.posts[q].run == w.posts[q].run && (Past(v.posts[q]) ==> Past(w.posts[q]));
    assert forall e :: EffectOk(w, e) ==> EffectOk(v, e);
  }

  lemma EffectStep(w: World, p: nat, kind: Kind, phase: Phase)
    requires Inv(w) && p in w.posts && Rank(w.posts[p].phase) == KindRank(kind) && Rank(phase) == KindRank(kind) + 1
    ensures Inv(WithEffect(w, p, kind, phase))
  {
    PhaseStep(w, p, phase);
    var v, e := SetPhase(w, p, phase), Effect(kind, w.posts[p].run, p);
    assert forall i :: 0 <= i < |w.log| ==> w.log[i] != e by {
      forall i | 0 <= i < |w.log| ensures w.log[i] != e { assert EffectOk(w, w.log[i]); }
    }
    assert EffectOk(v, e);
    assert forall x :: EffectOk(v, x) ==> EffectOk(WithEffect(w, p, kind, phase), x);
  }

  lemma ConsumeStep(w: World, p: nat, token: string)
    requires Inv(w) && p in w.posts && w.posts[p].phase == Authenticated(token)
    ensures Inv(Consume(w, p, token))
  {
    var id := w.posts[p].run;
    if token != "" && w.runs[id].token == token {
      var v := Consume(w, p, token);
      RunsStep(w, v.runs);
      assert forall q :: q in w.posts && w.posts[q].run == id ==> !Past(w.posts[q]);
      assert forall q :: q in v.posts && q != p ==> v.posts[q] == w.posts[q];
      assert PostsOk(v) && OneConsumer(v);
      assert forall e :: EffectOk(w, e) ==> EffectOk(v, e);
    } else {
      PhaseStep(w, p, AlreadyProcessed);
    }
  }

  lemma AdvanceStep(w: World, p: nat, ok: bool)
    requires Inv(w) && p in w.posts
    ensures Inv(AdvancePost(w, p, ok))
  {
    assert PostOk(w.runs, w.posts[p]);
    match w.posts[p].phase
    case Arrived =>
      PhaseStep(w, p, Unauthorized);
      if w.posts[p].run in w.runs && AuthenticateCallback(w.posts[p].run, w.runs[w.posts[p].run], w.posts[p].presented) != Within({}) {
        PhaseStep(w, p, Authenticated(w.runs[w.posts[p].run].token));
      }
    case Authenticated(token) =>
      if ok { ConsumeStep(w, p, token); } else { PhaseStep(w, p, Errored(false)); }
    case Consumed =>
      if ok { EffectStep(w, p, ResultWrite, Resulted); } else { PhaseStep(w, p, Errored(true)); }
    case Resulted =>
      if ok { EffectStep(w, p, RecordChange, Recorded); } else { PhaseStep(w, p, Recorded); }
    case Recorded =>
      if ok { EffectStep(w, p, ModuleProvenance, Finished); } else { PhaseStep(w, p, Finished); }
    case _ =>
  }

  lemma ArriveStep(w: World, p: nat, post: Post)
    requires Inv(w) && p !in w.posts && post.phase == Arrived
    ensures Inv(w.(posts := w.posts[p := post]))
  {
    var v := w.(posts := w.posts[p := post]);
    assert forall q :: q in w.posts ==> v.posts[q] == w.posts[q];
    assert forall e :: EffectOk(w, e) ==> EffectOk(v, e);
  }

  lemma StepInv(w: World, l: Label)
    requires Inv(w)
    ensures Inv(Step(w, l)) && OnlyClears(w.runs, Step(w, l).runs)
  {
    match l
    case Arrive(p, id, header, body) =>
      if p !in w.posts { ArriveStep(w, p, Post(id, CallbackTokenFrom(header, body), Arrived)); }
    case Advance(p, ok) => if p in w.posts { AdvanceStep(w, p, ok); }
    case _ => RunsStep(w, Step(w, l).runs);
  }

  lemma {:induction false} ExecInv(ls: seq<Label>)
    ensures Inv(Exec(ls))
  {
    if ls != [] {
      ExecInv(ls[..|ls| - 1]);
      StepInv(Exec(ls[..|ls| - 1]), ls[|ls| - 1]);
    }
  }

  // ---------------------------------------------------------------- what it says

  /** Over every interleaving of posts to a run, dispatches and failures: at most one post gets
      past consumption, no kind of effect happens twice for a run, and who got past consumption
      presented a non-empty token to a run that has an organization. */
  lemma AppliedAtMostOnce(ls: seq<Label>)
    ensures var w := Exec(ls);
            && OneConsumer(w)
            && (forall i, j :: 0 <= i < j < |w.log| ==> w.log[i].run != w.log[j].run || w.log[i].kind != w.log[j].kind)
            && (forall i :: 0 <= i < |w.log| ==> w.log[i].post in w.posts && Past(w.posts[w.log[i].post]))
            && (forall p :: p in w.posts && Past(w.posts[p]) ==>
                  w.posts[p].presented != "" && w.posts[p].run in w.runs && !Blank(w.runs[w.posts[p].run].org))
  {
    ExecInv(ls);
    var w := Exec(ls);
    forall i, j | 0 <= i < j < |w.log| ensures w.log[i].run != w.log[j].run || w.log[i].kind != w.log[j].kind {
      assert EffectOk(w, w.log[i]) && EffectOk(w, w.log[j]);
    }
    forall i | 0 <= i < |w.log| ensures w.log[i].post in w.posts && Past(w.posts[w.log[i].post]) {
      assert EffectOk(w, w.log[i]);
    }
    forall p | p in w.posts && Past(w.posts[p])
      ensures w.posts[p].presented != "" && w.posts[p].run in w.runs && !Blank(w.runs[w.posts[p].run].org)
    {
      assert PostOk(w.runs, w.posts[p]);
    }
  }

  lemma ExecSplit(ls: seq<Label>, l: Label)
    ensures Exec(ls + [l]) == Step(Exec(ls), l)
  {
    assert (ls + [l])[..|ls + [l]| - 1] == ls;
  }

  ghost predicate NoNewConsumer(w: World, v: World, id: Id) {
    forall p :: p in v.posts && v.posts[p].run == id && Past(v.posts[p]) ==> p in w.posts && w.posts[p].run == id && Past(w.posts[p])
  }

  lemma NoNewTrans(u: World, w: World, v: World, id: Id)
    requires NoNewConsumer(u, w, id) && NoNewConsumer(w, v, id)
    ensures NoNewConsumer(u, v, id)
  {
  }

  /** Once a run has no token (consumed, failed with its batch, expired), it never has one again,
      and nobody who is not past consumption by then ever will be. */
  lemma {:induction false} ClearedForGood(ls: seq<Label>, more: seq<Label>, id: Id)
    requires id in Exec(ls).runs && Exec(ls).runs[id].token == ""
    ensures var w, v := Exec(ls), Exec(ls + more);
            id in v.runs && v.runs[id].token == "" && NoNewConsumer(w, v, id)
  {
    if more == [] {
      assert ls + more == ls;
    } else {
      var n := |more| - 1;
      ClearedForGood(ls, more[..n], id);
      var mid := Exec(ls + more[..n]);
      assert ls + more == (ls + more[..n]) + [more[n]];
      ExecSplit(ls + more[..n], more[n]);
      ExecInv(ls + more[..n]);
      StepInv(mid, more[n]);
      PastOnlyByToken(mid, more[n], id);
      NoNewTrans(Exec(ls), mid, Step(mid, more[n]), id);
    }
  }

  lemma PastOnlyByToken(w: World, l: Label, id: Id)
    requires Inv(w) && id in w.runs && w.runs[id].token == ""
    ensures NoNewConsumer(w, Step(w, l), id)
  {
    if l.Advance? && l.p in w.posts {
      assert PostOk(w.runs, w.posts[l.p]);
      AdvanceOnly(w, l.p, l.ok);
    }
  }

  /** A post moves alone, and gets past consumption only from having authenticated against a
      token its run still stores. */
  lemma AdvanceOnly(w: World, p: nat, ok: bool)
    requires p in w.posts
    ensures var v := AdvancePost(w, p, ok);
            && v.posts.Keys == w.posts.Keys && v.posts[p].run == w.posts[p].run
            && (forall q :: q in w.posts && q != p ==> v.posts[q] == w.posts[q])
            && (Past(v.posts[p]) && !Past(w.posts[p]) ==>
                  w.posts[p].phase.Authenticated? && w.posts[p].run in w.runs && w.runs[w.posts[p].run].token == w.posts[p].phase.token != "")
  {
  }

  // ---------------------------------------------------------------- failed dispatches

  /** A post that runs its first three steps alone. */
  function PostAlone(w: World, p: nat, id: Id, header: string, body: string): (v: World)
    ensures p in v.posts
  {
    Step(Step(Step(w, Arrive(p, id, header, body)), Advance(p, true)), Advance(p, true))
  }

  /** A post gets past consumption exactly if the run stores what it presented, the trimmed
      header or, if that is blank, the body's token, and the run has an id and an organization. */
  lemma TokenOpens(w: World, p: nat, id: Id, header: string, body: string)
    requires p !in w.posts
    ensures var presented := if Blank(header) then body else TrimSpace(header);
            Past(PostAlone(w, p, id, header, body).posts[p])
            <==> presented != "" && id in w.runs && w.runs[id].token == presented && !Blank(id) && !Blank(w.runs[id].org)
  {
    PastAlone(w, p, id, header, body);
    HeaderFirst(header, body);
  }

  lemma HeaderFirst(header: string, body: string)
    ensures CallbackTokenFrom(header, body) == if Blank(header) then body else TrimSpace(header)
  {
  }

  lemma PastAlone(w: World, p: nat, id: Id, header: string, body: string)
    requires p !in w.posts
    ensures var presented := CallbackTokenFrom(header, body);
            Past(PostAlone(w, p, id, header, body).posts[p])
            <==> presented != "" && id in w.runs && w.runs[id].token == presented && !Blank(id) && !Blank(w.runs[id].org)
  {
    Alone(w, p, id, header, body, CallbackTokenFrom(header, body));
  }

  lemma Alone(w: World, p: nat, id: Id, header: string, body: string, presented: string)
    requires p !in w.posts && presented == CallbackTokenFrom(header, body)
    ensures var a := w.(posts := w.posts[p := Post(id, presented, Arrived)]);
            PostAlone(w, p, id, header, body) ==
            if presented != "" && id in w.runs && w.runs[id].token == presented && !Blank(id) && !Blank(w.runs[id].org)
            then Consume(SetPhase(a, p, Authenticated(presented)), p, presented) else SetPhase(a, p, Unauthorized)
  {
    var a := Step(w, Arrive(p, id, header, body));
    Authenticates(a, p);
  }

  lemma Authenticates(w: World, p: nat)
    requires p in w.posts && w.posts[p].phase == Arrived
    ensures var id, presented := w.posts[p].run, w.posts[p].presented;
            Step(w, Advance(p, true)) ==
            if presented != "" && id in w.runs && w.runs[id].token == presented && !Blank(id) && !Blank(w.runs[id].org)
            then SetPhase(w, p, Authenticated(presented)) else SetPhase(w, p, Unauthorized)
  {
    if w.posts[p].run in w.runs {
      Confers(w.posts[p].run, w.runs[w.posts[p].run], w.posts[p].presented);
    }
  }

  lemma Confers(id: Id, run: Run, presented: string)
    ensures AuthenticateCallback(id, run, presented) != Within({})
            <==> presented != "" && run.token == presented && !Blank(id) && !Blank(run.org)
  {
  }

  /** The three steps after consumption, alone. */
  function AppliedAlone(w: World, p: nat): (v: World)
    requires p in w.posts
    ensures p in v.posts
  {
    Step(Step(Step(w, Advance(p, true)), Advance(p, true)), Advance(p, true))
  }

  lemma AppliesAll(w: World, p: nat)
    requires p in w.posts && w.posts[p].phase == Consumed
    ensures var v, id := AppliedAlone(w, p), w.posts[p].run;
            && v.log == w.log + [Effect(ResultWrite, id, p), Effect(RecordChange, id, p), Effect(ModuleProvenance, id, p)]
            && v.runs == w.runs && v.posts[p].phase == Finished
  {
    var id := w.posts[p].run;
    var a := Step(w, Advance(p, true));
    assert a == WithEffect(w, p, ResultWrite, Resulted);
    var b := Step(a, Advance(p, true));
    assert b == WithEffect(a, p, RecordChange, Recorded);
    var c := Step(b, Advance(p, true));
    assert c == WithEffect(b, p, ModuleProvenance, Finished);
  }

  /** A post past consumption, let on alone, writes the result, the record and the module
      provenance, in that order; the run is left without its token and otherwise as it was. */
  lemma PostApplies(w: World, p: nat, id: Id, header: string, body: string)
    requires p !in w.posts && Past(PostAlone(w, p, id, header, body).posts[p])
    ensures var v := AppliedAlone(PostAlone(w, p, id, header, body), p);
            && v.log == w.log + [Effect(ResultWrite, id, p), Effect(RecordChange, id, p), Effect(ModuleProvenance, id, p)]
            && v.runs == w.runs[id := w.runs[id].(token := "")] && v.posts[p].phase == Finished
  {
    TokenOpens(w, p, id, header, body);
    ConsumesAlone(w, p, id, header, body);
    AppliesAll(PostAlone(w, p, id, header, body), p);
  }

  lemma ConsumesAlone(w: World, p: nat, id: Id, header: string, body: string)
    requires p !in w.posts && Past(PostAlone(w, p, id, header, body).posts[p]) && id in w.runs
    ensures var c := PostAlone(w, p, id, header, body);
            c.posts[p].phase == Consumed && c.posts[p].run == id && c.log == w.log && c.runs == w.runs[id := w.runs[id].(token := "")]
  {
    var a := Step(w, Arrive(p, id, header, body));
    assert a == w.(posts := w.posts[p := Post(id, CallbackTokenFrom(header, body), Arrived)]);
    var b := Step(a, Advance(p, true));
    assert b.runs == w.runs && b.log == w.log;
  }

  /** Failing a batch, or expiring, takes the token of a still-dispatched run away; failing a
      single run does not: a callback that knows its token is still accepted afterwards. */
  lemma FailureAndTokens(w: World, p: nat, id: Id)
    requires p !in w.posts && id in w.runs && !Blank(id) && !Blank(w.runs[id].org) && w.runs[id].status == "dispatched"
    requires w.runs[id].token != "" && TrimSpace(w.runs[id].token) == w.runs[id].token
    ensures var t := w.runs[id].token;
            && (forall body :: !Past(PostAlone(Step(w, FailBatch({id})), p, id, t, body).posts[p]))
            && (forall body :: !Past(PostAlone(Step(w, Expire(id)), p, id, t, body).posts[p]))
            && Past(PostAlone(Step(w, FailSingle(id)), p, id, t, "").posts[p])
            && Past(PostAlone(Step(w, FailSingle(id)), p, id, "", t).posts[p])
  {
    var t := w.runs[id].token;
    forall body ensures !Past(PostAlone(Step(w, FailBatch({id})), p, id, t, body).posts[p])
                ensures !Past(PostAlone(Step(w, Expire(id)), p, id, t, body).posts[p])
    {
      TokenOpens(Step(w, FailBatch({id})), p, id, t, body);
      TokenOpens(Step(w, Expire(id)), p, id, t, body);
    }
    TokenOpens(Step(w, FailSingle(id)), p, id, t, "");
    TokenOpens(Step(w, FailSingle(id)), p, id, "", t);
  }

  /** What each of them does to the runs: expiring is failing a batch of one, a batch fails run by
      run, and only a still-dispatched run is touched. */
  lemma FailureMeans(w: World, ids: set<Id>, id: Id)
    ensures id in w.runs && w.runs[id].status == "dispatched" ==>
              Step(w, Expire(id)).runs == w.runs[id := w.runs[id].(status := "failed", token := "")]
    ensures id !in w.runs || w.runs[id].status != "dispatched" ==> Step(w, Expire(id)).runs == w.runs
    ensures Step(w, FailBatch({})).runs == w.runs
    ensures Step(w, FailBatch(ids + {id})).runs == Step(Step(w, FailBatch(ids)), Expire(id)).runs
    ensures Step(w, FailSingle(id)).runs == if id in w.runs then w.runs[id := w.runs[id].(status := "failed")] else w.runs
  {
  }
}
