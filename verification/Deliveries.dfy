/** What becomes of a callback's verdict: it is stored with every recorded pod, and no other verdict ever is. */
module Deliveries {
  import opened PodSummaries
  import opened Protocol
  import opened Lifecycle
  import opened Verdicts

  // ---------------------------------------------------------------- one callback

  /** Every recorded pod gets one result, with this verdict and message. */
  ghost predicate Says(infos: seq<PodSummary>, results: seq<PodSummary>, v: string, m: string) {
    && |results| == |infos|
    && forall i :: 0 <= i < |infos| ==> results[i] == infos[i].(verdict := v, message := m)
  }

  /** What a callback makes of the ChangePod it read.  A PRE callback moves it on whatever it says; a POST
      callback stores its verdict.  All other fields stay. */
  ghost predicate Delivered(cp: ChangePod, cp': ChangePod, stage: Stage, v: string, m: string) {
    && cp'.podInfos == cp.podInfos
    && match stage
       case Pre => cp'.status == cp.status.(phase := PostWait)
       case Post =>
         && Says(cp.podInfos, cp'.status.podResults, v, m)
         && cp'.status == cp.status.(phase := PostFinish, podResults := cp'.status.podResults)
  }

  /** The phase in which a callback is taken. */
  function Awaited(stage: Stage): Phase {
    match stage
    case Pre => PreSubmitted
    case Post => PostSubmitted
  }

  /** A ChangePod is changed as the callback says, and nothing else. */
  ghost predicate DeliveredTo(s: State, t: State, n: nat, stage: Stage, v: string, m: string) {
    && n in s.cps && t.cps.Keys == s.cps.Keys && t.pods == s.pods
    && (forall i :: i in s.cps && i != n ==> t.cps[i] == s.cps[i])
    && Delivered(s.cps[n], t.cps[n], stage, v, m)
  }

  lemma PatchDelivers(s: State, n: nat, stage: Stage, v: string, m: string)
    requires n in s.cps
    ensures CallbackPatch(n, s.cps[n], stage, v, m).Some? <==> s.cps[n].status.phase == Awaited(stage)
    ensures var patch := CallbackPatch(n, s.cps[n], stage, v, m);
            patch.Some? ==> DeliveredTo(s, Execute(s, patch.value), n, stage, v, m)
  {
  }

  /** In the protocol: a callback that reads the stored ChangePod plans a patch exactly in the phase it waits
      for, and the patch, executed on the version read, delivers what the callback says. */
  lemma CallbackDelivers(s: State, k: nat, n: nat, stage: Stage, v: string, m: string)
    requires ReadsFrom(s, k, n) && n in s.cps && s.history[k][n] == s.cps[n]
    ensures Enabled(s, Receive(k, n, stage, v, m)) <==> s.cps[n].status.phase == Awaited(stage)
    ensures Enabled(s, Receive(k, n, stage, v, m)) ==>
              exists op :: Apply(s, Receive(k, n, stage, v, m)) == Issue(s, op)
                           && DeliveredTo(s, Execute(s, op), n, stage, v, m)
  {
    PatchDelivers(s, n, stage, v, m);
    if Enabled(s, Receive(k, n, stage, v, m)) {
      var op := CallbackPatch(n, s.cps[n], stage, v, m).value;
      assert Apply(s, Receive(k, n, stage, v, m)) == Issue(s, op);
    }
  }

  // ---------------------------------------------------------------- what has been said along a run

  /** A POST callback for a ChangePod, with its verdict and message. */
  datatype PostCall = PostCall(num: nat, verdict: string, message: string)

  ghost predicate IsPost(step: Step) { step.Receive? && step.stage.Post? }

  ghost function Posts(steps: seq<Step>): set<PostCall> {
    set i | 0 <= i < |steps| && IsPost(steps[i]) :: PostCall(steps[i].num, steps[i].verdict, steps[i].message)
  }

  ghost predicate AllSay(results: seq<PodSummary>, v: string, m: string) {
    forall x :: x in results ==> x.verdict == v && x.message == m
  }

  /** The results are those of one of the callbacks. */
  ghost predicate Told(n: nat, results: seq<PodSummary>, posts: set<PostCall>) {
    results == [] || exists post :: post in posts && post.num == n && AllSay(results, post.verdict, post.message)
  }

  ghost predicate ToldStore(cps: ChangePods, posts: set<PostCall>) {
    forall n :: n in cps ==> Told(n, cps[n].status.podResults, posts)
  }

  ghost predicate ToldOp(op: Op, posts: set<PostCall>) {
    match op
    case LabelOp(n, read, _, _) => Told(n, read.status.podResults, posts)
    case StatusOp(n, _, status) => Told(n, status.podResults, posts)
    case PatchOp(n, _, _, results) => results.Some? ==> Told(n, results.value, posts)
    case _ => true
  }

  ghost predicate ToldState(s: State, posts: set<PostCall>) {
    && ToldStore(s.cps, posts)
    && (forall k :: 0 <= k < |s.history| ==> ToldStore(s.history[k], posts))
    && (forall op :: op in s.pending ==> ToldOp(op, posts))
  }

  lemma PutTold(s: State, n: nat, cp: ChangePod, posts: set<PostCall>)
    requires ToldState(s, posts) && Told(n, cp.status.podResults, posts)
    ensures ToldState(Put(s, n, cp), posts)
  {
    var t := Put(s, n, cp);
    assert ToldStore(t.cps, posts);
    forall k | 0 <= k < |t.history| ensures ToldStore(t.history[k], posts) {
      assert k < |s.history| ==> t.history[k] == s.history[k];
    }
  }

  lemma DeleteTold(s: State, n: nat, posts: set<PostCall>)
    requires ToldState(s, posts)
    ensures ToldState(ExecDelete(s, n), posts)
  {
    var t := ExecDelete(s, n);
    assert ToldStore(t.cps, posts);
    forall k | 0 <= k < |t.history| ensures ToldStore(t.history[k], posts) {
      assert k < |s.history| ==> t.history[k] == s.history[k];
    }
  }

  lemma IssueTold(s: State, op: Op, posts: set<PostCall>)
    requires ToldState(s, posts) && ToldOp(op, posts)
    ensures ToldState(Issue(s, op), posts)
  {
  }

  lemma LabelTold(s: State, op: Op, posts: set<PostCall>)
    requires ToldState(s, posts) && op.LabelOp? && ToldOp(op, posts)
    ensures ToldState(ExecLabel(s, op.num, op.read, op.todo, op.finish), posts)
  {
    if op.todo == [] {
      if op.finish {
        IssueTold(s, StatusOp(op.num, op.read, op.read.status.(phase := PreWait)), posts);
      }
    } else if op.todo[0] in s.pods {
      IssueTold(s.(pods := LabelPod(s.pods, op.todo[0])), LabelOp(op.num, op.read, op.todo[1..], op.finish), posts);
    }
  }

  lemma SpecTold(s: State, op: Op, posts: set<PostCall>)
    requires ToldState(s, posts) && op.SpecOp?
    ensures ToldState(ExecSpec(s, op.num, op.read, op.batch), posts)
  {
    if Matches(s, op.num, op.read) {
      var cp := s.cps[op.num].(podInfos := op.batch);
      PutTold(s, op.num, cp, posts);
      IssueTold(Put(s, op.num, cp), LabelOp(op.num, cp.(rv := s.nextRv), PodNames(op.batch), true), posts);
    }
  }

  lemma ExecTold(s: State, op: Op, posts: set<PostCall>)
    requires ToldState(s, posts) && ToldOp(op, posts)
    ensures ToldState(Execute(s, op), posts)
  {
    match op
    case CreateOp(count, _) => PutTold(s, count + 1, ChangePod(0, [], NEW_STATUS), posts);
    case SpecOp(_, _, _) => SpecTold(s, op, posts);
    case LabelOp(_, _, _, _) => LabelTold(s, op, posts);
    case StatusOp(n, _, status) => if n in s.cps { PutTold(s, n, s.cps[n].(status := status), posts); }
    case DeleteOp(n, _) => DeleteTold(s, n, posts);
    case PatchOp(n, _, phase, results) =>
      if n in s.cps { PutTold(s, n, s.cps[n].(status := Patched(s.cps[n].status, phase, results)), posts); }
  }

  /** A callback plans to store what it says; nobody else plans results of their own. */
  lemma ReceiveTold(s: State, step: Step, posts: set<PostCall>)
    requires ToldState(s, posts) && Enabled(s, step) && step.Receive?
    requires IsPost(step) ==> PostCall(step.num, step.verdict, step.message) in posts
    ensures ToldState(Apply(s, step), posts)
  {
    var read := s.history[step.snapshot][step.num];
    var op := CallbackPatch(step.num, read, step.stage, step.verdict, step.message).value;
    if op.results.Some? {
      assert AllSay(op.results.value, step.verdict, step.message);
      assert Told(step.num, op.results.value, posts);
    }
    IssueTold(s, op, posts);
  }

  lemma ReadTold(s: State, step: Step, posts: set<PostCall>)
    requires ToldState(s, posts) && Enabled(s, step)
    requires step.Decide? || step.InitTurn? || step.Turn? || step.Sweep?
    ensures ToldState(Apply(s, step), posts)
  {
    match step
    case Decide(k, b) => IssueTold(s, CreateOp(|s.history[k]|, b), posts);
    case InitTurn(k, n, order) =>
      assert ToldStore(s.history[k], posts);
      IssueTold(s, InitPlan(s.cfg, s.pods, n, s.history[k][n], order), posts);
    case Turn(k, n, reply) =>
      assert ToldStore(s.history[k], posts);
      IssueTold(s, StatusOp(n, s.history[k][n], Advance(s.history[k][n].status, reply, s.now).value), posts);
    case Sweep(k, n) =>
      assert ToldStore(s.history[k], posts);
      IssueTold(s, StatusOp(n, s.history[k][n], Expire(s.history[k][n].status, s.now).value), posts);
  }

  lemma StepTold(s: State, step: Step, posts: set<PostCall>)
    requires ToldState(s, posts) && Enabled(s, step)
    requires IsPost(step) ==> PostCall(step.num, step.verdict, step.message) in posts
    ensures ToldState(Apply(s, step), posts)
  {
    match step
    case AddPod(_, _) =>
    case FinishPod(_) =>
    case RemovePod(_) =>
    case Tick =>
    case Exec(op) => ExecTold(Consume(s, op), op, posts);
    case Drop(_) =>
    case Receive(_, _, _, _, _) => ReceiveTold(s, step, posts);
    case _ => ReadTold(s, step, posts);
  }

  lemma {:induction false} RunTold(s: State, steps: seq<Step>, t: State, posts: set<PostCall>)
    requires ToldState(s, posts) && RunsTo(s, steps, t) && Posts(steps) <= posts
    ensures ToldState(t, posts)
    decreases |steps|
  {
    if steps != [] {
      if IsPost(steps[0]) {
        assert PostCall(steps[0].num, steps[0].verdict, steps[0].message) in Posts(steps);
      }
      StepTold(s, steps[0], posts);
      forall post | post in Posts(steps[1..]) ensures post in Posts(steps) {
        var i :| 0 <= i < |steps[1..]| && IsPost(steps[1..][i])
                 && post == PostCall(steps[1..][i].num, steps[1..][i].verdict, steps[1..][i].message);
        assert steps[1..][i] == steps[i + 1];
      }
      RunTold(Apply(s, steps[0]), steps[1..], t, posts);
    }
  }

  // ---------------------------------------------------------------- main results

  /** The stored verdict was delivered: along every careful run, a ChangePod that ended by PostFinish and
      records a pod has had a POST callback in the run, and holds exactly the verdict and message of one of
      them for every recorded pod. */
  lemma VerdictWasDelivered(s: State, steps: seq<Step>, t: State, n: nat) returns (i: nat)
    requires Initial(s) && CarefulRun(s, steps, t) && n in t.cps
    requires Done(t.cps[n]) && t.cps[n].status.message == PostFinish && t.cps[n].podInfos != []
    ensures i < |steps| && IsPost(steps[i]) && steps[i].num == n
    ensures Says(t.cps[n].podInfos, t.cps[n].status.podResults, steps[i].verdict, steps[i].message)
  {
    CarefulRunIsRun(s, steps, t);
    RunTold(s, steps, t, Posts(steps));
    DoneCarriesItsCause(t, n);
    var results := t.cps[n].status.podResults;
    assert results[0] in results;
    var post :| post in Posts(steps) && post.num == n && AllSay(results, post.verdict, post.message);
    i :| 0 <= i < |steps| && IsPost(steps[i])
         && post == PostCall(steps[i].num, steps[i].verdict, steps[i].message);
    forall j | 0 <= j < |results|
      ensures results[j] == t.cps[n].podInfos[j].(verdict := post.verdict, message := post.message)
    {
      assert results[j] in results;
    }
  }

  /** If all POST callbacks of a run bring the same verdict, a ChangePod that ended by PostFinish failed its
      check exactly if that verdict is not "pass" and it records a pod. */
  lemma UniformVerdictDecides(s: State, steps: seq<Step>, t: State, n: nat, v: string)
    requires Initial(s) && CarefulRun(s, steps, t) && n in t.cps
    requires Done(t.cps[n]) && t.cps[n].status.message == PostFinish
    requires forall i :: 0 <= i < |steps| && IsPost(steps[i]) ==> steps[i].verdict == v
    ensures FailedCheck(t.cps[n]) <==> v != "pass" && t.cps[n].podInfos != []
  {
    if t.cps[n].podInfos == [] {
      DoneCarriesItsCause(t, n);
    } else {
      var i := VerdictWasDelivered(s, steps, t, n);
      var results := t.cps[n].status.podResults;
      assert results[0] in results && results[0].verdict == v;
      assert forall x :: x in results ==> x.verdict == v;
    }
  }
}
