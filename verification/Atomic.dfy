/** Handlers that run without interleaving, as functions of the stored state, and the proof that each
    of them is a run of the fine-grained protocol.  An API call may fail: `budget` is the number of
    writes that succeed before the first failure, which ends the handler. */
module Atomic {
  import opened PodSummaries
  import opened Protocol
  import opened Safety

  datatype Labelling = Labelling(pods: map<string, Pod>, left: nat, ok: bool)

  /** Labelling pods one by one; a pod that already has the label costs no write. */
  function LabelRun(pods: map<string, Pod>, todo: seq<string>, budget: nat): Labelling {
    if todo == [] then Labelling(pods, budget, true)
    else if todo[0] !in pods then Labelling(pods, budget, false)
    else if pods[todo[0]].defensed then LabelRun(pods, todo[1..], budget)
    else if budget == 0 then Labelling(pods, 0, false)
    else LabelRun(LabelPod(pods, todo[0]), todo[1..], budget - 1)
  }

  /** One turn of the reconciler for a ChangePod in ExecuteInit. */
  function InitOutcome(s: State, n: nat, order: seq<string>, budget: nat): State
    requires n in s.cps
  {
    match InitPlan(s.cfg, s.pods, n, s.cps[n], order)
    case DeleteOp(_, _) => if budget == 0 then s else ExecDelete(s, n)
    case LabelOp(_, _, todo, _) => s.(pods := LabelRun(s.pods, todo, budget).pods)
    case SpecOp(_, _, batch) => if budget == 0 then s else RecordAndLabel(s, n, batch, budget - 1)
    case _ => s
  }

  function RecordAndLabel(s: State, n: nat, batch: seq<PodSummary>, budget: nat): State
    requires n in s.cps
  {
    var t := Put(s, n, s.cps[n].(podInfos := batch));
    var r := LabelRun(t.pods, PodNames(batch), budget);
    var u := t.(pods := r.pods);
    if r.ok && r.left > 0 then Put(u, n, u.cps[n].(status := u.cps[n].status.(phase := PreWait))) else u
  }

  // ---------------------------------------------------------------- runs of the fine protocol

  lemma RunStep(s: State, steps: seq<Step>, t: State, step: Step)
    requires CarefulRun(s, steps, t) && Enabled(t, step) && CarefulStep(t, step)
    ensures CarefulRun(s, steps + [step], Apply(t, step))
  {
    assert [step][1..] == [];
    CarefulRunAppend(s, steps, t, [step], Apply(t, step));
  }

  /** Labelling from a state in which the label write is the only one in flight. */
  lemma {:induction false} LabelRunIsRun(
    s: State, n: nat, read: ChangePod, todo: seq<string>, finish: bool, budget: nat)
    returns (steps: seq<Step>)
    requires s.pending == multiset{LabelOp(n, read, todo, finish)}
    ensures var r := LabelRun(s.pods, todo, budget);
            CarefulRun(s, steps, s.(pods := r.pods, pending :=
              if r.ok && finish then multiset{StatusOp(n, read, read.status.(phase := PreWait))} else multiset{}))
    decreases |todo|
  {
    var op := LabelOp(n, read, todo, finish);
    var r := LabelRun(s.pods, todo, budget);
    var exec := Exec(op);
    assert s.pending - multiset{op} == multiset{};
    if todo == [] || todo[0] !in s.pods {
      RunStep(s, [], s, exec);
      steps := [] + [exec];
    } else if !s.pods[todo[0]].defensed && budget == 0 {
      RunStep(s, [], s, Drop(op));
      steps := [] + [Drop(op)];
    } else {
      var t := Apply(s, exec);
      assert t.pending == multiset{LabelOp(n, read, todo[1..], finish)};
      var left := if s.pods[todo[0]].defensed then budget else budget - 1;
      assert s.pods[todo[0]].defensed ==> LabelPod(s.pods, todo[0]) == s.pods;
      assert t.pods == LabelPod(s.pods, todo[0]);
      var rest := LabelRunIsRun(t, n, read, todo[1..], finish, left);
      steps := [exec] + rest;
      assert steps[0] == exec && steps[1..] == rest;
    }
  }

  lemma RunJoin(s: State, a: seq<Step>, t: State, b: seq<Step>, u: State) returns (steps: seq<Step>)
    requires CarefulRun(s, a, t) && CarefulRun(t, b, u)
    ensures CarefulRun(s, steps, u)
  {
    CarefulRunAppend(s, a, t, b, u);
    steps := a + b;
  }

  lemma OneStep(s: State, step: Step) returns (steps: seq<Step>)
    requires Enabled(s, step) && CarefulStep(s, step)
    ensures CarefulRun(s, steps, Apply(s, step))
  {
    steps := [step];
    assert steps[1..] == [];
  }

  /** Recording a batch, labelling it and moving on, cut short anywhere, is a run. */
  lemma RecordAndLabelIsRun(s: State, n: nat, batch: seq<PodSummary>, budget: nat) returns (steps: seq<Step>)
    requires n in s.cps && s.pending == multiset{SpecOp(n, s.cps[n], batch)}
    ensures CarefulRun(s, steps, RecordAndLabel(s.(pending := multiset{}), n, batch, budget))
  {
    var op := SpecOp(n, s.cps[n], batch);
    var first := OneStep(s, Exec(op));
    var t := Apply(s, Exec(op));
    var read := t.cps[n];
    assert t.pending == multiset{LabelOp(n, read, PodNames(batch), true)};
    var r := LabelRun(t.pods, PodNames(batch), budget);
    var second := LabelRunIsRun(t, n, read, PodNames(batch), true, budget);
    if r.ok {
      var st := StatusOp(n, read, read.status.(phase := PreWait));
      var u := t.(pods := r.pods, pending := multiset{st});
      assert u.pending - multiset{st} == multiset{};
      var last := OneStep(u, if r.left > 0 then Exec(st) else Drop(st));
      steps := RunJoin(t, second, u, last, RecordAndLabel(s.(pending := multiset{}), n, batch, budget));
    } else {
      steps := second;
    }
    steps := RunJoin(s, first, t, steps, RecordAndLabel(s.(pending := multiset{}), n, batch, budget));
  }

  lemma PlanIsRun(s: State, n: nat, order: seq<string>, budget: nat, t: State) returns (steps: seq<Step>)
    requires n in s.cps && s.cps[n].Init() && s.pending == multiset{}
    requires t == Issue(s, InitPlan(s.cfg, s.pods, n, s.cps[n], order))
    ensures CarefulRun(t, steps, InitOutcome(s, n, order, budget))
  {
    var op := InitPlan(s.cfg, s.pods, n, s.cps[n], order);
    assert t.pending == multiset{op} && t.pending - multiset{op} == multiset{};
    assert s == t.(pending := multiset{});
    if budget == 0 && !op.LabelOp? {
      steps := OneStep(t, Drop(op));
    } else if op.DeleteOp? {
      steps := OneStep(t, Exec(op));
    } else if op.LabelOp? {
      steps := LabelRunIsRun(t, n, op.read, op.todo, false, budget);
    } else {
      steps := RecordAndLabelIsRun(t, n, op.batch, budget - 1);
    }
  }

  /** A turn of the init handler, whatever call fails, is a run of the protocol. */
  lemma InitOutcomeIsRun(s: State, n: nat, order: seq<string>, budget: nat) returns (steps: seq<Step>)
    requires Versions(s) && s.pending == multiset{} && n in s.cps && s.cps[n].Init()
    requires Enumerates(order, s.pods.Keys)
    ensures CarefulRun(s, steps, InitOutcome(s, n, order, budget))
  {
    var turn := InitTurn(|s.history| - 1, n, order);
    var first := OneStep(s, turn);
    var rest := PlanIsRun(s, n, order, budget, Apply(s, turn));
    steps := RunJoin(s, first, Apply(s, turn), rest, InitOutcome(s, n, order, budget));
  }

  // ---------------------------------------------------------------- the other handlers

  /** A write planned on a read at any time and executed at once. */
  lemma WriteIsRun(s: State, read: Step, op: Op) returns (steps: seq<Step>)
    requires Enabled(s, read) && Apply(s, read) == Issue(s, op) && !op.DeleteOp?
    ensures CarefulRun(s, steps, Execute(s, op))
  {
    var t := Apply(s, read);
    assert t.pending - multiset{op} == s.pending;
    assert s == Consume(t, op);
    var first := OneStep(s, read);
    var last := OneStep(t, Exec(op));
    steps := RunJoin(s, first, t, last, Execute(s, op));
  }

  /** Creating the next ChangePod after the guard was found true on the present state. */
  function CreateOutcome(s: State, byThreshold: bool): State {
    if NoInit(s.cps) && ReachesThreshold(s.cfg, s.pods, byThreshold) then ExecCreate(s, |s.cps|, byThreshold) else s
  }

  /** When the guard lets a ChangePod be created: nothing is in ExecuteInit and, for a Running workload,
      `threshold` pods are waiting, else one. */
  ghost predicate StartsBatch(s: State, byThreshold: bool) {
    && (forall m :: m in s.cps ==> s.cps[m].status.phase != ExecuteInit)
    && |UndefensedSet(s.pods)| >= if byThreshold then s.cfg.threshold else 1
  }

  /** Exactly the next ChangePod is there in addition, new and without a batch. */
  ghost predicate OneMore(s: State, t: State, byThreshold: bool) {
    var n := |s.cps| + 1;
    && t.pods == s.pods && t.pending == s.pending && n !in s.cps
    && t.cps.Keys == s.cps.Keys + {n} && (forall m :: m in s.cps ==> t.cps[m] == s.cps[m])
    && t.cps[n] == ChangePod(s.nextRv, [], Status(ExecuteInit, ExecuteInit, [], "", 0, 0, 0, 0))
    && t.origin == s.origin[n := byThreshold]
  }

  lemma CreatedIsOneMore(s: State, byThreshold: bool)
    requires Contiguous(s.cps)
    ensures OneMore(s, ExecCreate(s, |s.cps|, byThreshold), byThreshold)
  {
    assert |s.cps| + 1 !in s.cps;
  }

  lemma GuardExactly(s: State, byThreshold: bool)
    ensures StartsBatch(s, byThreshold) <==> NoInit(s.cps) && ReachesThreshold(s.cfg, s.pods, byThreshold)
  {
  }

  /** The create decision on the present state: one more ChangePod if the guard holds, else nothing. */
  lemma CreateExactly(s: State, byThreshold: bool)
    requires Contiguous(s.cps)
    ensures var t := CreateOutcome(s, byThreshold);
            if StartsBatch(s, byThreshold) then OneMore(s, t, byThreshold) else t == s
  {
    GuardExactly(s, byThreshold);
    CreatedIsOneMore(s, byThreshold);
  }

  lemma CreateOutcomeIsRun(s: State, byThreshold: bool) returns (steps: seq<Step>)
    requires Versions(s)
    ensures CarefulRun(s, steps, CreateOutcome(s, byThreshold))
  {
    if NoInit(s.cps) && ReachesThreshold(s.cfg, s.pods, byThreshold) {
      steps := WriteIsRun(s, Decide(|s.history| - 1, byThreshold), CreateOp(|s.cps|, byThreshold));
    } else {
      steps := [];
    }
  }
}
