/** What holds in every state that a run of the operator can reach: numbering of ChangePods,
    exclusivity of batches, and the fate of an interrupted initialisation. */
module Batches {
  import opened PodSummaries
  import opened Protocol
  import opened Safety

  /** The numbers of the ChangePods are exactly 1..n and only number n may be in ExecuteInit, so
      there is never more than one such ChangePod.  This holds with any number of workload
      handlers deciding on arbitrarily old ChangePod lists, and with crashes anywhere. */
  lemma NumberingTheorem(t: State)
    requires Reachable(t)
    ensures forall i :: i in t.cps <==> 1 <= i <= |t.cps|
    ensures forall i, j :: i in t.cps && j in t.cps && t.cps[i].Init() && t.cps[j].Init() ==> i == j == |t.cps|
  {
    ReachableInv(t);
  }

  /** Batch exclusivity through crashes: no pod is recorded in two ChangePods or twice in one;
      every live pod of a ChangePod that has left ExecuteInit carries the defence label; every live
      pod with the label is recorded in exactly one ChangePod. */
  lemma ExclusivityTheorem(t: State)
    requires Reachable(t)
    ensures forall i :: i in t.cps ==> DistinctNames(t.cps[i].podInfos)
    ensures forall p, i, j :: RecordedIn(t, p, i) && RecordedIn(t, p, j) ==> i == j
    ensures forall p, i :: RecordedIn(t, p, i) && !t.cps[i].Init() && p in t.pods ==> t.pods[p].defensed
    ensures forall p :: p in t.pods && t.pods[p].defensed ==> exists i :: RecordedIn(t, p, i)
  {
    ReachableInv(t);
    forall p | p in t.pods && t.pods[p].defensed ensures exists i :: RecordedIn(t, p, i) {
      assert Recorded(t, p);
    }
  }

  // ---------------------------------------------------------------- settled records are permanent

  lemma HistoryStep(s: State, step: Step)
    requires Enabled(s, step)
    ensures s.history <= Apply(s, step).history
  {
  }

  lemma {:induction false} HistoryGrows(s: State, steps: seq<Step>, t: State)
    requires CarefulRun(s, steps, t)
    ensures s.history <= t.history
    decreases |steps|
  {
    if steps != [] {
      HistoryStep(s, steps[0]);
      HistoryGrows(Apply(s, steps[0]), steps[1..], t);
    }
  }

  /** Whatever a handler ever read stays consistent with the store for the rest of the run. */
  lemma PastIsSeen(s: State, steps: seq<Step>, t: State, n: nat)
    requires Inv(s) && CarefulRun(s, steps, t) && n in s.cps
    ensures Seen(t, n, s.cps[n])
  {
    RunKeepsInv(s, steps, t);
    HistoryGrows(s, steps, t);
    var k := |s.history| - 1;
    assert t.history[k] == s.history[k] == s.cps;
  }

  /** Once a batch is recorded it is never changed and its ChangePod never deleted. */
  lemma RecordsArePermanent(s: State, steps: seq<Step>, t: State, n: nat)
    requires Reachable(s) && CarefulRun(s, steps, t) && n in s.cps && s.cps[n].Settled()
    ensures n in t.cps && t.cps[n].podInfos == s.cps[n].podInfos
  {
    ReachableInv(s);
    PastIsSeen(s, steps, t, n);
  }

  // ---------------------------------------------------------------- interrupted initialisation

  /** A write in flight that can still move the recorded batch of `n` out of ExecuteInit: the final status
      write, or the labelling in front of it if all pods left to label are there. */
  ghost predicate CanFinish(s: State, n: nat, op: Op)
    requires n in s.cps
  {
    match op
    case LabelOp(m, read, todo, finish) =>
      m == n && finish && read.rv == s.cps[n].rv && forall p :: p in todo ==> p in s.pods
    case StatusOp(m, read, _) => m == n && read.rv == s.cps[n].rv
    case _ => false
  }

  ghost predicate InFlight(s: State, n: nat)
    requires n in s.cps
  {
    exists op :: op in s.pending && CanFinish(s, n, op)
  }

  /** The pods of `n` are recorded, and it is still in ExecuteInit. */
  predicate RecordedInit(s: State, n: nat) {
    n in s.cps && s.cps[n].Init() && s.cps[n].podInfos != []
  }

  /** The handler that recorded the pods of `n` did not survive, or a pod it has to label is gone. */
  ghost predicate Interrupted(s: State, n: nat) {
    RecordedInit(s, n) && !InFlight(s, n)
  }

  /** The set of ChangePods, and the ChangePod `n`, are as they were; pods that were gone are still gone. */
  ghost predicate Stuck(s: State, t: State, n: nat) {
    && n in s.cps && t.cps.Keys == s.cps.Keys && t.cps[n] == s.cps[n]
    && (forall p :: p in t.pods && p in s.used ==> p in s.pods)
  }

  /** The pods that labelling writes for `n` name have been used. */
  ghost predicate TodoUsed(s: State, n: nat) {
    forall op, p :: op in s.pending && op.LabelOp? && op.num == n && p in op.todo ==> p in s.used
  }

  lemma TodoIsUsed(s: State, n: nat)
    requires Inv(s)
    ensures TodoUsed(s, n)
  {
    forall op, p | op in s.pending && op.LabelOp? && op.num == n && p in op.todo ensures p in s.used {
      assert OpOk(s, op);
      assert p in NamesOf(op.read.podInfos);
      assert RecordedIn(s, p, n);
    }
  }

  lemma StillGone(s: State, t: State, n: nat, op: Op)
    requires n in s.cps && Stuck(s, t, n) && TodoUsed(s, n) && op in s.pending && CanFinish(t, n, op)
    ensures CanFinish(s, n, op)
  {
  }

  lemma InterruptedCarry(s: State, t: State, n: nat)
    requires Interrupted(s, n) && Stuck(s, t, n) && TodoUsed(s, n)
    requires forall op :: op in t.pending && op !in s.pending ==> !CanFinish(t, n, op)
    ensures Interrupted(t, n)
  {
    forall op | op in t.pending ensures !CanFinish(t, n, op) {
      if op in s.pending && CanFinish(t, n, op) {
        StillGone(s, t, n, op);
        assert false;
      }
    }
  }

  lemma InterruptedExec(s: State, op: Op, n: nat)
    requires Inv(s) && op in s.pending && CarefulStep(s, Exec(op)) && Interrupted(s, n)
    ensures Stuck(s, Execute(Consume(s, op), op), n) && Interrupted(Execute(Consume(s, op), op), n)
  {
    assert OpOk(s, op) && !CanFinish(s, n, op);
    TodoIsUsed(s, n);
    match op
    case CreateOp(_, _) => CreateIsCompareAndSwap(s, op); InterruptedCarry(s, Consume(s, op), n);
    case SpecOp(m, read, _) => InterruptedSpec(s, op, n);
    case LabelOp(_, _, _, _) => InterruptedLabel(s, op, n);
    case StatusOp(_, _, _) => InterruptedStatus(s, op, n);
    case DeleteOp(m, read) => assert m !in s.cps; InterruptedCarry(s, Consume(s, op), n);
    case PatchOp(_, _, _, _) => InterruptedPatch(s, op, n);
  }

  /** There is no other ChangePod left whose batch could be recorded. */
  lemma InterruptedSpec(s: State, op: Op, n: nat)
    requires OnlyTopInit(s.cps) && TodoUsed(s, n) && op in s.pending && op.SpecOp? && OpOk(s, op) && Interrupted(s, n)
    ensures var t := ExecSpec(Consume(s, op), op.num, op.read, op.batch); Stuck(s, t, n) && Interrupted(t, n)
  {
    assert !Matches(s, op.num, op.read);
    InterruptedCarry(s, Consume(s, op), n);
  }

  lemma InterruptedStatus(s: State, op: Op, n: nat)
    requires TodoUsed(s, n) && op in s.pending && op.StatusOp? && Interrupted(s, n)
    ensures var t := ExecStatus(Consume(s, op), op.num, op.read, op.status); Stuck(s, t, n) && Interrupted(t, n)
  {
    assert !CanFinish(s, n, op);
    InterruptedCarry(s, ExecStatus(Consume(s, op), op.num, op.read, op.status), n);
  }

  lemma InterruptedPatch(s: State, op: Op, n: nat)
    requires TodoUsed(s, n) && op in s.pending && op.PatchOp? && OpOk(s, op) && Interrupted(s, n)
    ensures var t := ExecPatch(Consume(s, op), op.num, op.phase, op.results); Stuck(s, t, n) && Interrupted(t, n)
  {
    InterruptedCarry(s, ExecPatch(Consume(s, op), op.num, op.phase, op.results), n);
  }

  /** A labelling that cannot finish stays one: a pod that is gone stays in what is left to do. */
  lemma InterruptedLabel(s: State, op: Op, n: nat)
    requires TodoUsed(s, n) && op in s.pending && op.LabelOp? && Interrupted(s, n)
    ensures var t := ExecLabel(Consume(s, op), op.num, op.read, op.todo, op.finish); Stuck(s, t, n) && Interrupted(t, n)
  {
    assert !CanFinish(s, n, op);
    var t := ExecLabel(Consume(s, op), op.num, op.read, op.todo, op.finish);
    if op.todo != [] {
      assert forall p :: p in op.todo ==> p == op.todo[0] || p in op.todo[1..];
    }
    InterruptedCarry(s, t, n);
  }

  lemma InterruptedIssue(s: State, op: Op, n: nat)
    requires Interrupted(s, n) && !CanFinish(s, n, op)
    ensures Stuck(s, Issue(s, op), n) && Interrupted(Issue(s, op), n)
  {
    var t := Issue(s, op);
    forall o | o in t.pending ensures !CanFinish(t, n, o) {
      assert CanFinish(t, n, o) ==> CanFinish(s, n, o);
    }
  }

  /** A status write decided on a ChangePod past ExecuteInit is not about the stuck one. */
  lemma StatusWriteElsewhere(s: State, m: nat, read: ChangePod, st: Status, n: nat)
    requires Seen(s, m, read) && !read.Init() && Interrupted(s, n)
    ensures !CanFinish(s, n, StatusOp(m, read, st))
  {
  }

  lemma InterruptedRead(s: State, step: Step, n: nat)
    requires Versions(s) && Enabled(s, step) && Interrupted(s, n)
    requires step.Turn? || step.Sweep?
    ensures Stuck(s, Apply(s, step), n) && Interrupted(Apply(s, step), n)
  {
    var read := s.history[step.snapshot][step.num];
    ReadIsSeen(s, step.snapshot, step.num);
    var st := if step.Turn? then Advance(read.status, step.reply, s.now).value else Expire(read.status, s.now).value;
    StatusWriteElsewhere(s, step.num, read, st, n);
    InterruptedIssue(s, StatusOp(step.num, read, st), n);
  }

  lemma InterruptedPlan(s: State, step: Step, n: nat)
    requires Enabled(s, step) && Interrupted(s, n)
    requires step.Decide? || step.InitTurn? || step.Receive?
    ensures Stuck(s, Apply(s, step), n) && Interrupted(Apply(s, step), n)
  {
    match step
    case InitTurn(k, m, order) => InterruptedIssue(s, InitPlan(s.cfg, s.pods, m, s.history[k][m], order), n);
    case Receive(k, m, stage, v, msg) => InterruptedIssue(s, CallbackPatch(m, s.history[k][m], stage, v, msg).value, n);
    case Decide(k, b) => InterruptedIssue(s, CreateOp(|s.history[k]|, b), n);
  }

  lemma InterruptedStep(s: State, step: Step, n: nat)
    requires Inv(s) && Enabled(s, step) && CarefulStep(s, step) && Interrupted(s, n)
    ensures Stuck(s, Apply(s, step), n) && Interrupted(Apply(s, step), n)
  {
    if step.Exec? {
      InterruptedExec(s, step.op, n);
    } else if step.Turn? || step.Sweep? {
      InterruptedRead(s, step, n);
    } else if step.Decide? || step.InitTurn? || step.Receive? {
      InterruptedPlan(s, step, n);
    } else {
      TodoIsUsed(s, n);
      InterruptedCarry(s, Apply(s, step), n);
    }
  }

  /** An interrupted initialisation blocks the workload for good: its ChangePod stays in
      ExecuteInit, unchanged, and no ChangePod is ever created again.  The reconciler labels
      the recorded pods when it meets such a ChangePod, but does not move it on. */
  lemma {:induction false} InterruptedInitBlocksForever(s: State, steps: seq<Step>, t: State, n: nat)
    requires Inv(s) && CarefulRun(s, steps, t) && Interrupted(s, n)
    ensures t.cps.Keys == s.cps.Keys && t.cps[n] == s.cps[n] && t.cps[n].Init()
    decreases |steps|
  {
    if steps != [] {
      InterruptedStep(s, steps[0], n);
      StepKeepsInv(s, steps[0]);
      InterruptedInitBlocksForever(Apply(s, steps[0]), steps[1..], t, n);
    }
  }

  // ---------------------------------------------------------------- when the batch still gets out

  ghost predicate LeavesInit(s: State, n: nat) {
    exists steps, t :: CarefulRun(s, steps, t) && n in t.cps && !t.cps[n].Init()
  }

  lemma LeavesInitLater(s: State, step: Step, n: nat)
    requires Enabled(s, step) && CarefulStep(s, step) && LeavesInit(Apply(s, step), n)
    ensures LeavesInit(s, n)
  {
    var steps, t :| CarefulRun(Apply(s, step), steps, t) && n in t.cps && !t.cps[n].Init();
    var all := [step] + steps;
    assert all[0] == step && all[1..] == steps;
    assert CarefulRun(s, all, t);
  }

  lemma StatusFinishes(s: State, n: nat, op: Op)
    requires n in s.cps && op in s.pending && op.StatusOp? && OpOk(s, op) && CanFinish(s, n, op)
    ensures LeavesInit(s, n)
  {
    var t := Apply(s, Exec(op));
    assert Rank(op.status.phase) > 0 && n in t.cps && !t.cps[n].Init();
    assert CarefulRun(t, [], t);
    LeavesInitLater(s, Exec(op), n);
  }

  /** Labelling the pods that are left, and then writing the status. */
  lemma {:induction false} LabelFinishes(s: State, n: nat, op: Op)
    requires Inv(s) && n in s.cps && op in s.pending && op.LabelOp? && CanFinish(s, n, op)
    ensures LeavesInit(s, n)
    decreases |op.todo|
  {
    var step := Exec(op);
    var t := Apply(s, step);
    StepKeepsInv(s, step);
    if op.todo == [] {
      var next := StatusOp(n, op.read, op.read.status.(phase := PreWait));
      assert next in t.pending && OpOk(t, next);
      StatusFinishes(t, n, next);
    } else {
      assert op.todo[0] in op.todo && forall p :: p in op.todo[1..] ==> p in op.todo;
      LabelFinishes(t, n, LabelOp(n, op.read, op.todo[1..], true));
    }
    LeavesInitLater(s, step, n);
  }

  /** When a recorded ChangePod in ExecuteInit can ever leave it: exactly when its final status write is in
      flight, or the labelling that leads to it and every pod left to label is still there. */
  lemma RecordedBatchLeavesExactly(s: State, n: nat)
    requires Reachable(s) && RecordedInit(s, n)
    ensures LeavesInit(s, n) <==> InFlight(s, n)
  {
    ReachableInv(s);
    if InFlight(s, n) {
      var op :| op in s.pending && CanFinish(s, n, op);
      if op.StatusOp? {
        assert OpOk(s, op);
        StatusFinishes(s, n, op);
      } else {
        LabelFinishes(s, n, op);
      }
    } else if LeavesInit(s, n) {
      var steps, t :| CarefulRun(s, steps, t) && n in t.cps && !t.cps[n].Init();
      InterruptedInitBlocksForever(s, steps, t, n);
      assert false;
    }
  }
}
