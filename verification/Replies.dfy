/** What the answers of the control side lead to: one turn past ExecuteInit, field by field, and whole runs in
    which every notification is accepted, or every one is refused. */
module Replies {
  import opened Protocol
  import opened Timeouts
  import opened Lifecycle
  import opened ReconcilerQueue

  // ---------------------------------------------------------------- one turn

  /** One turn on the stored ChangePod answers it, and touches nothing else. */
  lemma TurnAnswers(s: State, n: nat, order: seq<string>, reply: Reply, budget: nat)
    requires n in s.cps && !s.cps[n].Init()
    ensures var t := TurnOutcome(s, n, order, reply, budget);
            if budget == 0 || !Acts(s.cps[n].status.phase) then t == s
            else
              && t.pods == s.pods && t.pending == s.pending && t.cps.Keys == s.cps.Keys
              && (forall m :: m in s.cps && m != n ==> t.cps[m] == s.cps[m])
              && t.cps[n].podInfos == s.cps[n].podInfos
              && Answered(s.cps[n].status, t.cps[n].status, reply, s.now)
  {
  }

  /** In the protocol a turn that reads the stored ChangePod plans a write exactly in those phases, and the
      write, if it finds the version that was read, answers it. */
  lemma TurnStepAnswers(s: State, k: nat, n: nat, reply: Reply)
    requires ReadsFrom(s, k, n)
    ensures Enabled(s, Turn(k, n, reply)) <==> Acts(s.history[k][n].status.phase)
    ensures Enabled(s, Turn(k, n, reply)) ==>
              exists op :: Apply(s, Turn(k, n, reply)) == Issue(s, op) && Answers(op, n, s.history[k][n], reply, s.now)
  {
    var read := s.history[k][n];
    if Enabled(s, Turn(k, n, reply)) {
      assert Answers(StatusOp(n, read, Advance(read.status, reply, s.now).value), n, read, reply, s.now);
    }
  }

  ghost predicate Answers(op: Op, n: nat, read: ChangePod, reply: Reply, now: int) {
    op.StatusOp? && op.num == n && op.read == read && Answered(read.status, op.status, reply, now)
  }

  // ---------------------------------------------------------------- phases a run stays clear of

  /** Neither in one of the phases nor ended by one. */
  ghost predicate Clear(st: Status, banned: set<Phase>) {
    forall cause :: cause in banned ==> !EndedBy(st, cause)
  }

  ghost predicate ClearOp(op: Op, banned: set<Phase>) {
    match op
    case StatusOp(_, _, status) => Clear(status, banned)
    case PatchOp(_, _, phase, _) => phase != ExecuteDone && phase !in banned
    case _ => true
  }

  ghost predicate ClearStore(cps: ChangePods, banned: set<Phase>) {
    forall n :: n in cps ==> Clear(cps[n].status, banned)
  }

  ghost predicate ClearState(s: State, banned: set<Phase>) {
    && ClearStore(s.cps, banned)
    && (forall k :: 0 <= k < |s.history| ==> ClearStore(s.history[k], banned))
    && (forall op :: op in s.pending ==> ClearOp(op, banned))
  }

  /** The step, if it reads, plans nothing in one of the phases. */
  ghost predicate ClearStep(s: State, step: Step, banned: set<Phase>)
    requires Enabled(s, step)
  {
    forall op :: op in Apply(s, step).pending && op !in s.pending && !step.Exec? ==> ClearOp(op, banned)
  }

  predicate Bannable(banned: set<Phase>) {
    banned !! {ExecuteInit, PreWait, ExecuteDone}
  }

  lemma PutClear(s: State, n: nat, cp: ChangePod, banned: set<Phase>)
    requires ClearState(s, banned) && Clear(cp.status, banned)
    ensures ClearState(Put(s, n, cp), banned)
  {
    var t := Put(s, n, cp);
    assert ClearStore(t.cps, banned);
    forall k | 0 <= k < |t.history| ensures ClearStore(t.history[k], banned) {
      assert k < |s.history| ==> t.history[k] == s.history[k];
    }
  }

  lemma DeleteClear(s: State, n: nat, banned: set<Phase>)
    requires ClearState(s, banned)
    ensures ClearState(ExecDelete(s, n), banned)
  {
    var t := ExecDelete(s, n);
    assert ClearStore(t.cps, banned);
    forall k | 0 <= k < |t.history| ensures ClearStore(t.history[k], banned) {
      assert k < |s.history| ==> t.history[k] == s.history[k];
    }
  }

  lemma LabelClear(s: State, op: Op, banned: set<Phase>)
    requires ClearState(s, banned) && op.LabelOp? && Bannable(banned)
    ensures ClearState(ExecLabel(s, op.num, op.read, op.todo, op.finish), banned)
  {
    var t := ExecLabel(s, op.num, op.read, op.todo, op.finish);
    assert Clear(op.read.status.(phase := PreWait), banned);
    assert t.cps == s.cps && t.history == s.history;
  }

  lemma SpecClear(s: State, op: Op, banned: set<Phase>)
    requires ClearState(s, banned) && op.SpecOp?
    ensures ClearState(ExecSpec(s, op.num, op.read, op.batch), banned)
  {
    if Matches(s, op.num, op.read) {
      PutClear(s, op.num, s.cps[op.num].(podInfos := op.batch), banned);
    }
  }

  lemma ExecClear(s: State, op: Op, banned: set<Phase>)
    requires ClearState(s, banned) && ClearOp(op, banned) && Bannable(banned)
    ensures ClearState(Execute(s, op), banned)
  {
    match op
    case CreateOp(count, _) => PutClear(s, count + 1, ChangePod(0, [], NEW_STATUS), banned);
    case SpecOp(_, _, _) => SpecClear(s, op, banned);
    case LabelOp(_, _, _, _) => LabelClear(s, op, banned);
    case StatusOp(n, _, status) => if n in s.cps { PutClear(s, n, s.cps[n].(status := status), banned); }
    case DeleteOp(n, _) => DeleteClear(s, n, banned);
    case PatchOp(n, _, phase, results) =>
      if n in s.cps { PutClear(s, n, s.cps[n].(status := Patched(s.cps[n].status, phase, results)), banned); }
  }

  lemma StepClear(s: State, step: Step, banned: set<Phase>)
    requires ClearState(s, banned) && Bannable(banned) && Enabled(s, step) && ClearStep(s, step, banned)
    ensures ClearState(Apply(s, step), banned)
  {
    if step.Exec? {
      ExecClear(Consume(s, step.op), step.op, banned);
    }
  }

  // ---------------------------------------------------------------- runs

  ghost predicate AllAccepted(steps: seq<Step>) {
    forall i :: 0 <= i < |steps| && steps[i].Turn? ==> steps[i].reply.Accepted?
  }

  ghost predicate AllRefused(steps: seq<Step>) {
    forall i :: 0 <= i < |steps| && steps[i].Turn? ==> steps[i].reply.Refused?
  }

  const FAILURES := {PreFailed, PostFailed}

  /** All that can follow a submission. */
  const SUBMISSIONS := {PreSubmitted, PreTimeout, PostWait, PostSubmitted, PostFinish, PostTimeout, PostFailed}

  lemma AdvanceAccepted(st: Status, reply: Reply, now: int)
    requires Clear(st, FAILURES) && reply.Accepted? && Advance(st, reply, now).Some?
    ensures Clear(Advance(st, reply, now).value, FAILURES)
  {
    assert EndedBy(st, st.phase);
  }

  lemma AdvanceRefused(st: Status, reply: Reply, now: int)
    requires Clear(st, SUBMISSIONS) && reply.Refused? && Advance(st, reply, now).Some?
    ensures Clear(Advance(st, reply, now).value, SUBMISSIONS)
  {
    assert EndedBy(st, st.phase);
  }

  lemma ExpireAccepted(st: Status, now: int)
    requires Expire(st, now).Some?
    ensures Clear(Expire(st, now).value, FAILURES)
  {
  }

  /** A step that plans no status. */
  lemma NoStatusPlanned(s: State, step: Step, banned: set<Phase>)
    requires Enabled(s, step) && !step.Turn? && !step.Sweep? && !step.Receive?
    ensures ClearStep(s, step, banned)
  {
  }

  lemma PlannedClear(s: State, step: Step, op: Op, banned: set<Phase>)
    requires Enabled(s, step) && Apply(s, step) == Issue(s, op) && ClearOp(op, banned)
    ensures ClearStep(s, step, banned)
  {
  }

  lemma AcceptedClear(s: State, step: Step)
    requires ClearState(s, FAILURES) && Enabled(s, step) && (step.Turn? ==> step.reply.Accepted?)
    ensures ClearStep(s, step, FAILURES)
  {
    match step
    case Turn(k, n, reply) =>
      var st := s.history[k][n].status;
      AdvanceAccepted(st, reply, s.now);
      PlannedClear(s, step, StatusOp(n, s.history[k][n], Advance(st, reply, s.now).value), FAILURES);
    case Sweep(k, n) =>
      var st := s.history[k][n].status;
      ExpireAccepted(st, s.now);
      PlannedClear(s, step, StatusOp(n, s.history[k][n], Expire(st, s.now).value), FAILURES);
    case Receive(k, n, stage, v, m) =>
      PlannedClear(s, step, CallbackPatch(n, s.history[k][n], stage, v, m).value, FAILURES);
    case _ => NoStatusPlanned(s, step, FAILURES);
  }

  /** Nothing to sweep and nothing to call back where nothing is submitted. */
  lemma NeverSubmitted(s: State, step: Step)
    requires ClearState(s, SUBMISSIONS) && Enabled(s, step)
    ensures !step.Sweep? && !step.Receive?
  {
  }

  lemma RefusedClear(s: State, step: Step)
    requires ClearState(s, SUBMISSIONS) && Enabled(s, step) && (step.Turn? ==> step.reply.Refused?)
    ensures ClearStep(s, step, SUBMISSIONS)
  {
    NeverSubmitted(s, step);
    if step.Turn? {
      var read := s.history[step.snapshot][step.num];
      AdvanceRefused(read.status, step.reply, s.now);
      PlannedClear(s, step, StatusOp(step.num, read, Advance(read.status, step.reply, s.now).value), SUBMISSIONS);
    } else {
      NoStatusPlanned(s, step, SUBMISSIONS);
    }
  }

  lemma {:induction false} AcceptedRun(s: State, steps: seq<Step>, t: State)
    requires ClearState(s, FAILURES) && RunsTo(s, steps, t) && AllAccepted(steps)
    ensures ClearState(t, FAILURES)
    decreases |steps|
  {
    if steps != [] {
      AcceptedClear(s, steps[0]);
      StepClear(s, steps[0], FAILURES);
      AcceptedRun(Apply(s, steps[0]), steps[1..], t);
    }
  }

  lemma {:induction false} RefusedRun(s: State, steps: seq<Step>, t: State)
    requires ClearState(s, SUBMISSIONS) && RunsTo(s, steps, t) && AllRefused(steps)
    ensures ClearState(t, SUBMISSIONS)
    decreases |steps|
  {
    if steps != [] {
      RefusedClear(s, steps[0]);
      StepClear(s, steps[0], SUBMISSIONS);
      RefusedRun(Apply(s, steps[0]), steps[1..], t);
    }
  }

  /** If every notification is accepted, no ChangePod is in, or ended by, PreFailed or PostFailed, along every
      run, careful or not. */
  lemma AcceptedNeverFails(s: State, steps: seq<Step>, t: State, n: nat)
    requires Initial(s) && RunsTo(s, steps, t) && AllAccepted(steps) && n in t.cps
    ensures !EndedBy(t.cps[n].status, PreFailed) && !EndedBy(t.cps[n].status, PostFailed)
  {
    AcceptedRun(s, steps, t);
    assert Clear(t.cps[n].status, FAILURES);
    assert PreFailed in FAILURES && PostFailed in FAILURES;
  }

  /** If every notification is refused, no ChangePod is ever submitted, times out or gets a verdict: each is in
      ExecuteInit, PreWait or PreFailed, or done. */
  lemma RefusedIsNeverSubmitted(s: State, steps: seq<Step>, t: State, n: nat)
    requires Initial(s) && RunsTo(s, steps, t) && AllRefused(steps) && n in t.cps
    ensures t.cps[n].status.phase in {ExecuteInit, PreWait, PreFailed, ExecuteDone}
    ensures t.cps[n].status.phase == ExecuteDone ==>
              t.cps[n].status.message !in {PreTimeout, PostFinish, PostTimeout, PostFailed}
  {
    RefusedRun(s, steps, t);
    var st := t.cps[n].status;
    assert Clear(st, SUBMISSIONS);
    assert forall cause :: cause in SUBMISSIONS ==> !EndedBy(st, cause);
    assert st.phase !in SUBMISSIONS;
    assert st.phase == ExecuteDone ==> st.message !in SUBMISSIONS;
  }

  /** Hence along careful runs each of them that is done ended by PreFailed. */
  lemma RefusedEndsInPreFailed(s: State, steps: seq<Step>, t: State, n: nat)
    requires Initial(s) && CarefulRun(s, steps, t) && AllRefused(steps) && n in t.cps
    requires t.cps[n].status.phase == ExecuteDone
    ensures t.cps[n].status.message == PreFailed
  {
    CarefulRunIsRun(s, steps, t);
    RefusedIsNeverSubmitted(s, steps, t, n);
    DoneCarriesItsCause(t, n);
  }
}
