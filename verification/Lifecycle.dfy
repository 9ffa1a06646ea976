/** The lifecycle of one ChangePod, with HTTP callbacks that patch what they read long ago. */
module Lifecycle {
  import opened PodSummaries
  import opened Protocol
  import opened Safety
  import opened Batches

  /** However stale the callbacks, a ChangePod never returns to ExecuteInit, PreWait or PreSubmitted
      once it has left them (or moved past them), and it is never deleted after ExecuteInit. */
  lemma EarlyPhasesAreNeverReentered(s: State, steps: seq<Step>, t: State, n: nat)
    requires Reachable(s) && CarefulRun(s, steps, t) && n in s.cps && !s.cps[n].Init()
    ensures n in t.cps
    ensures t.cps[n].status.phase in {ExecuteInit, PreWait, PreSubmitted} ==>
              t.cps[n].status.phase == s.cps[n].status.phase
              || (s.cps[n].status.phase == PreWait && t.cps[n].status.phase == PreSubmitted)
  {
    ReachableInv(s);
    PastIsSeen(s, steps, t, n);
  }

  /** ExecuteDone always carries one of the five terminal causes as its message; a ChangePod that
      finished by PostFinish carries one verdict for each of its recorded pods, and the same for all. */
  lemma DoneCarriesItsCause(t: State, n: nat)
    requires Reachable(t) && n in t.cps && t.cps[n].status.phase == ExecuteDone
    ensures t.cps[n].status.message in {PreTimeout, PreFailed, PostFinish, PostTimeout, PostFailed}
    ensures t.cps[n].status.message == PostFinish ==>
              exists v, m :: t.cps[n].status.podResults == Stamp(t.cps[n].podInfos, v, m)
  {
    ReachableInv(t);
    StoredOk(t, n);
  }

  // ---------------------------------------------------------------- callbacks that are not overtaken

  /** Every write, checked or not, lands on the version its handler read. */
  ghost predicate AtomicStep(s: State, step: Step) {
    step.Exec? && (step.op.DeleteOp? || step.op.PatchOp?) && step.op.num in s.cps ==>
      Matches(s, step.op.num, step.op.read)
  }

  ghost predicate AtomicRun(s: State, steps: seq<Step>, t: State)
    decreases |steps|
  {
    if steps == [] then s == t
    else Enabled(s, steps[0]) && AtomicStep(s, steps[0]) && AtomicRun(Apply(s, steps[0]), steps[1..], t)
  }

  ghost predicate Climbs(a: Phase, b: Phase) {
    a == b || Rank(b) > Rank(a)
  }

  lemma ExecClimbs(s: State, op: Op, n: nat)
    requires OpOk(s, op) && AtomicStep(s, Exec(op)) && n in s.cps
    ensures var t := Execute(Consume(s, op), op);
            if n in t.cps then Climbs(s.cps[n].status.phase, t.cps[n].status.phase) else s.cps[n].Init()
  {
    var s' := Consume(s, op);
    match op
    case LabelOp(m, read, todo, finish) => assert ExecLabel(s', m, read, todo, finish).cps == s.cps;
    case SpecOp(m, read, batch) => SpecClimbs(s', m, read, batch, n);
    case StatusOp(m, read, st) => StatusClimbs(s, op, n);
    case PatchOp(m, read, phase, results) => PatchClimbs(s, op, n);
    case _ =>
  }

  lemma StatusClimbs(s: State, op: Op, n: nat)
    requires OpOk(s, op) && op.StatusOp? && n in s.cps
    ensures var t := ExecStatus(Consume(s, op), op.num, op.read, op.status);
            n in t.cps && Climbs(s.cps[n].status.phase, t.cps[n].status.phase)
  {
  }

  lemma PatchClimbs(s: State, op: Op, n: nat)
    requires OpOk(s, op) && AtomicStep(s, Exec(op)) && op.PatchOp? && n in s.cps
    ensures var t := ExecPatch(Consume(s, op), op.num, op.phase, op.results);
            n in t.cps && Climbs(s.cps[n].status.phase, t.cps[n].status.phase)
  {
  }

  lemma SpecClimbs(s: State, m: nat, read: ChangePod, batch: seq<PodSummary>, n: nat)
    requires n in s.cps
    ensures var t := ExecSpec(s, m, read, batch); n in t.cps && t.cps[n].status == s.cps[n].status
  {
  }

  lemma StepClimbs(s: State, step: Step, n: nat)
    requires Inv(s) && Enabled(s, step) && AtomicStep(s, step) && n in s.cps
    ensures var t := Apply(s, step);
            if n in t.cps then Climbs(s.cps[n].status.phase, t.cps[n].status.phase) else s.cps[n].Init()
  {
    if step.Exec? {
      assert OpOk(s, step.op);
      ExecClimbs(s, step.op, n);
    }
  }

  /** With callbacks that are not overtaken the phase only climbs: between any two states of a run it
      is the same or strictly higher in rank. */
  lemma {:induction false} AtomicCallbacksClimb(s: State, steps: seq<Step>, t: State, n: nat)
    requires Inv(s) && AtomicRun(s, steps, t) && n in s.cps && !s.cps[n].Init()
    ensures n in t.cps && Climbs(s.cps[n].status.phase, t.cps[n].status.phase)
    decreases |steps|
  {
    if steps != [] {
      StepClimbs(s, steps[0], n);
      StepKeepsInv(s, steps[0]);
      AtomicCallbacksClimb(Apply(s, steps[0]), steps[1..], t, n);
    }
  }

  /** A patch moves the ChangePod backwards if it leaves it in another phase that is not above. */
  ghost predicate Reverts(s: State, op: Op)
    requires op.PatchOp? && op.num in s.cps
  {
    var t := ExecPatch(Consume(s, op), op.num, op.phase, op.results);
    op.num !in t.cps || !Climbs(s.cps[op.num].status.phase, t.cps[op.num].status.phase)
  }

  /** In which stored phases a patch moves its ChangePod backwards, for every patch that can be in flight.
      The patch of a PRE callback: exactly when the ChangePod is neither in the phase the callback tested nor
      in the one it writes.  The patch of a POST callback: exactly when the ChangePod has timed out, has
      failed or is done. */
  lemma StaleCallbackExactly(s: State, op: Op)
    requires Reachable(s) && op in s.pending && op.PatchOp?
    ensures op.num in s.cps && op.phase in {PostWait, PostFinish}
    ensures op.phase == PostWait ==>
              (Reverts(s, op) <==> s.cps[op.num].status.phase !in {PreSubmitted, PostWait})
    ensures op.phase == PostFinish ==>
              (Reverts(s, op) <==> s.cps[op.num].status.phase in {PostTimeout, PostFailed, ExecuteDone})
    ensures Matches(s, op.num, op.read) ==> Rank(s.cps[op.num].status.phase) < Rank(op.phase)
  {
    ReachableInv(s);
    assert OpOk(s, op);
    StalePatch(s, op);
  }

  lemma StalePatch(s: State, op: Op)
    requires op.PatchOp? && OpOk(s, op)
    ensures op.num in s.cps && op.phase in {PostWait, PostFinish}
    ensures op.phase == PostWait ==>
              (Reverts(s, op) <==> s.cps[op.num].status.phase !in {PreSubmitted, PostWait})
    ensures op.phase == PostFinish ==>
              (Reverts(s, op) <==> s.cps[op.num].status.phase in {PostTimeout, PostFailed, ExecuteDone})
    ensures Matches(s, op.num, op.read) ==> Rank(s.cps[op.num].status.phase) < Rank(op.phase)
  {
  }

  // ---------------------------------------------------------------- answers of the control side

  /** The status after a turn that could write, for each phase and reply: an accepted notification is
      submitted, with the node id, the time and the timeout; a refused one has failed; the five causes end in
      ExecuteDone, kept as its message; the other phases wait.  All other fields stay. */
  ghost predicate Answered(st: Status, st': Status, reply: Reply, now: int) {
    match st.phase
    case PreWait =>
      st' == if reply.Accepted? then st.(phase := PreSubmitted, nodeId := reply.nodeId,
                                         preSubmitUnix := now, preTimeoutThreshold := 120)
             else st.(phase := PreFailed)
    case PostWait =>
      st' == if reply.Accepted? then st.(phase := PostSubmitted, postSubmitUnix := now, postTimeoutThreshold := 120)
             else st.(phase := PostFailed)
    case PostFinish | PreTimeout | PostTimeout | PreFailed | PostFailed =>
      st' == st.(phase := ExecuteDone, message := st.phase)
    case _ => st' == st
  }

  /** Phases in which the reconciler has something to write. */
  predicate Acts(ph: Phase) {
    ph in {PreWait, PostWait, PostFinish, PreTimeout, PostTimeout, PreFailed, PostFailed}
  }

  /** What the handlers of the phases past ExecuteInit plan. */
  lemma AdvanceAnswers(st: Status, reply: Reply, now: int)
    ensures Advance(st, reply, now).Some? <==> Acts(st.phase)
    ensures Acts(st.phase) ==> Answered(st, Advance(st, reply, now).value, reply, now)
  {
  }
}
