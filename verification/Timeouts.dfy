/** No ChangePod is timed out early, along every run, careful or not. */
module Timeouts {
  import opened Protocol
  import opened Safety

  /** A submitted ChangePod carries its submission time; a timed-out one has waited longer than the
      threshold since. */
  predicate Timed(st: Status, now: int) {
    && (st.phase == PreSubmitted ==> st.preTimeoutThreshold == TIMEOUT_THRESHOLD && st.preSubmitUnix <= now)
    && (st.phase == PostSubmitted ==> st.postTimeoutThreshold == TIMEOUT_THRESHOLD && st.postSubmitUnix <= now)
    && (EndedBy(st, PreTimeout) ==> now - st.preSubmitUnix > TIMEOUT_THRESHOLD)
    && (EndedBy(st, PostTimeout) ==> now - st.postSubmitUnix > TIMEOUT_THRESHOLD)
  }

  predicate EndedBy(st: Status, cause: Phase) {
    st.phase == cause || (st.phase == ExecuteDone && st.message == cause)
  }

  ghost predicate OpTimed(op: Op, now: int) {
    match op
    case CreateOp(_, _) => true
    case SpecOp(_, read, _) => read.Init()
    case LabelOp(_, read, _, _) => Timed(read.status, now)
    case StatusOp(_, _, status) => Timed(status, now)
    case DeleteOp(_, _) => true
    case PatchOp(_, _, phase, _) => phase == PostWait || phase == PostFinish
  }

  ghost predicate TimedStore(cps: ChangePods, now: int) {
    forall n :: n in cps ==> Timed(cps[n].status, now)
  }

  ghost predicate TimedState(s: State) {
    && TimedStore(s.cps, s.now)
    && (forall k :: 0 <= k < |s.history| ==> TimedStore(s.history[k], s.now))
    && (forall op :: op in s.pending ==> OpTimed(op, s.now))
  }

  lemma AdvanceTimed(st: Status, reply: Reply, now: int)
    requires Timed(st, now) && Advance(st, reply, now).Some?
    ensures Timed(Advance(st, reply, now).value, now)
  {
  }

  lemma ExpireTimed(st: Status, now: int)
    requires Timed(st, now) && Expire(st, now).Some?
    ensures Timed(Expire(st, now).value, now)
  {
  }

  lemma IssueTimed(s: State, op: Op)
    requires TimedState(s) && OpTimed(op, s.now)
    ensures TimedState(Issue(s, op))
  {
  }

  lemma PutTimed(s: State, n: nat, cp: ChangePod)
    requires TimedState(s) && Timed(cp.status, s.now)
    ensures TimedState(Put(s, n, cp))
  {
    var t := Put(s, n, cp);
    assert TimedStore(t.cps, t.now);
    forall k | 0 <= k < |t.history| ensures TimedStore(t.history[k], t.now) {
      assert k < |s.history| ==> t.history[k] == s.history[k];
    }
  }

  lemma LabelTimed(s: State, op: Op)
    requires TimedState(s) && op.LabelOp? && OpTimed(op, s.now)
    ensures TimedState(ExecLabel(s, op.num, op.read, op.todo, op.finish))
  {
    if op.todo == [] {
      if op.finish {
        IssueTimed(s, StatusOp(op.num, op.read, op.read.status.(phase := PreWait)));
      }
    } else if op.todo[0] in s.pods {
      IssueTimed(s.(pods := LabelPod(s.pods, op.todo[0])), LabelOp(op.num, op.read, op.todo[1..], op.finish));
    }
  }

  lemma SpecTimed(s: State, op: Op)
    requires TimedState(s) && op.SpecOp?
    ensures TimedState(ExecSpec(s, op.num, op.read, op.batch))
  {
    if Matches(s, op.num, op.read) {
      var cp := s.cps[op.num].(podInfos := op.batch);
      PutTimed(s, op.num, cp);
      IssueTimed(Put(s, op.num, cp), LabelOp(op.num, cp.(rv := s.nextRv), PodNames(op.batch), true));
    }
  }

  lemma DeleteTimed(s: State, n: nat)
    requires TimedState(s)
    ensures TimedState(ExecDelete(s, n))
  {
    var t := ExecDelete(s, n);
    assert TimedStore(t.cps, t.now);
    forall k | 0 <= k < |t.history| ensures TimedStore(t.history[k], t.now) {
      assert k < |s.history| ==> t.history[k] == s.history[k];
    }
  }

  lemma ExecTimed(s: State, op: Op)
    requires TimedState(s) && OpTimed(op, s.now)
    ensures TimedState(Execute(s, op))
  {
    match op
    case CreateOp(count, _) => PutTimed(s, count + 1, ChangePod(0, [], NEW_STATUS));
    case SpecOp(_, _, _) => SpecTimed(s, op);
    case LabelOp(_, _, _, _) => LabelTimed(s, op);
    case StatusOp(n, _, status) =>
      if n in s.cps { PutTimed(s, n, s.cps[n].(status := status)); }
    case DeleteOp(n, _) => DeleteTimed(s, n);
    case PatchOp(n, _, phase, results) =>
      if n in s.cps { PutTimed(s, n, s.cps[n].(status := Patched(s.cps[n].status, phase, results))); }
  }

  lemma ReadTimed(s: State, step: Step)
    requires TimedState(s) && Enabled(s, step)
    requires step.Decide? || step.InitTurn? || step.Turn? || step.Sweep? || step.Receive?
    ensures TimedState(Apply(s, step))
  {
    match step
    case Decide(k, b) => IssueTimed(s, CreateOp(|s.history[k]|, b));
    case InitTurn(k, n, order) =>
      assert Timed(s.history[k][n].status, s.now);
      IssueTimed(s, InitPlan(s.cfg, s.pods, n, s.history[k][n], order));
    case Turn(k, n, reply) =>
      AdvanceTimed(s.history[k][n].status, reply, s.now);
      IssueTimed(s, StatusOp(n, s.history[k][n], Advance(s.history[k][n].status, reply, s.now).value));
    case Sweep(k, n) =>
      ExpireTimed(s.history[k][n].status, s.now);
      IssueTimed(s, StatusOp(n, s.history[k][n], Expire(s.history[k][n].status, s.now).value));
    case Receive(k, n, stage, v, m) =>
      IssueTimed(s, CallbackPatch(n, s.history[k][n], stage, v, m).value);
  }

  lemma TickTimed(s: State)
    requires TimedState(s)
    ensures TimedState(s.(now := s.now + 1))
  {
    forall k | 0 <= k < |s.history| ensures TimedStore(s.history[k], s.now + 1) {
      assert TimedStore(s.history[k], s.now);
    }
    forall op | op in s.pending ensures OpTimed(op, s.now + 1) {
      assert OpTimed(op, s.now);
    }
  }

  lemma StepTimed(s: State, step: Step)
    requires TimedState(s) && Enabled(s, step)
    ensures TimedState(Apply(s, step))
  {
    match step
    case AddPod(_, _) =>
    case FinishPod(_) =>
    case RemovePod(_) =>
    case Tick => TickTimed(s);
    case Exec(op) => ExecTimed(Consume(s, op), op);
    case Drop(_) =>
    case _ => ReadTimed(s, step);
  }

  lemma {:induction false} RunTimed(s: State, steps: seq<Step>, t: State)
    requires TimedState(s) && RunsTo(s, steps, t)
    ensures TimedState(t)
    decreases |steps|
  {
    if steps != [] {
      StepTimed(s, steps[0]);
      RunTimed(Apply(s, steps[0]), steps[1..], t);
    }
  }

  /** Along every run from the start, with stale reads, lost writes, stale callbacks and deletes: a ChangePod
      that is timed out, or finished because of a timeout, was submitted more than 120 seconds ago. */
  lemma TimeoutsAreNeverEarly(s: State, steps: seq<Step>, t: State, n: nat)
    requires Initial(s) && RunsTo(s, steps, t) && n in t.cps
    ensures EndedBy(t.cps[n].status, PreTimeout) ==> t.now - t.cps[n].status.preSubmitUnix > 120
    ensures EndedBy(t.cps[n].status, PostTimeout) ==> t.now - t.cps[n].status.postSubmitUnix > 120
  {
    RunTimed(s, steps, t);
  }

  // ---------------------------------------------------------------- the time a timeout takes

  /** In the protocol the sweep plans a write exactly for a ChangePod that has been submitted for longer than
      its timeout, and plans to change its phase alone. */
  lemma SweepStepExactly(s: State, k: nat, n: nat)
    requires ReadsFrom(s, k, n)
    ensures var st := s.history[k][n].status;
            Enabled(s, Sweep(k, n)) <==>
              || (st.phase == PreSubmitted && s.now - st.preSubmitUnix > st.preTimeoutThreshold)
              || (st.phase == PostSubmitted && s.now - st.postSubmitUnix > st.postTimeoutThreshold)
    ensures Enabled(s, Sweep(k, n)) ==>
              exists op :: Apply(s, Sweep(k, n)) == Issue(s, op) && TimesOut(op, n, s.history[k][n])
  {
    var read := s.history[k][n];
    if Enabled(s, Sweep(k, n)) {
      assert TimesOut(StatusOp(n, read, Expire(read.status, s.now).value), n, read);
    }
  }

  ghost predicate TimesOut(op: Op, n: nat, read: ChangePod) {
    && op.StatusOp? && op.num == n && op.read == read
    && op.status == read.status.(phase := if read.status.phase == PreSubmitted then PreTimeout else PostTimeout)
  }

  /** What carries a submission was submitted at `start` or later. */
  predicate Since(st: Status, stage: Stage, start: int) {
    match stage
    case Pre => st.phase == PreSubmitted || EndedBy(st, PreTimeout) ==> st.preSubmitUnix >= start
    case Post => st.phase == PostSubmitted || EndedBy(st, PostTimeout) ==> st.postSubmitUnix >= start
  }

  predicate SinceOp(op: Op, n: nat, stage: Stage, start: int) {
    match op
    case StatusOp(m, _, status) => m == n ==> Since(status, stage, start)
    case PatchOp(_, _, phase, _) => phase == PostWait || phase == PostFinish
    case _ => true
  }

  ghost predicate SinceState(s: State, n: nat, stage: Stage, start: int) {
    && start <= s.now && (n in s.cps ==> Since(s.cps[n].status, stage, start))
    && (forall k :: 0 <= k < |s.history| && n in s.history[k] ==> Since(s.history[k][n].status, stage, start))
    && (forall op :: op in s.pending ==> SinceOp(op, n, stage, start))
  }

  lemma PutSince(s: State, m: nat, cp: ChangePod, n: nat, stage: Stage, start: int)
    requires SinceState(s, n, stage, start) && (m == n ==> Since(cp.status, stage, start))
    ensures SinceState(Put(s, m, cp), n, stage, start)
  {
    var t := Put(s, m, cp);
    forall k | 0 <= k < |t.history| && n in t.history[k] ensures Since(t.history[k][n].status, stage, start) {
      assert k < |s.history| ==> t.history[k] == s.history[k];
    }
  }

  lemma DeleteSince(s: State, m: nat, n: nat, stage: Stage, start: int)
    requires SinceState(s, n, stage, start)
    ensures SinceState(ExecDelete(s, m), n, stage, start)
  {
    var t := ExecDelete(s, m);
    forall k | 0 <= k < |t.history| && n in t.history[k] ensures Since(t.history[k][n].status, stage, start) {
      assert k < |s.history| ==> t.history[k] == s.history[k];
    }
  }

  lemma LabelSince(s: State, op: Op, n: nat, stage: Stage, start: int)
    requires SinceState(s, n, stage, start) && op.LabelOp?
    ensures SinceState(ExecLabel(s, op.num, op.read, op.todo, op.finish), n, stage, start)
  {
    assert Since(op.read.status.(phase := PreWait), stage, start);
  }

  lemma SpecSince(s: State, op: Op, n: nat, stage: Stage, start: int)
    requires SinceState(s, n, stage, start) && op.SpecOp?
    ensures SinceState(ExecSpec(s, op.num, op.read, op.batch), n, stage, start)
  {
    if Matches(s, op.num, op.read) {
      PutSince(s, op.num, s.cps[op.num].(podInfos := op.batch), n, stage, start);
    }
  }

  lemma ExecSince(s: State, op: Op, n: nat, stage: Stage, start: int)
    requires SinceState(s, n, stage, start) && SinceOp(op, n, stage, start)
    ensures SinceState(Execute(s, op), n, stage, start)
  {
    match op
    case CreateOp(count, _) => PutSince(s, count + 1, ChangePod(0, [], NEW_STATUS), n, stage, start);
    case SpecOp(_, _, _) => SpecSince(s, op, n, stage, start);
    case LabelOp(_, _, _, _) => LabelSince(s, op, n, stage, start);
    case StatusOp(m, _, status) => if m in s.cps { PutSince(s, m, s.cps[m].(status := status), n, stage, start); }
    case DeleteOp(m, _) => DeleteSince(s, m, n, stage, start);
    case PatchOp(m, _, phase, results) =>
      if m in s.cps { PutSince(s, m, s.cps[m].(status := Patched(s.cps[m].status, phase, results)), n, stage, start); }
  }

  lemma IssueSince(s: State, op: Op, n: nat, stage: Stage, start: int)
    requires SinceState(s, n, stage, start) && SinceOp(op, n, stage, start)
    ensures SinceState(Issue(s, op), n, stage, start)
  {
  }

  lemma ReadSince(s: State, step: Step, n: nat, stage: Stage, start: int)
    requires SinceState(s, n, stage, start) && Enabled(s, step)
    requires step.Decide? || step.InitTurn? || step.Turn? || step.Sweep? || step.Receive?
    ensures SinceState(Apply(s, step), n, stage, start)
  {
    match step
    case Decide(k, b) => IssueSince(s, CreateOp(|s.history[k]|, b), n, stage, start);
    case InitTurn(k, m, order) => IssueSince(s, InitPlan(s.cfg, s.pods, m, s.history[k][m], order), n, stage, start);
    case Turn(k, m, reply) =>
      IssueSince(s, StatusOp(m, s.history[k][m], Advance(s.history[k][m].status, reply, s.now).value), n, stage, start);
    case Sweep(k, m) =>
      IssueSince(s, StatusOp(m, s.history[k][m], Expire(s.history[k][m].status, s.now).value), n, stage, start);
    case Receive(k, m, kind, v, msg) =>
      IssueSince(s, CallbackPatch(m, s.history[k][m], kind, v, msg).value, n, stage, start);
  }

  lemma StepSince(s: State, step: Step, n: nat, stage: Stage, start: int)
    requires SinceState(s, n, stage, start) && Enabled(s, step)
    ensures SinceState(Apply(s, step), n, stage, start)
  {
    match step
    case AddPod(_, _) =>
    case FinishPod(_) =>
    case RemovePod(_) =>
    case Tick =>
    case Exec(op) => ExecSince(Consume(s, op), op, n, stage, start);
    case Drop(_) =>
    case _ => ReadSince(s, step, n, stage, start);
  }

  lemma {:induction false} RunSince(s: State, steps: seq<Step>, t: State, n: nat, stage: Stage, start: int)
    requires SinceState(s, n, stage, start) && RunsTo(s, steps, t)
    ensures SinceState(t, n, stage, start)
    decreases |steps|
  {
    if steps != [] {
      StepSince(s, steps[0], n, stage, start);
      RunSince(Apply(s, steps[0]), steps[1..], t, n, stage, start);
    }
  }

  /** A planned status that carries a submission comes from a read of a ChangePod that was past the phases in
      which it cannot have been submitted. */
  predicate Sourced(op: Op) {
    op.StatusOp? ==>
      && (op.status.phase == PreSubmitted || EndedBy(op.status, PreTimeout) ==> !op.read.Init())
      && (op.status.phase == PostSubmitted || EndedBy(op.status, PostTimeout) ==> Level(op.read.status.phase) == 3)
  }

  ghost predicate AllSourced(s: State) {
    forall op :: op in s.pending ==> Sourced(op)
  }

  lemma ExecSourced(s: State, op: Op)
    requires AllSourced(s)
    ensures AllSourced(Execute(s, op))
  {
  }

  lemma StepSourced(s: State, step: Step)
    requires AllSourced(s) && Enabled(s, step)
    ensures AllSourced(Apply(s, step))
  {
    if step.Exec? {
      ExecSourced(Consume(s, step.op), step.op);
    }
  }

  lemma {:induction false} RunSourced(s: State, steps: seq<Step>, t: State)
    requires AllSourced(s) && RunsTo(s, steps, t)
    ensures AllSourced(t)
    decreases |steps|
  {
    if steps != [] {
      StepSourced(s, steps[0]);
      RunSourced(Apply(s, steps[0]), steps[1..], t);
    }
  }

  /** In these phases, or before it is created, a ChangePod has not been submitted, and no submission of it is
      on its way. */
  predicate NotYet(cps: ChangePods, n: nat, stage: Stage) {
    n in cps ==> match stage
                 case Pre => cps[n].Init()
                 case Post => cps[n].status.phase in {ExecuteInit, PreWait, PreSubmitted}
  }

  lemma NotYetSince(s: State, n: nat, stage: Stage)
    requires Inv(s) && AllSourced(s) && NotYet(s.cps, n, stage)
    ensures SinceState(s, n, stage, s.now)
  {
    forall k | 0 <= k < |s.history| && n in s.history[k] ensures Since(s.history[k][n].status, stage, s.now) {
      assert Seen(s, n, s.history[k][n]);
    }
    forall op | op in s.pending ensures SinceOp(op, n, stage, s.now) {
      assert OpOk(s, op) && Sourced(op);
    }
  }

  /** A timeout takes its time: between any moment at which a ChangePod has not been submitted yet and any
      later one at which it has timed out, more than 120 seconds pass, whatever happens in between. */
  lemma TimeoutsTakeTime(start: State, before: seq<Step>, s: State, steps: seq<Step>, t: State, n: nat)
    requires Initial(start) && CarefulRun(start, before, s) && RunsTo(s, steps, t) && n in t.cps
    ensures NotYet(s.cps, n, Pre) && EndedBy(t.cps[n].status, PreTimeout) ==> t.now - s.now > 120
    ensures NotYet(s.cps, n, Post) && EndedBy(t.cps[n].status, PostTimeout) ==> t.now - s.now > 120
  {
    CarefulRunIsRun(start, before, s);
    RunTimed(start, before, s);
    RunTimed(s, steps, t);
    InitialInv(start);
    RunKeepsInv(start, before, s);
    RunSourced(start, before, s);
    if NotYet(s.cps, n, Pre) {
      NotYetSince(s, n, Pre);
      RunSince(s, steps, t, n, Pre, s.now);
    }
    if NotYet(s.cps, n, Post) {
      NotYetSince(s, n, Post);
      RunSince(s, steps, t, n, Post, s.now);
    }
  }
}
