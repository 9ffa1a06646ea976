/** Sizes of batches, on runs in which no pod is removed and the threshold is at least one. */
module Arithmetic {
  import opened PodSummaries
  import opened Protocol
  import opened Safety

  /** Undefended pods a workload handler must have seen before it creates a ChangePod. */
  function Need(cfg: Config, byThreshold: bool): nat {
    if byThreshold then cfg.threshold else 1
  }

  ghost predicate Enough(s: State, byThreshold: bool) {
    |UndefensedSet(s.pods)| >= Need(s.cfg, byThreshold)
  }

  ghost predicate HasBatch(s: State, n: nat) {
    n in s.cps && s.cps[n].podInfos != []
  }

  predicate ExactSize(s: State, n: nat, size: nat) {
    n in s.origin && s.origin[n] ==> size == s.cfg.threshold
  }

  ghost predicate OpSized(s: State, op: Op) {
    match op
    case CreateOp(count, byThreshold) => HasBatch(s, count + 1) || Enough(s, byThreshold)
    case SpecOp(n, read, batch) =>
      && batch != [] && NamesOf(batch) <= s.pods.Keys
      && (Matches(s, n, read) ==> ExactSize(s, n, |batch|))
    case LabelOp(n, read, _, _) => read.podInfos != []
    case StatusOp(n, read, _) => read.Settled()
    case DeleteOp(n, read) => !Matches(s, n, read)
    case PatchOp(_, _, _, _) => true
  }

  ghost predicate StoreSized(s: State) {
    && s.cfg.threshold >= 1
    && (forall n :: n in s.cps && s.cps[n].podInfos == [] ==>
          s.cps[n].Init() && n in s.origin && Enough(s, s.origin[n]))
    && (forall n :: HasBatch(s, n) ==> ExactSize(s, n, |s.cps[n].podInfos|))
    && (forall p, n :: RecordedIn(s, p, n) ==> p in s.pods)
  }

  ghost predicate PendingSized(s: State) {
    forall op :: op in s.pending ==> OpSized(s, op)
  }

  ghost predicate Sized(s: State) {
    StoreSized(s) && PendingSized(s)
  }

  // ---------------------------------------------------------------- counting a listing

  lemma {:induction false} DistinctCount(s: seq<string>)
    requires Distinct(s)
    ensures |set p | p in s| == |s|
  {
    if s != [] {
      var init, last := s[..|s| - 1], s[|s| - 1];
      DistinctCount(init);
      assert (set p | p in s) == (set p | p in init) + {last};
      assert last !in init;
    }
  }

  /** The filtered listing has as many entries as there are undefended pods. */
  lemma FilterCount(order: seq<string>, pods: map<string, Pod>)
    requires Enumerates(order, pods.Keys)
    ensures |FilterUndefensed(order, pods)| == |UndefensedSet(pods)|
  {
    var r := FilterUndefensed(order, pods);
    FilterDistinct(order, pods);
    DistinctCount(r);
    assert (set p | p in r) == UndefensedSet(pods);
  }

  // ---------------------------------------------------------------- preservation

  /** Nothing that was undefended stops being so, and no pod is lost. */
  ghost predicate KeepsUndefensed(a: State, b: State) {
    && a.cfg == b.cfg && a.pods.Keys <= b.pods.Keys
    && UndefensedSet(a.pods) <= UndefensedSet(b.pods)
  }

  /** Records, numbers and origins only grow. */
  ghost predicate KeepsBatches(a: State, b: State) {
    && (forall n :: HasBatch(a, n) ==> HasBatch(b, n))
    && (forall n, read :: Matches(b, n, read) && read.rv < a.nextRv ==>
          Matches(a, n, read) && (n in a.origin) == (n in b.origin) && (n in a.origin ==> a.origin[n] == b.origin[n]))
  }

  lemma OpSizedStable(a: State, b: State, op: Op)
    requires OpSized(a, op) && OpOk(a, op) && KeepsUndefensed(a, b) && KeepsBatches(a, b)
    ensures OpSized(b, op)
  {
    SubsetCard(UndefensedSet(a.pods), UndefensedSet(b.pods));
  }

  lemma PendingSizedFrom(a: State, b: State)
    requires PendingOk(a) && PendingSized(a) && KeepsUndefensed(a, b) && KeepsBatches(a, b)
    requires forall op :: op in b.pending && op !in a.pending ==> OpSized(b, op)
    ensures PendingSized(b)
  {
    forall op | op in b.pending ensures OpSized(b, op) {
      if op in a.pending {
        OpSizedStable(a, b, op);
      }
    }
  }

  lemma FewerSized(a: State, b: State)
    requires PendingOk(a) && PendingSized(a) && KeepsUndefensed(a, b) && KeepsBatches(a, b)
    requires b.pending <= a.pending
    ensures PendingSized(b)
  {
    PendingSizedFrom(a, b);
  }

  /** The store keeps its sizes when ChangePods are untouched and no pod stops being undefended. */
  lemma StoreSizedSame(a: State, b: State)
    requires StoreSized(a) && KeepsUndefensed(a, b) && b.cps == a.cps && b.origin == a.origin
    ensures StoreSized(b)
  {
    SubsetCard(UndefensedSet(a.pods), UndefensedSet(b.pods));
    forall p, n | RecordedIn(b, p, n) ensures p in b.pods { assert RecordedIn(a, p, n); }
    forall n | HasBatch(b, n) ensures ExactSize(b, n, |b.cps[n].podInfos|) { assert HasBatch(a, n); }
  }

  lemma PodSized(s: State, step: Step)
    requires Labels(s) && PendingOk(s) && Sized(s) && Enabled(s, step)
    requires step.AddPod? || step.FinishPod? || step.Tick? || step.Drop?
    ensures Sized(Apply(s, step))
  {
    StoreSizedSame(s, Apply(s, step));
    FewerSized(s, Apply(s, step));
  }

  lemma ConsumeSized(s: State, op: Op)
    requires PendingOk(s) && Sized(s)
    ensures Sized(Consume(s, op))
  {
    StoreSizedSame(s, Consume(s, op));
    FewerSized(s, Consume(s, op));
  }

  lemma IssueSized(s: State, op: Op)
    requires PendingOk(s) && Sized(s) && OpSized(s, op)
    ensures Sized(Issue(s, op))
  {
    StoreSizedSame(s, Issue(s, op));
    assert OpSized(Issue(s, op), op);
    PendingSizedFrom(s, Issue(s, op));
  }

  lemma InitTurnSized(s: State, n: nat, read: ChangePod, order: seq<string>)
    requires StoreSized(s) && Seen(s, n, read) && read.Init() && Enumerates(order, s.pods.Keys)
    ensures OpSized(s, InitPlan(s.cfg, s.pods, n, read, order))
  {
    if read.podInfos == [] {
      FilterCount(order, s.pods);
      if FilterUndefensed(order, s.pods) != [] {
        BatchProperties(s.cfg, s.pods, order);
      }
    }
  }

  lemma ReadSized(s: State, step: Step)
    requires Versions(s) && PendingOk(s) && Sized(s) && Enabled(s, step)
    requires step.Decide? || step.InitTurn? || step.Turn? || step.Sweep? || step.Receive?
    ensures Sized(Apply(s, step))
  {
    match step
    case Decide(k, b) => IssueSized(s, CreateOp(|s.history[k]|, b));
    case InitTurn(k, n, order) =>
      ReadIsSeen(s, k, n);
      InitTurnSized(s, n, s.history[k][n], order);
      IssueSized(s, InitPlan(s.cfg, s.pods, n, s.history[k][n], order));
    case Turn(k, n, reply) =>
      IssueSized(s, StatusOp(n, s.history[k][n], Advance(s.history[k][n].status, reply, s.now).value));
    case Sweep(k, n) =>
      IssueSized(s, StatusOp(n, s.history[k][n], Expire(s.history[k][n].status, s.now).value));
    case Receive(k, n, stage, v, m) => IssueSized(s, CallbackPatch(n, s.history[k][n], stage, v, m).value);
  }

  lemma CreateSized(s: State, s': State, count: nat, byThreshold: bool)
    requires PendingOk(s) && Sized(s) && count + 1 !in s.cps && Enough(s, byThreshold)
    requires s' == s.(pending := s'.pending) && s'.pending <= s.pending
    ensures Sized(ExecCreate(s', count, byThreshold))
  {
    var t := ExecCreate(s', count, byThreshold);
    forall n | HasBatch(t, n) ensures ExactSize(t, n, |t.cps[n].podInfos|) { assert HasBatch(s, n); }
    forall p, n | RecordedIn(t, p, n) ensures p in t.pods { assert RecordedIn(s, p, n); }
    FewerSized(s, t);
  }

  lemma SpecSized(s: State, op: Op)
    requires PendingOk(s) && Sized(s) && op.SpecOp? && OpSized(s, op) && OpOk(s, op) && Matches(s, op.num, op.read)
    ensures Sized(ExecSpec(Consume(s, op), op.num, op.read, op.batch))
  {
    var t := ExecSpec(Consume(s, op), op.num, op.read, op.batch);
    SpecStoreSized(s, t, op.num, op.batch);
    forall n | HasBatch(s, n) ensures HasBatch(t, n) {}
    var next := LabelOp(op.num, t.cps[op.num], PodNames(op.batch), true);
    OneNewSized(s, t, op, next);
  }

  lemma OneNewSized(s: State, t: State, op: Op, next: Op)
    requires PendingOk(s) && PendingSized(s) && KeepsUndefensed(s, t) && KeepsBatches(s, t)
    requires t.pending == s.pending - multiset{op} + multiset{next} && OpSized(t, next)
    ensures PendingSized(t)
  {
    PendingSizedFrom(s, t);
  }

  lemma SpecStoreSized(s: State, t: State, n: nat, batch: seq<PodSummary>)
    requires StoreSized(s) && n in s.cps && n in t.cps && t.cps == s.cps[n := t.cps[n]]
    requires t.cfg == s.cfg && t.pods == s.pods && t.origin == s.origin
    requires t.cps[n].podInfos == batch && batch != []
    requires NamesOf(batch) <= s.pods.Keys && ExactSize(s, n, |batch|)
    ensures StoreSized(t)
  {
    forall m | HasBatch(t, m) ensures ExactSize(t, m, |t.cps[m].podInfos|) {
      assert m != n ==> HasBatch(s, m);
    }
    forall p, m | RecordedIn(t, p, m) ensures p in t.pods {
      assert m != n ==> RecordedIn(s, p, m);
    }
  }

  lemma StatusSized(s: State, s': State, n: nat, st: Status)
    requires PendingOk(s) && Sized(s) && n in s.cps && s.cps[n].Settled() && Level(st.phase) > 0
    requires s' == s.(pending := s'.pending) && s'.pending <= s.pending
    ensures Sized(Put(s', n, s.cps[n].(status := st)))
  {
    var t := Put(s', n, s.cps[n].(status := st));
    forall m | HasBatch(t, m) ensures ExactSize(t, m, |t.cps[m].podInfos|) { assert HasBatch(s, m); }
    forall p, m | RecordedIn(t, p, m) ensures p in t.pods { assert RecordedIn(s, p, m); }
    FewerSized(s, t);
  }

  /** Labelling a pod of a batch: every guard that was counted on is already settled. */
  lemma LabelSized(s: State, op: Op)
    requires Inv(s) && Sized(s) && op in s.pending && op.LabelOp? && op.todo != [] && op.todo[0] in s.pods
    ensures Sized(ExecLabel(Consume(s, op), op.num, op.read, op.todo, op.finish))
  {
    var t := ExecLabel(Consume(s, op), op.num, op.read, op.todo, op.finish);
    assert OpSized(s, op) && OpOk(s, op);
    var q, n := op.todo[0], op.num;
    var next := LabelOp(n, op.read, op.todo[1..], op.finish);
    assert q in op.todo && RecordedIn(s, q, n);
    if !s.cps[n].Init() {
      assert s.pods[q].defensed;
      assert t.pods == s.pods;
      OneNewSized(s, t, op, next);
      StoreSizedSame(s, t);
    } else {
      TopBatchSettlesCreates(s, n);
      TopLabelled(s, t, op, next, n);
    }
  }

  /** While the top ChangePod has its batch and is in ExecuteInit, every Create in flight is for a
      number that already has its batch. */
  lemma TopBatchSettlesCreates(s: State, n: nat)
    requires Inv(s) && StoreSized(s) && HasBatch(s, n) && s.cps[n].Init()
    ensures forall o :: o in s.pending && o.CreateOp? ==> HasBatch(s, o.count + 1)
    ensures forall m :: m in s.cps ==> HasBatch(s, m)
  {
    forall o | o in s.pending && o.CreateOp? ensures HasBatch(s, o.count + 1) {
      CreateIsCompareAndSwap(s, o);
    }
  }

  lemma TopLabelled(s: State, t: State, op: Op, next: Op, n: nat)
    requires StoreSized(s) && PendingSized(s)
    requires forall o :: o in s.pending && o.CreateOp? ==> HasBatch(s, o.count + 1)
    requires forall m :: m in s.cps ==> HasBatch(s, m)
    requires t == s.(pods := t.pods, pending := s.pending - multiset{op} + multiset{next}) && t.pods.Keys == s.pods.Keys
    requires next.LabelOp? && OpSized(t, next)
    ensures Sized(t)
  {
    forall o | o in t.pending ensures OpSized(t, o) {
      if o in s.pending {
        assert OpSized(s, o);
        if o.CreateOp? { assert HasBatch(t, o.count + 1); }
      }
    }
    forall p, m | RecordedIn(t, p, m) ensures p in t.pods { assert RecordedIn(s, p, m); }
    forall m | HasBatch(t, m) ensures ExactSize(t, m, |t.cps[m].podInfos|) { assert HasBatch(s, m); }
  }

  lemma DeleteSized(s: State, s': State, n: nat)
    requires PendingOk(s) && Sized(s) && s' == s.(pending := s'.pending) && s'.pending <= s.pending
    requires n in s.cps ==> !s.cps[n].Settled()
    ensures Sized(ExecDelete(s', n))
  {
    var t := ExecDelete(s', n);
    forall m | HasBatch(t, m) ensures ExactSize(t, m, |t.cps[m].podInfos|) { assert HasBatch(s, m); }
    forall p, m | RecordedIn(t, p, m) ensures p in t.pods { assert RecordedIn(s, p, m); }
    forall m | HasBatch(s, m) ensures HasBatch(t, m) {}
    FewerSized(s, t);
  }

  lemma StatusExecSized(s: State, op: Op)
    requires PendingOk(s) && Sized(s) && op in s.pending && (op.StatusOp? || op.PatchOp?)
    requires Sized(Consume(s, op))
    ensures Sized(Execute(Consume(s, op), op))
  {
    assert OpOk(s, op) && OpSized(s, op);
    match op
    case StatusOp(n, read, st) =>
      if Matches(s, n, read) { StatusSized(s, Consume(s, op), n, st); }
    case PatchOp(n, _, phase, results) =>
      StatusSized(s, Consume(s, op), n, Patched(s.cps[n].status, phase, results));
  }

  lemma ExecSized(s: State, op: Op)
    requires Inv(s) && Sized(s) && op in s.pending && CarefulStep(s, Exec(op))
    ensures Sized(Execute(Consume(s, op), op))
  {
    assert OpOk(s, op) && OpSized(s, op);
    ConsumeSized(s, op);
    match op
    case CreateOp(count, b) =>
      if count + 1 !in s.cps { CreateSized(s, Consume(s, op), count, b); }
    case SpecOp(n, read, _) =>
      if Matches(s, n, read) { SpecSized(s, op); }
    case LabelOp(_, _, _, _) => LabelExecSized(s, op);
    case DeleteOp(n, _) => DeleteSized(s, Consume(s, op), n);
    case _ => StatusExecSized(s, op);
  }

  lemma LabelExecSized(s: State, op: Op)
    requires Inv(s) && Sized(s) && op in s.pending && op.LabelOp? && OpSized(s, op)
    ensures Sized(ExecLabel(Consume(s, op), op.num, op.read, op.todo, op.finish))
  {
    if op.todo != [] && op.todo[0] in s.pods {
      LabelSized(s, op);
    } else {
      ConsumeSized(s, op);
      if op.todo == [] && op.finish {
        ConsumeStep(s, op);
        IssueSized(Consume(s, op), StatusOp(op.num, op.read, op.read.status.(phase := PreWait)));
      }
    }
  }

  ghost predicate NoRemoval(steps: seq<Step>) {
    forall i :: 0 <= i < |steps| ==> !steps[i].RemovePod?
  }

  lemma {:induction false} RunSized(s: State, steps: seq<Step>, t: State)
    requires Inv(s) && Sized(s) && CarefulRun(s, steps, t) && NoRemoval(steps)
    ensures Sized(t)
    decreases |steps|
  {
    if steps != [] {
      var step := steps[0];
      if step.Exec? {
        ExecSized(s, step.op);
      } else if step.Decide? || step.InitTurn? || step.Turn? || step.Sweep? || step.Receive? {
        ReadSized(s, step);
      } else {
        PodSized(s, step);
      }
      StepKeepsInv(s, step);
      RunSized(Apply(s, step), steps[1..], t);
    }
  }

  // ---------------------------------------------------------------- main results

  /** Reachable without deleting pods, with a threshold of at least one. */
  ghost predicate ReachableByGrowth(t: State) {
    exists s, steps :: Initial(s) && s.cfg.threshold >= 1 && CarefulRun(s, steps, t) && NoRemoval(steps)
  }

  lemma GrowthSized(t: State)
    requires ReachableByGrowth(t)
    ensures Inv(t) && Sized(t)
  {
    var s, steps :| Initial(s) && s.cfg.threshold >= 1 && CarefulRun(s, steps, t) && NoRemoval(steps);
    InitialInv(s);
    RunKeepsInv(s, steps, t);
    RunSized(s, steps, t);
  }

  /** Every batch that has left ExecuteInit has between one and threshold pods, and exactly
      threshold pods if its ChangePod was created by the threshold test of a Running workload. */
  lemma BatchSizeTheorem(t: State, n: nat)
    requires ReachableByGrowth(t)
    requires n in t.cps && !t.cps[n].Init()
    ensures 1 <= |t.cps[n].podInfos| <= t.cfg.threshold
    ensures n in t.origin && t.origin[n] ==> |t.cps[n].podInfos| == t.cfg.threshold
  {
    GrowthSized(t);
    assert HasBatch(t, n);
  }

  /** Number of pods recorded by the ChangePods 1..n. */
  function TotalRecorded(cps: ChangePods, n: nat): nat
    requires forall i :: 1 <= i <= n ==> i in cps
  {
    if n == 0 then 0 else TotalRecorded(cps, n - 1) + |cps[n].podInfos|
  }

  ghost function RecordedUpTo(s: State, n: nat): set<string>
    requires forall i :: 1 <= i <= n ==> i in s.cps
  {
    if n == 0 then {} else RecordedUpTo(s, n - 1) + NamesOf(s.cps[n].podInfos)
  }

  lemma {:induction false} RecordedUpToMembers(s: State, n: nat, p: string)
    requires forall i :: 1 <= i <= n ==> i in s.cps
    ensures p in RecordedUpTo(s, n) <==> exists i :: 1 <= i <= n && RecordedIn(s, p, i)
  {
    if n > 0 {
      RecordedUpToMembers(s, n - 1, p);
      if p in NamesOf(s.cps[n].podInfos) {
        assert RecordedIn(s, p, n);
      }
    }
  }

  lemma {:induction false} RecordedCount(s: State, n: nat)
    requires Exclusive(s) && forall i :: 1 <= i <= n ==> i in s.cps
    ensures |RecordedUpTo(s, n)| == TotalRecorded(s.cps, n)
  {
    if n > 0 {
      RecordedCount(s, n - 1);
      NamesCount(s.cps[n].podInfos);
      forall p | p in RecordedUpTo(s, n - 1) ensures p !in NamesOf(s.cps[n].podInfos) {
        RecordedUpToMembers(s, n - 1, p);
        if p in NamesOf(s.cps[n].podInfos) {
          assert RecordedIn(s, p, n);
        }
      }
    }
  }

  /** Conservation of pods: as long as no batch is in the middle of its initialisation, the finished
      pods are the pods of all batches and the undefended ones, with nothing counted twice. */
  lemma PodConservation(t: State)
    requires ReachableByGrowth(t)
    requires forall n :: n in t.cps && t.cps[n].Init() ==> t.cps[n].podInfos == []
    ensures (forall i :: 1 <= i <= |t.cps| ==> i in t.cps)
            && |FinishedSet(t.pods)| == TotalRecorded(t.cps, |t.cps|) + |UndefensedSet(t.pods)|
  {
    GrowthSized(t);
    ConservationFrom(t);
  }

  lemma ConservationFrom(t: State)
    requires Contiguous(t.cps) && Exclusive(t) && Labels(t) && StoreSized(t)
    requires forall n :: n in t.cps && t.cps[n].Init() ==> t.cps[n].podInfos == []
    ensures |FinishedSet(t.pods)| == TotalRecorded(t.cps, |t.cps|) + |UndefensedSet(t.pods)|
  {
    RecordedCount(t, |t.cps|);
    RecordedIsDefensed(t);
    assert FinishedSet(t.pods) == DefensedSet(t.pods) + UndefensedSet(t.pods);
    assert DefensedSet(t.pods) !! UndefensedSet(t.pods);
  }

  function DefensedSet(pods: map<string, Pod>): set<string> {
    set p | p in pods && pods[p].defensed
  }

  lemma RecordedIsDefensed(t: State)
    requires Contiguous(t.cps) && Labels(t) && StoreSized(t)
    requires forall n :: n in t.cps && t.cps[n].Init() ==> t.cps[n].podInfos == []
    ensures RecordedUpTo(t, |t.cps|) == DefensedSet(t.pods)
    ensures forall p :: p in t.pods && t.pods[p].defensed ==> t.pods[p].finished
  {
    forall p ensures p in RecordedUpTo(t, |t.cps|) <==> p in DefensedSet(t.pods) {
      RecordedUpToMembers(t, |t.cps|, p);
      if p in DefensedSet(t.pods) {
        assert Recorded(t, p);
        var i: nat :| RecordedIn(t, p, i);
        assert 1 <= i <= |t.cps|;
      }
    }
    forall p | p in t.pods && t.pods[p].defensed ensures t.pods[p].finished {
      assert Recorded(t, p);
    }
  }

  // ---------------------------------------------------------------- a threshold of zero

  ghost predicate NothingRecorded(s: State) {
    && s.cfg.threshold == 0
    && (forall p :: p in s.pods ==> !s.pods[p].defensed)
    && (forall n :: n in s.cps ==> s.cps[n].podInfos == [])
  }

  /** With a threshold of zero no pod is ever defended: every batch is empty and no pod is ever
      labelled, although ChangePods keep being created. */
  lemma ZeroThresholdDefendsNothing(s: State, steps: seq<Step>, t: State)
    requires Initial(s) && s.cfg.threshold == 0 && CarefulRun(s, steps, t)
    ensures NothingRecorded(t)
  {
    InitialInv(s);
    RunKeepsInv(s, steps, t);
    ConfigIsFixed(s, steps, t);
    assert forall p :: !Recorded(t, p);
  }

  lemma ConfigStep(s: State, step: Step)
    requires Enabled(s, step)
    ensures Apply(s, step).cfg == s.cfg
  {
  }

  lemma {:induction false} ConfigIsFixed(s: State, steps: seq<Step>, t: State)
    requires CarefulRun(s, steps, t)
    ensures t.cfg == s.cfg
    decreases |steps|
  {
    if steps != [] {
      ConfigStep(s, steps[0]);
      ConfigIsFixed(Apply(s, steps[0]), steps[1..], t);
    }
  }
}
