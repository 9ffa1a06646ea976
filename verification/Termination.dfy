/** With a fixed set of pods the operator makes a bounded number of changes, however its handlers
    interleave. */
module Termination {
  import opened Options
  import opened PodSummaries
  import opened Protocol
  import opened Safety
  import opened Atomic
  import opened Verdicts
  import opened Scheduling

  // ---------------------------------------------------------------- the measure

  /** Work left in one ChangePod. */
  function Weight(cp: ChangePod): nat {
    if cp.Init() then if cp.podInfos == [] then 1 else 8 else 6 - Rank(cp.status.phase)
  }

  function TotalWeight(cps: ChangePods, n: nat): nat
    requires forall i :: 1 <= i <= n ==> i in cps
  {
    if n == 0 then 0 else TotalWeight(cps, n - 1) + Weight(cps[n])
  }

  lemma {:induction false} TotalWeightSame(a: ChangePods, b: ChangePods, n: nat)
    requires forall i :: 1 <= i <= n ==> i in a && i in b && a[i] == b[i]
    ensures TotalWeight(a, n) == TotalWeight(b, n)
  {
    if n > 0 {
      TotalWeightSame(a, b, n - 1);
    }
  }

  lemma {:induction false} TotalWeightUpdate(a: ChangePods, n: nat, k: nat, cp: ChangePod)
    requires (forall i :: 1 <= i <= n ==> i in a) && 1 <= k <= n
    ensures TotalWeight(a[k := cp], n) == TotalWeight(a, n) - Weight(a[k]) + Weight(cp)
  {
    if k == n {
      TotalWeightSame(a, a[k := cp], n - 1);
    } else {
      TotalWeightUpdate(a, n - 1, k, cp);
    }
  }

  predicate RecordedNowhere(cps: ChangePods, p: string) {
    forall i :: i in cps ==> p !in NamesOf(cps[i].podInfos)
  }

  /** Undefended pods that no ChangePod records yet. */
  function Unrecorded(cps: ChangePods, pods: map<string, Pod>): set<string> {
    set p | p in pods && Undefensed(pods, p) && RecordedNowhere(cps, p)
  }

  /** The next batch still has to be created. */
  function StartCost(cps: ChangePods, pods: map<string, Pod>): nat {
    if NoInit(cps) && UndefensedSet(pods) != {} then 2 else 0
  }

  function CoreMeasure(cps: ChangePods, pods: map<string, Pod>): nat
    requires Contiguous(cps)
  {
    10 * |Unrecorded(cps, pods)| + |UndefensedSet(pods)| + StartCost(cps, pods) + TotalWeight(cps, |cps|)
  }

  /** The ChangePods in the order of their numbers. */
  function Numbers(cps: ChangePods): (r: seq<nat>)
    requires Contiguous(cps)
    ensures Lists(r, cps)
  {
    var r := seq(|cps|, i requires 0 <= i < |cps| => i + 1);
    assert forall n :: n in cps ==> r[n - 1] == n;
    r
  }

  /** Whether a sync would write. */
  predicate Outdated(cps: ChangePods, live: set<string>, wl: Workload)
    requires Contiguous(cps)
  {
    Sync(Listing(cps, Numbers(cps)), live, wl, 0, 0).Some?
  }

  function Measure(sys: System): nat
    requires Contiguous(sys.core.cps)
  {
    2 * CoreMeasure(sys.core.cps, sys.core.pods)
    + (if Outdated(sys.core.cps, sys.core.pods.Keys, sys.wl) then 1 else 0)
    + (if sys.wl.status == WInit then 1 else 0)
  }

  /** A sync in any listing order and for any replica count writes exactly when outdated. */
  lemma OutdatedExactly(s: State, wl: Workload, order: seq<nat>, replicas: int, finished: nat)
    requires Inv(s) && Lists(order, s.cps)
    ensures Outdated(s.cps, s.pods.Keys, wl) <==> Sync(Listing(s.cps, order), s.pods.Keys, wl, replicas, finished).Some?
  {
    var numbers := Numbers(s.cps);
    SyncOrderIndependent(s, numbers, order, true);
    SyncOrderIndependent(s, numbers, order, false);
    SyncWritesExactly(s, numbers, wl, 0, 0);
    SyncWritesExactly(s, order, wl, replicas, finished);
    var a, b := Listing(s.cps, numbers), Listing(s.cps, order);
    assert forall cp :: cp in DoneOnly(a) <==> cp in DoneOnly(b);
    assert DoneOnly(a) == [] <==> DoneOnly(b) == [] by {
      assert DoneOnly(a) != [] ==> DoneOnly(a)[0] in DoneOnly(b);
      assert DoneOnly(b) != [] ==> DoneOnly(b)[0] in DoneOnly(a);
    }
  }

  // ---------------------------------------------------------------- writes in flight

  /** A write in flight fits the present pods if the first pod of its batch is there, or if nobody waits
      when it is a delete. */
  predicate Fits(pods: map<string, Pod>, op: Op) {
    match op
    case SpecOp(_, _, batch) => batch != [] && batch[0].pod in pods
    case DeleteOp(_, _) => UndefensedSet(pods) == {}
    case _ => true
  }

  /** No pod comes, goes or finishes. */
  ghost predicate SamePods(s: State, t: State) {
    t.pods.Keys == s.pods.Keys && UndefensedSet(t.pods) <= UndefensedSet(s.pods)
  }

  /** All writes in flight fit, except those left over from before. */
  ghost predicate FitsBut(s: State, leftover: multiset<Op>) {
    leftover <= s.pending && forall op :: op in s.pending - leftover ==> Fits(s.pods, op)
  }

  lemma FitsStable(s: State, t: State, leftover: multiset<Op>)
    requires FitsBut(s, leftover) && SamePods(s, t) && leftover <= t.pending
    requires forall op :: op in t.pending - leftover && op !in s.pending - leftover ==> Fits(t.pods, op)
    ensures FitsBut(t, leftover)
  {
    forall op | op in t.pending - leftover ensures Fits(t.pods, op) {
      assert op in s.pending - leftover ==> Fits(s.pods, op);
    }
  }

  lemma NothingFiltered(order: seq<string>, pods: map<string, Pod>)
    requires Enumerates(order, pods.Keys) && FilterUndefensed(order, pods) == []
    ensures UndefensedSet(pods) == {}
  {
    assert forall p :: p in UndefensedSet(pods) ==> p in FilterUndefensed(order, pods);
  }

  lemma PlanFits(s: State, n: nat, read: ChangePod, order: seq<string>)
    requires s.cfg.threshold >= 1 && Enumerates(order, s.pods.Keys)
    ensures Fits(s.pods, InitPlan(s.cfg, s.pods, n, read, order))
  {
    if FilterUndefensed(order, s.pods) == [] {
      NothingFiltered(order, s.pods);
    } else {
      BatchProperties(s.cfg, s.pods, order);
      var batch := Batch(s.cfg, s.pods, order);
      assert batch[0] in batch;
    }
  }

  lemma IssueFits(s: State, op: Op, leftover: multiset<Op>)
    requires FitsBut(s, leftover) && Fits(s.pods, op)
    ensures FitsBut(Issue(s, op), leftover)
  {
    FitsStable(s, Issue(s, op), leftover);
  }

  lemma ReadFits(s: State, step: Step, leftover: multiset<Op>)
    requires FitsBut(s, leftover) && s.cfg.threshold >= 1 && Reads(step) && Enabled(s, step)
    ensures FitsBut(Apply(s, step), leftover)
  {
    match step
    case InitTurn(k, n, order) =>
      PlanFits(s, n, s.history[k][n], order);
      IssueFits(s, InitPlan(s.cfg, s.pods, n, s.history[k][n], order), leftover);
    case Turn(k, n, reply) =>
      IssueFits(s, StatusOp(n, s.history[k][n], Advance(s.history[k][n].status, reply, s.now).value), leftover);
    case Sweep(k, n) =>
      IssueFits(s, StatusOp(n, s.history[k][n], Expire(s.history[k][n].status, s.now).value), leftover);
    case Receive(k, n, stage, v, m) =>
      IssueFits(s, CallbackPatch(n, s.history[k][n], stage, v, m).value, leftover);
  }

  /** What is left over once `op` is no longer in flight. */
  function Without(s: State, op: Op, leftover: multiset<Op>): multiset<Op> {
    if op in s.pending - leftover then leftover else leftover - multiset{op}
  }

  lemma ConsumeFits(s: State, op: Op, leftover: multiset<Op>)
    requires FitsBut(s, leftover) && op in s.pending
    ensures FitsBut(Consume(s, op), Without(s, op, leftover))
    ensures !Fits(s.pods, op) ==> |Without(s, op, leftover)| == |leftover| - 1
    ensures |Without(s, op, leftover)| <= |leftover|
  {
    var rest := Without(s, op, leftover);
    var t := Consume(s, op);
    forall o | o in t.pending - rest ensures Fits(t.pods, o) {
      assert o in s.pending - leftover;
    }
  }

  lemma ExecPods(s: State, op: Op)
    ensures SamePods(s, Execute(s, op))
  {
  }

  lemma ExecAdds(s: State, op: Op) returns (next: Option<Op>)
    ensures Execute(s, op).pending == s.pending + (if next.Some? then multiset{next.value} else multiset{})
    ensures next.Some? ==> next.value.LabelOp? || next.value.StatusOp?
  {
    match op
    case SpecOp(n, read, batch) =>
      next := if Matches(s, n, read) then Some(LabelOp(n, Execute(s, op).cps[n], PodNames(batch), true)) else None;
    case LabelOp(n, read, todo, finish) =>
      next := if todo == [] then
                if finish then Some(StatusOp(n, read, read.status.(phase := PreWait))) else None
              else if todo[0] !in s.pods then None else Some(LabelOp(n, read, todo[1..], finish));
    case _ => next := None;
  }

  lemma ExecFits(s: State, op: Op, leftover: multiset<Op>)
    requires FitsBut(s, leftover)
    ensures FitsBut(Execute(s, op), leftover)
  {
    ExecPods(s, op);
    var next := ExecAdds(s, op);
    FitsStable(s, Execute(s, op), leftover);
  }

  // ---------------------------------------------------------------- every write lowers the measure

  ghost predicate Lowered(s: State, t: State)
    requires Contiguous(s.cps)
  {
    && Contiguous(t.cps)
    && ((t.cps == s.cps && t.pods == s.pods) || CoreMeasure(t.cps, t.pods) < CoreMeasure(s.cps, s.pods))
  }

  lemma ProperSubset(a: set<string>, b: set<string>, p: string)
    requires a <= b && p in b && p !in a
    ensures |a| < |b|
  {
    SubsetCard(a, b - {p});
  }

  /** A batch that is recorded takes its first pod out of the unrecorded ones. */
  lemma RecordingTakes(s: State, op: Op)
    requires Labels(s) && op.SpecOp? && OpOk(s, op) && Fits(s.pods, op) && Matches(s, op.num, op.read)
    ensures op.batch[0].pod in Unrecorded(s.cps, s.pods)
    ensures forall i :: i in s.cps && s.cps[i].podInfos != [] ==> i != op.num
  {
    var p := op.batch[0].pod;
    assert op.batch[0] in op.batch && p in NamesOf(op.batch);
    forall i | i in s.cps ensures p !in NamesOf(s.cps[i].podInfos) {
      assert !RecordedIn(s, p, i);
    }
    assert !Recorded(s, p);
  }

  lemma SpecLowers(s: State, t: State, op: Op)
    requires Contiguous(s.cps) && Labels(s)
    requires op.SpecOp? && OpOk(s, op) && Fits(s.pods, op) && Matches(s, op.num, op.read)
    requires t.cps == s.cps[op.num := s.cps[op.num].(podInfos := op.batch, rv := s.nextRv)] && t.pods == s.pods
    ensures Lowered(s, t)
  {
    var n := op.num;
    var p := op.batch[0].pod;
    RecordingTakes(s, op);
    assert op.batch[0] in op.batch && p in NamesOf(t.cps[n].podInfos);
    forall q | q in Unrecorded(t.cps, t.pods) ensures q in Unrecorded(s.cps, s.pods) {
      forall i | i in s.cps ensures q !in NamesOf(s.cps[i].podInfos) {
        assert i in t.cps && (i != n ==> t.cps[i] == s.cps[i]);
      }
    }
    ProperSubset(Unrecorded(t.cps, t.pods), Unrecorded(s.cps, s.pods), p);
    assert |t.cps| == |s.cps| && !NoInit(t.cps) && !NoInit(s.cps);
    TotalWeightUpdate(s.cps, |s.cps|, n, t.cps[n]);
  }

  /** A label that changes something is the label of a recorded pod of the initialising ChangePod. */
  lemma LabelLowers(s: State, op: Op)
    requires Contiguous(s.cps) && Labels(s) && op.LabelOp? && OpOk(s, op) && op.todo != [] && op.todo[0] in s.pods
    ensures Lowered(s, s.(pods := LabelPod(s.pods, op.todo[0])))
  {
    var q := op.todo[0];
    var pods := LabelPod(s.pods, q);
    assert q in op.todo && RecordedIn(s, q, op.num);
    if s.pods[q].defensed {
      assert pods == s.pods;
    } else {
      assert !NoInit(s.cps);
      ProperSubset(UndefensedSet(pods), UndefensedSet(s.pods), q);
      assert Unrecorded(s.cps, pods) == Unrecorded(s.cps, s.pods);
    }
  }

  /** Records are kept. */
  lemma SameRecords(a: ChangePods, b: ChangePods, pods: map<string, Pod>)
    requires a.Keys == b.Keys && forall i :: i in a ==> a[i].podInfos == b[i].podInfos
    ensures Unrecorded(a, pods) == Unrecorded(b, pods)
  {
    forall p ensures RecordedNowhere(a, p) <==> RecordedNowhere(b, p) {
      forall i | i in a ensures NamesOf(a[i].podInfos) == NamesOf(b[i].podInfos) {}
    }
  }

  /** A status write that raises the rank of a ChangePod with its batch. */
  lemma StatusLowers(s: State, t: State, n: nat, st: Status)
    requires Contiguous(s.cps) && n in s.cps && s.cps[n].Settled() && Rank(st.phase) > Rank(s.cps[n].status.phase)
    requires t.cps == s.cps[n := s.cps[n].(status := st, rv := s.nextRv)] && t.pods == s.pods
    ensures Lowered(s, t)
  {
    assert |t.cps| == |s.cps|;
    SameRecords(s.cps, t.cps, s.pods);
    TotalWeightUpdate(s.cps, |s.cps|, n, t.cps[n]);
    if !s.cps[n].Init() {
      assert NoInit(t.cps) ==> NoInit(s.cps) by {
        assert forall m :: m in s.cps && m != n ==> t.cps[m] == s.cps[m];
      }
    }
  }

  lemma TopRemovedLowers(cps: ChangePods, n: nat, pods: map<string, Pod>)
    requires Contiguous(cps) && n == |cps| && n in cps && UndefensedSet(pods) == {} && Weight(cps[n]) > 0
    ensures Contiguous(cps - {n}) && CoreMeasure(cps - {n}, pods) < CoreMeasure(cps, pods)
  {
    var rest := cps - {n};
    assert rest.Keys == cps.Keys - {n};
    assert |rest| == |rest.Keys| == n - 1;
    TotalWeightSame(cps, rest, n - 1);
    assert Unrecorded(rest, pods) <= UndefensedSet(pods);
  }

  lemma DeleteLowers(s: State, s': State, n: nat)
    requires Contiguous(s.cps) && OnlyTopInit(s.cps) && n in s.cps && !s.cps[n].Settled() && UndefensedSet(s.pods) == {}
    requires s' == s.(pending := s'.pending)
    ensures Lowered(s, ExecDelete(s', n))
  {
    TopRemovedLowers(s.cps, n, s.pods);
  }

  /** A callback's patch climbs if the stored phase is below the one it writes. */
  predicate PatchClimbs(s: State, op: Op) {
    op.PatchOp? && op.num in s.cps ==> Rank(s.cps[op.num].status.phase) < Rank(op.phase)
  }

  lemma SpecExecLowers(s: State, s': State, op: Op)
    requires Contiguous(s.cps) && Labels(s) && op.SpecOp? && OpOk(s, op) && Fits(s.pods, op)
    requires s' == s.(pending := s'.pending)
    ensures Lowered(s, ExecSpec(s', op.num, op.read, op.batch))
  {
    if Matches(s, op.num, op.read) {
      SpecLowers(s, ExecSpec(s', op.num, op.read, op.batch), op);
    }
  }

  lemma LabelExecLowers(s: State, s': State, op: Op)
    requires Contiguous(s.cps) && Labels(s) && op.LabelOp? && OpOk(s, op) && s' == s.(pending := s'.pending)
    ensures Lowered(s, ExecLabel(s', op.num, op.read, op.todo, op.finish))
  {
    if op.todo != [] && op.todo[0] in s.pods {
      LabelLowers(s, op);
    }
  }

  lemma StatusExecLowers(s: State, s': State, op: Op)
    requires Contiguous(s.cps) && op.StatusOp? && OpOk(s, op) && WellPlanned(op) && s' == s.(pending := s'.pending)
    ensures Lowered(s, ExecStatus(s', op.num, op.read, op.status))
  {
    if Matches(s, op.num, op.read) {
      StatusLowers(s, ExecStatus(s', op.num, op.read, op.status), op.num, op.status);
    }
  }

  lemma PatchExecLowers(s: State, s': State, op: Op)
    requires Contiguous(s.cps) && op.PatchOp? && OpOk(s, op) && PatchClimbs(s, op) && s' == s.(pending := s'.pending)
    ensures Lowered(s, ExecPatch(s', op.num, op.phase, op.results))
  {
    StatusLowers(s, ExecPatch(s', op.num, op.phase, op.results), op.num,
                 Patched(s.cps[op.num].status, op.phase, op.results));
  }

  lemma ExecLowers(s: State, op: Op)
    requires Contiguous(s.cps) && OnlyTopInit(s.cps) && Labels(s) && OpOk(s, op) && WellPlanned(op)
    requires Fits(s.pods, op) && !op.CreateOp?
    requires CarefulStep(s, Exec(op)) && PatchClimbs(s, op)
    ensures Lowered(s, Execute(Consume(s, op), op))
  {
    var s' := Consume(s, op);
    match op {
      case SpecOp(_, _, _) => SpecExecLowers(s, s', op);
      case LabelOp(_, _, _, _) => LabelExecLowers(s, s', op);
      case StatusOp(_, _, _) => StatusExecLowers(s, s', op);
      case DeleteOp(n, _) => if n in s.cps { DeleteLowers(s, s', n); }
      case PatchOp(_, _, _, _) => PatchExecLowers(s, s', op);
    }
  }

  // ---------------------------------------------------------------- writes that do not fit

  ghost predicate HardlyRaised(s: State, t: State)
    requires Contiguous(s.cps)
  {
    Contiguous(t.cps) && CoreMeasure(t.cps, t.pods) <= CoreMeasure(s.cps, s.pods) + 7
  }

  lemma SpecRaises(s: State, s': State, op: Op)
    requires Contiguous(s.cps) && op.SpecOp? && OpOk(s, op) && s' == s.(pending := s'.pending)
    ensures HardlyRaised(s, ExecSpec(s', op.num, op.read, op.batch))
  {
    if Matches(s, op.num, op.read) {
      var n := op.num;
      var t := ExecSpec(s', n, op.read, op.batch);
      forall q | q in Unrecorded(t.cps, t.pods) ensures q in Unrecorded(s.cps, s.pods) {
        forall i | i in s.cps ensures q !in NamesOf(s.cps[i].podInfos) {
          assert i in t.cps && (i != n ==> t.cps[i] == s.cps[i]);
        }
      }
      SubsetCard(Unrecorded(t.cps, t.pods), Unrecorded(s.cps, s.pods));
      assert |t.cps| == |s.cps| && t.cps[n].Init();
      TotalWeightUpdate(s.cps, |s.cps|, n, t.cps[n]);
    }
  }

  lemma TopRemovedRaises(cps: ChangePods, n: nat, pods: map<string, Pod>)
    requires Contiguous(cps) && n == |cps| && n in cps && cps[n].podInfos == []
    ensures Contiguous(cps - {n}) && CoreMeasure(cps - {n}, pods) <= CoreMeasure(cps, pods) + 7
  {
    var rest := cps - {n};
    assert rest.Keys == cps.Keys - {n};
    assert |rest| == |rest.Keys| == n - 1;
    TotalWeightSame(cps, rest, n - 1);
    assert cps == rest[n := cps[n]];
    CreatedRecordsNothing(rest, cps, n, pods);
  }

  lemma PatchRaises(s: State, s': State, op: Op)
    requires Contiguous(s.cps) && op.PatchOp? && OpOk(s, op) && s' == s.(pending := s'.pending)
    ensures HardlyRaised(s, ExecPatch(s', op.num, op.phase, op.results))
  {
    var n := op.num;
    var t := ExecPatch(s', n, op.phase, op.results);
    assert |t.cps| == |s.cps|;
    SameRecords(s.cps, t.cps, s.pods);
    TotalWeightUpdate(s.cps, |s.cps|, n, t.cps[n]);
    assert NoInit(t.cps) ==> NoInit(s.cps) by {
      assert forall m :: m in s.cps && m != n ==> t.cps[m] == s.cps[m];
    }
  }

  /** A write that does not fit the pods any more, or a callback that finds its ChangePod moved on, costs
      at most 7. */
  lemma ExecRaises(s: State, op: Op)
    requires Contiguous(s.cps) && OnlyTopInit(s.cps) && OpOk(s, op) && CarefulStep(s, Exec(op))
    requires op.SpecOp? || op.DeleteOp? || op.PatchOp?
    ensures HardlyRaised(s, Execute(Consume(s, op), op))
  {
    if op.SpecOp? {
      SpecRaises(s, Consume(s, op), op);
    } else if op.PatchOp? {
      PatchRaises(s, Consume(s, op), op);
    } else if op.num in s.cps {
      TopRemovedRaises(s.cps, op.num, s.pods);
    }
  }

  /** Starting a batch lowers the measure. */
  lemma CreateLowers(s: State, byThreshold: bool)
    requires Contiguous(s.cps) && s.cfg.threshold >= 1
    ensures Lowered(s, CreateOutcome(s, byThreshold))
  {
    if NoInit(s.cps) && ReachesThreshold(s.cfg, s.pods, byThreshold) {
      CreateOutcomeLowers(s, byThreshold);
    }
  }

  lemma CreateOutcomeLowers(s: State, byThreshold: bool)
    requires Contiguous(s.cps) && NoInit(s.cps) && UndefensedSet(s.pods) != {}
    ensures Lowered(s, ExecCreate(s, |s.cps|, byThreshold))
  {
    var t := ExecCreate(s, |s.cps|, byThreshold);
    var n := |s.cps| + 1;
    assert n !in s.cps;
    CreateNumbers(s.cps, n, t.cps[n]);
    assert t.cps == s.cps[n := t.cps[n]] && |t.cps| == n;
    TotalWeightSame(s.cps, t.cps, n - 1);
    assert t.cps[n].Init() && t.cps[n].podInfos == [];
    CreatedRecordsNothing(s.cps, t.cps, n, s.pods);
  }

  lemma CreatedRecordsNothing(a: ChangePods, b: ChangePods, n: nat, pods: map<string, Pod>)
    requires n in b && b[n].podInfos == [] && b == a[n := b[n]] && n !in a
    ensures Unrecorded(a, pods) == Unrecorded(b, pods)
  {
    forall p ensures RecordedNowhere(a, p) <==> RecordedNowhere(b, p) {
      assert p !in NamesOf(b[n].podInfos);
      assert forall i :: i in a ==> i in b && b[i] == a[i];
      assert forall i :: i in b && i != n ==> i in a;
    }
  }

  // ---------------------------------------------------------------- actions

  predicate Changes(sys: System, end: System) {
    end.core.cps != sys.core.cps || end.core.pods != sys.core.pods || end.wl != sys.wl
  }

  ghost predicate Lowers(sys: System, end: System)
    requires Contiguous(sys.core.cps)
  {
    && Contiguous(end.core.cps)
    && (if Changes(sys, end) then Measure(end) < Measure(sys) else Measure(end) == Measure(sys))
  }

  lemma ChangeLowers(sys: System, core: State)
    requires Contiguous(sys.core.cps) && Lowered(sys.core, core)
    ensures Lowers(sys, Change(sys, core))
  {
  }

  /** After a sync in which nothing was missed, the lists are up to date. */
  lemma SyncedIsCurrent(s: State, wl: Workload, listing: seq<nat>, replicas: int, next: Option<Workload>)
    requires Inv(s) && Lists(listing, s.cps)
    requires next == Sync(Listing(s.cps, listing), s.pods.Keys, wl, replicas, |FinishedSet(s.pods)|)
    ensures !Outdated(s.cps, s.pods.Keys, if next.Some? then next.value else wl)
    ensures next.Some? ==> Outdated(s.cps, s.pods.Keys, wl)
  {
    OutdatedExactly(s, wl, listing, replicas, |FinishedSet(s.pods)|);
    if next.Some? {
      SyncSettles(s, listing, Numbers(s.cps), wl, replicas, 0, |FinishedSet(s.pods)|, 0);
    }
  }

  lemma ServeActiveShape(sys: System, a: Action)
    requires Contiguous(sys.core.cps) && WorkloadOk(sys.wl)
    requires a.Served? && Can(sys, a) && Effective(sys, a.request) && sys.wl.status != WInit
    ensures var end := Act(sys, a);
            var next := Sync(Listing(end.core.cps, a.listing), end.core.pods.Keys, sys.wl, a.replicas,
                             |FinishedSet(end.core.pods)|);
            && end.core == CreateOutcome(sys.core, sys.wl.status == Running)
            && end.core.pods == sys.core.pods && Lists(a.listing, end.core.cps)
            && end.wl == (if next.Some? then next.value else sys.wl) && end.wl.status != WInit
  {
    CreateOutcomeShape(sys.core, sys.wl.status == Running);
    ActiveNext(sys, a.listing, a.replicas);
    ServedParts(sys, a);
  }

  /** What an active workload's turn writes: TimeOutPreThreshold does not occur. */
  lemma ActiveNext(sys: System, listing: seq<nat>, replicas: int)
    requires WorkloadOk(sys.wl) && sys.wl.status != WInit && Lists(listing, Created(sys).cps)
    ensures Created(sys) == CreateOutcome(sys.core, sys.wl.status == Running)
    ensures NextWorkload(sys, listing, replicas) ==
              Sync(Listing(Created(sys).cps, listing), sys.core.pods.Keys, sys.wl, replicas,
                   |FinishedSet(sys.core.pods)|)
    ensures NextWorkload(sys, listing, replicas).Some? ==> NextWorkload(sys, listing, replicas).value.status != WInit
  {
    NextIsOk(sys, listing, replicas);
  }

  lemma SyncLowers(sys: System, end: System)
    requires Contiguous(sys.core.cps) && Lowered(sys.core, end.core)
    requires sys.wl.status != WInit && end.wl.status != WInit
    requires !Outdated(end.core.cps, end.core.pods.Keys, end.wl)
    requires end.wl != sys.wl ==> Outdated(end.core.cps, end.core.pods.Keys, sys.wl)
    ensures Lowers(sys, end)
  {
  }

  lemma ServeActiveLowers(sys: System, a: Action)
    requires SysInv(sys) && a.Served? && Can(sys, a) && Effective(sys, a.request) && sys.wl.status != WInit
    ensures Lowers(sys, Act(sys, a))
  {
    var end := Act(sys, a);
    ActKeepsInv(sys, a);
    CreateLowers(sys.core, sys.wl.status == Running);
    ServeActiveShape(sys, a);
    ServedIsCurrent(end.core, sys.wl, end.wl, a.listing, a.replicas);
    SyncLowers(sys, end);
  }

  lemma ServedIsCurrent(s: State, wl: Workload, wl': Workload, listing: seq<nat>, replicas: int)
    requires Inv(s) && Lists(listing, s.cps)
    requires var next := Sync(Listing(s.cps, listing), s.pods.Keys, wl, replicas, |FinishedSet(s.pods)|);
             wl' == if next.Some? then next.value else wl
    ensures !Outdated(s.cps, s.pods.Keys, wl') && (wl' != wl ==> Outdated(s.cps, s.pods.Keys, wl))
  {
    var next := Sync(Listing(s.cps, listing), s.pods.Keys, wl, replicas, |FinishedSet(s.pods)|);
    SyncedIsCurrent(s, wl, listing, replicas, next);
  }

  lemma ServeLowers(sys: System, a: Action)
    requires SysInv(sys) && a.Served? && Can(sys, a)
    ensures Lowers(sys, Act(sys, a))
  {
    if Effective(sys, a.request) && sys.wl.status != WInit {
      ServeActiveLowers(sys, a);
    } else {
      ServeInitLowers(sys, a);
    }
  }

  lemma OutdatedIgnoresStatus(cps: ChangePods, live: set<string>, wl: Workload, status: WorkloadStatus)
    requires Contiguous(cps)
    ensures Outdated(cps, live, wl.(status := status)) == Outdated(cps, live, wl)
  {
  }

  lemma ServeInitLowers(sys: System, a: Action)
    requires Contiguous(sys.core.cps) && a.Served? && Can(sys, a)
    requires !Effective(sys, a.request) || sys.wl.status == WInit
    ensures Lowers(sys, Act(sys, a))
  {
    var end := Act(sys, a);
    OutdatedIgnoresStatus(sys.core.cps, sys.core.pods.Keys, sys.wl, Running);
    assert end.core == sys.core && (end.wl == sys.wl || end.wl == sys.wl.(status := Running));
  }

  lemma ServeFrame(sys: System, a: Action)
    requires Contiguous(sys.core.cps) && a.Served? && Can(sys, a)
    ensures SamePods(sys.core, Act(sys, a).core) && Act(sys, a).core.pending == sys.core.pending
  {
    CreateOutcomeShape(sys.core, sys.wl.status == Running);
  }

  predicate PodsRest(a: Action) { !a.PodAdded? && !a.PodFinished? && !a.PodRemoved? }

  lemma StillLowers(sys: System, end: System)
    requires Contiguous(sys.core.cps) && !Changes(sys, end)
    ensures Lowers(sys, end)
  {
  }

  lemma ReadFrame(s: State, step: Step)
    requires Reads(step) && Enabled(s, step)
    ensures Apply(s, step).cps == s.cps && Apply(s, step).pods == s.pods
  {
  }

  predicate Idle(a: Action) {
    a.Dropped? || a.ClockTicked? || a.WorkloadSwept? || a.Restarted?
  }

  lemma IdleFrame(sys: System, a: Action)
    requires Idle(a) && Can(sys, a)
    ensures var t := Act(sys, a).core;
            t.cps == sys.core.cps && t.pods == sys.core.pods && t.pending <= sys.core.pending
    ensures sys.wl.preparing == [] ==> Act(sys, a).wl == sys.wl
  {
  }

  /** What is left over of the writes that were in flight before the pods came to rest. */
  function Leftover(sys: System, a: Action, leftover: multiset<Op>): multiset<Op> {
    match a
    case Executed(op) => Without(sys.core, op, leftover)
    case Dropped(op) => Without(sys.core, op, leftover)
    case _ => leftover
  }

  lemma QuietFits(sys: System, a: Action, leftover: multiset<Op>)
    requires FitsBut(sys.core, leftover) && Can(sys, a) && (a.ClockTicked? || a.WorkloadSwept? || a.Restarted?)
    ensures FitsBut(Act(sys, a).core, leftover)
  {
    var t := Act(sys, a).core;
    assert t.pending == sys.core.pending && t.pods == sys.core.pods;
  }

  lemma ExecutedFits(s: State, op: Op, leftover: multiset<Op>)
    requires FitsBut(s, leftover) && op in s.pending
    ensures FitsBut(Execute(Consume(s, op), op), Without(s, op, leftover))
  {
    ConsumeFits(s, op, leftover);
    ExecFits(Consume(s, op), op, Without(s, op, leftover));
  }

  lemma ExecutedShape(sys: System, op: Op)
    requires Can(sys, Executed(op))
    ensures Act(sys, Executed(op)) == Change(sys, Execute(Consume(sys.core, op), op))
  {
    assert Apply(sys.core, Exec(op)) == Execute(Consume(sys.core, op), op);
  }

  lemma ExecuteActionFits(sys: System, op: Op, leftover: multiset<Op>)
    requires FitsBut(sys.core, leftover) && Can(sys, Executed(op))
    ensures FitsBut(Act(sys, Executed(op)).core, Without(sys.core, op, leftover))
  {
    ExecutedFits(sys.core, op, leftover);
    ExecutedShape(sys, op);
  }

  lemma DropActionFits(sys: System, op: Op, leftover: multiset<Op>)
    requires FitsBut(sys.core, leftover) && Can(sys, Dropped(op))
    ensures FitsBut(Act(sys, Dropped(op)).core, Without(sys.core, op, leftover))
  {
    ConsumeFits(sys.core, op, leftover);
  }

  lemma ServeActionFits(sys: System, a: Action, leftover: multiset<Op>)
    requires Contiguous(sys.core.cps) && FitsBut(sys.core, leftover) && a.Served? && Can(sys, a)
    ensures FitsBut(Act(sys, a).core, leftover)
  {
    ServeFrame(sys, a);
    FitsStable(sys.core, Act(sys, a).core, leftover);
  }

  lemma PlanActionFits(sys: System, step: Step, leftover: multiset<Op>)
    requires FitsBut(sys.core, leftover) && sys.core.cfg.threshold >= 1 && Can(sys, Planned(step))
    ensures FitsBut(Act(sys, Planned(step)).core, leftover)
  {
    ReadFits(sys.core, step, leftover);
  }

  lemma ActFits(sys: System, a: Action, leftover: multiset<Op>)
    requires Contiguous(sys.core.cps) && sys.core.cfg.threshold >= 1
    requires FitsBut(sys.core, leftover) && Can(sys, a) && PodsRest(a)
    ensures FitsBut(Act(sys, a).core, Leftover(sys, a, leftover))
  {
    match a
    case Served(_, _, _) => ServeActionFits(sys, a, leftover);
    case Executed(op) => ExecuteActionFits(sys, op, leftover);
    case Planned(step) => PlanActionFits(sys, step, leftover);
    case Dropped(op) => DropActionFits(sys, op, leftover);
    case ClockTicked | WorkloadSwept | Restarted => QuietFits(sys, a, leftover);
  }

  lemma ExecutedLowers(sys: System, op: Op)
    requires Contiguous(sys.core.cps) && OnlyTopInit(sys.core.cps) && Labels(sys.core) && OpOk(sys.core, op)
    requires WellPlanned(op) && Fits(sys.core.pods, op) && Can(sys, Executed(op)) && PatchClimbs(sys.core, op)
    ensures Lowers(sys, Act(sys, Executed(op)))
  {
    ExecLowers(sys.core, op);
    ChangeLowers(sys, Execute(Consume(sys.core, op), op));
    ExecutedShape(sys, op);
  }

  lemma ChangeRaises(sys: System, core: State)
    requires Contiguous(sys.core.cps) && HardlyRaised(sys.core, core)
    ensures var end := Change(sys, core); Contiguous(end.core.cps) && Measure(end) <= Measure(sys) + 15
  {
  }

  lemma ExecutedRaises(sys: System, op: Op)
    requires Contiguous(sys.core.cps) && OnlyTopInit(sys.core.cps) && OpOk(sys.core, op)
    requires (op.SpecOp? || op.DeleteOp? || op.PatchOp?) && Can(sys, Executed(op))
    ensures var end := Act(sys, Executed(op)); Contiguous(end.core.cps) && Measure(end) <= Measure(sys) + 15
  {
    ExecRaises(sys.core, op);
    ChangeRaises(sys, Execute(Consume(sys.core, op), op));
    ExecutedShape(sys, op);
  }

  /** A callback that finds its ChangePod moved on. */
  predicate Stale(sys: System, a: Action) {
    a.Executed? && !PatchClimbs(sys.core, a.op)
  }

  /** A write that was left over and does not fit, or a stale callback. */
  predicate Misfit(sys: System, a: Action) {
    Stale(sys, a) || (a.Executed? && !Fits(sys.core.pods, a.op))
  }

  /** While the pods rest, every action that changes a ChangePod, a pod label or the workload's status strictly
      lowers the measure, and one that changes none of them leaves it alone; only a stale callback, and a write
      left over from before the pods came to rest, can raise it, by at most 15. */
  lemma MeasureDecreases(sys: System, a: Action)
    requires SysInv(sys) && Can(sys, a) && PodsRest(a)
    ensures !Misfit(sys, a) ==> Lowers(sys, Act(sys, a))
    ensures Misfit(sys, a) ==> Contiguous(Act(sys, a).core.cps) && Measure(Act(sys, a)) <= Measure(sys) + 15
  {
    match a
    case Served(_, _, _) => ServeLowers(sys, a);
    case Executed(op) =>
      assert OpOk(sys.core, op) && WellPlanned(op);
      if Misfit(sys, a) {
        ExecutedRaises(sys, op);
      } else {
        ExecutedLowers(sys, op);
      }
    case Planned(step) =>
      ReadFrame(sys.core, step);
      StillLowers(sys, Act(sys, a));
    case Dropped(_) | ClockTicked | WorkloadSwept | Restarted =>
      IdleFrame(sys, a);
      StillLowers(sys, Act(sys, a));
  }

  /** One action against the measure, with an allowance of 16 for every write left over and every stale
      callback. */
  lemma ActCost(sys: System, a: Action, leftover: multiset<Op>)
    requires SysInv(sys) && Can(sys, a) && PodsRest(a) && FitsBut(sys.core, leftover)
    ensures var end := Act(sys, a);
            && Contiguous(end.core.cps)
            && (if Changes(sys, end) then 1 else 0) + Measure(end) + 16 * |Leftover(sys, a, leftover)|
               <= Measure(sys) + 16 * |leftover| + (if Stale(sys, a) then 16 else 0)
  {
    MeasureDecreases(sys, a);
    if a.Executed? {
      ConsumeFits(sys.core, a.op, leftover);
    } else if a.Dropped? {
      ConsumeFits(sys.core, a.op, leftover);
    }
  }

  // ---------------------------------------------------------------- main result

  /** Number of actions in a run that change something. */
  ghost function ChangeCount(sys: System, actions: seq<Action>): nat
    decreases |actions|
  {
    if actions == [] || !Can(sys, actions[0]) then 0
    else
      var next := Act(sys, actions[0]);
      (if Changes(sys, next) then 1 else 0) + ChangeCount(next, actions[1..])
  }

  /** Number of callbacks in a run that found their ChangePod moved on. */
  ghost function StaleCount(sys: System, actions: seq<Action>): nat
    decreases |actions|
  {
    if actions == [] || !Can(sys, actions[0]) then 0
    else (if Stale(sys, actions[0]) then 1 else 0) + StaleCount(Act(sys, actions[0]), actions[1..])
  }

  ghost predicate AllPodsRest(actions: seq<Action>) {
    forall i :: 0 <= i < |actions| ==> PodsRest(actions[i])
  }

  lemma {:induction false} ChangesAgainstLeftover(
    sys: System, actions: seq<Action>, end: System, leftover: multiset<Op>)
    requires SysInv(sys) && FitsBut(sys.core, leftover) && SystemRun(sys, actions, end) && AllPodsRest(actions)
    ensures ChangeCount(sys, actions) <= Measure(sys) + 16 * |leftover| + 16 * StaleCount(sys, actions)
    decreases |actions|
  {
    if actions != [] {
      var a := actions[0];
      ActCost(sys, a, leftover);
      ActFits(sys, a, leftover);
      ActKeepsSysInv(sys, a);
      ChangesAgainstLeftover(Act(sys, a), actions[1..], end, Leftover(sys, a, leftover));
    }
  }

  /** Termination: with a threshold of at least one, once no pod comes, goes or finishes any more, the
      operator makes a bounded number of further changes to ChangePods, pod labels and the workload: at most
      `Measure`, and 16 for every write then in flight and every callback that finds its ChangePod moved on.
      Turns, sweeps and callbacks interleave at single API calls and read any past ChangePod, writes are lost,
      time passes and timeouts strike, and the operator restarts. */
  lemma BoundedChanges(sys: System, actions: seq<Action>, end: System)
    requires SysInv(sys) && SystemRun(sys, actions, end) && AllPodsRest(actions)
    ensures ChangeCount(sys, actions) <= Measure(sys) + 16 * |sys.core.pending| + 16 * StaleCount(sys, actions)
  {
    assert sys.core.pending - sys.core.pending == multiset{};
    ChangesAgainstLeftover(sys, actions, end, sys.core.pending);
  }
}
