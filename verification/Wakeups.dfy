/** Why no batch is forgotten: whenever one is due, a request is queued that will start it. */
module Wakeups {
  import opened PodSummaries
  import opened Protocol
  import opened Safety
  import opened Atomic
  import opened Verdicts
  import opened Scheduling

  /** Nothing is initialising, and enough undefended pods are there for a batch; or for leaving Init, where
      one is enough. */
  predicate Due(sys: System) {
    && sys.wl.status != Failed && NoInit(sys.core.cps)
    && ReachesThreshold(sys.core.cfg, sys.core.pods, sys.wl.status == Running)
  }

  function Needed(sys: System): nat {
    if sys.wl.status == Running then sys.core.cfg.threshold else 1
  }

  /** A wake-up is lost: a batch is due, and no queued request would be served. */
  predicate Lost(sys: System) {
    Due(sys) && forall r :: r in sys.queue ==> !Effective(sys, r)
  }

  predicate WorkloadWide(sys: System, r: Request) {
    r == WorkloadKey || (r.ChangePodKey? && r.num in sys.core.cps)
  }

  /** Undefended pods that have no request of their own in the queue. */
  function Unannounced(sys: System): set<string> {
    set p | p in sys.core.pods && Undefensed(sys.core.pods, p) && PodKey(p) !in sys.queue
  }

  /** Unless a request for the whole workload is queued, or a ChangePod is initialising, fewer pods
      than a batch needs are waiting without a request of their own. */
  ghost predicate Awake(sys: System) {
    (sys.wl.status != Failed && NoInit(sys.core.cps) && (forall r :: r in sys.queue ==> !WorkloadWide(sys, r)))
    ==> |Unannounced(sys)| < Needed(sys)
  }

  lemma FewerUnannounced(a: System, b: System)
    requires Unannounced(b) <= Unannounced(a)
    ensures |Unannounced(b)| <= |Unannounced(a)|
  {
    SubsetCard(Unannounced(b), Unannounced(a));
  }

  // ---------------------------------------------------------------- pods and restarts

  predicate PodAction(a: Action) { a.PodAdded? || a.PodFinished? || a.PodRemoved? }

  lemma PodsKeepAwake(sys: System, a: Action)
    requires PodAction(a) && Can(sys, a) && Awake(sys)
    ensures Awake(Act(sys, a))
  {
    var end := Act(sys, a);
    assert Unannounced(end) <= Unannounced(sys);
    FewerUnannounced(sys, end);
    assert sys.queue <= end.queue;
  }

  lemma RestartAwake(sys: System)
    requires sys.core.cfg.threshold >= 1
    ensures Awake(Act(sys, Restarted))
  {
    assert Unannounced(Act(sys, Restarted)) == {};
  }

  // ---------------------------------------------------------------- writes of the other handlers

  /** A change of the store that keeps every ChangePod past ExecuteInit there, queues all events, and makes
      no pod undefended. */
  lemma ChangeKeepsAwake(sys: System, core: State)
    requires Awake(sys) && core.cfg == sys.core.cfg && core.pods.Keys == sys.core.pods.Keys
    requires UndefensedSet(core.pods) <= UndefensedSet(sys.core.pods)
    requires core.cps.Keys == sys.core.cps.Keys && (NoInit(core.cps) ==> NoInit(sys.core.cps))
    ensures Awake(Change(sys, core))
  {
    var end := Change(sys, core);
    forall p | p in Unannounced(end) ensures p in Unannounced(sys) {
      assert p in UndefensedSet(core.pods);
    }
    FewerUnannounced(sys, end);
    assert forall r :: r in sys.queue ==> r in end.queue && (WorkloadWide(end, r) <==> WorkloadWide(sys, r));
  }

  /** Recording a batch leaves its ChangePod in ExecuteInit. */
  lemma SpecKeepsAwake(sys: System, op: Op)
    requires Awake(sys) && op in sys.core.pending && op.SpecOp? && OpOk(sys.core, op)
    ensures Awake(Change(sys, ExecSpec(Consume(sys.core, op), op.num, op.read, op.batch)))
  {
    var t := ExecSpec(Consume(sys.core, op), op.num, op.read, op.batch);
    if Matches(sys.core, op.num, op.read) {
      assert t.cps[op.num].Init();
    }
    ChangeKeepsAwake(sys, t);
  }

  lemma LabelFrame(s: State, op: Op)
    requires op.LabelOp?
    ensures var t := ExecLabel(s, op.num, op.read, op.todo, op.finish);
            && t.cps == s.cps && t.cfg == s.cfg && t.pods.Keys == s.pods.Keys
            && UndefensedSet(t.pods) <= UndefensedSet(s.pods)
  {
  }

  lemma LabelKeepsAwake(sys: System, op: Op)
    requires Awake(sys) && op in sys.core.pending && op.LabelOp?
    ensures Awake(Change(sys, ExecLabel(Consume(sys.core, op), op.num, op.read, op.todo, op.finish)))
  {
    LabelFrame(Consume(sys.core, op), op);
    ChangeKeepsAwake(sys, ExecLabel(Consume(sys.core, op), op.num, op.read, op.todo, op.finish));
  }

  /** Leaving ExecuteInit queues a request; all other status writes concern ChangePods past it. */
  lemma StatusKeepsAwake(sys: System, op: Op)
    requires Awake(sys) && op in sys.core.pending && op.StatusOp? && OpOk(sys.core, op)
    requires op.read.Init() ==> op.status.phase == PreWait
    ensures Awake(Change(sys, ExecStatus(Consume(sys.core, op), op.num, op.read, op.status)))
  {
    var t := ExecStatus(Consume(sys.core, op), op.num, op.read, op.status);
    if Matches(sys.core, op.num, op.read) && op.read.Init() {
      LeavingInitWakes(sys, t, op.num);
    } else {
      PastInit(sys.core.cps, t.cps, op.num);
      ChangeKeepsAwake(sys, t);
    }
  }

  lemma LeavingInitWakes(sys: System, t: State, n: nat)
    requires n in sys.core.cps && n in t.cps && sys.core.cps[n].Init() && t.cps[n].status.phase == PreWait
    ensures Awake(Change(sys, t))
  {
    assert ChangePodKey(n) in Change(sys, t).queue;
  }

  lemma PastInit(a: ChangePods, b: ChangePods, n: nat)
    requires a.Keys == b.Keys && (forall m :: m in a && m != n ==> b[m] == a[m])
    requires n in a && a[n].Init() ==> b[n] == a[n]
    ensures NoInit(b) ==> NoInit(a)
  {
    assert n in a && a[n].Init() ==> b[n].Init();
  }

  lemma PatchKeepsAwake(sys: System, op: Op)
    requires Awake(sys) && op in sys.core.pending && op.PatchOp? && OpOk(sys.core, op)
    ensures Awake(Change(sys, ExecPatch(Consume(sys.core, op), op.num, op.phase, op.results)))
  {
    var t := ExecPatch(Consume(sys.core, op), op.num, op.phase, op.results);
    PastInit(sys.core.cps, t.cps, op.num);
    ChangeKeepsAwake(sys, t);
  }

  // ---------------------------------------------------------------- deletes

  /** A delete is timely if, at that moment, fewer pods than a batch needs are waiting without a request of
      their own, or some other request for the whole workload is queued. */
  predicate Timely(sys: System, n: nat) {
    || n !in sys.core.cps || sys.wl.status == Failed
    || (exists r :: r in sys.queue && WorkloadWide(sys, r) && r != ChangePodKey(n))
    || |Unannounced(sys)| < Needed(sys)
  }

  /** Listing the pods again right before the delete, and finding fewer than a batch needs, is enough. */
  lemma RelistedDeleteIsTimely(sys: System, n: nat)
    requires |UndefensedSet(sys.core.pods)| < Needed(sys)
    ensures Timely(sys, n)
  {
    SubsetCard(Unannounced(sys), UndefensedSet(sys.core.pods));
  }

  /** What a careful delete changes. */
  ghost predicate Deleted(sys: System, end: System, n: nat) {
    && end.queue == sys.queue && end.wl == sys.wl && end.core.pods == sys.core.pods && end.core.cfg == sys.core.cfg
    && n in sys.core.cps && end.core.cps.Keys == sys.core.cps.Keys - {n} && NoInit(end.core.cps)
  }

  lemma DeleteShape(sys: System, op: Op)
    requires OnlyTopInit(sys.core.cps) && op in sys.core.pending && op.DeleteOp? && op.num in sys.core.cps
    requires CarefulStep(sys.core, Exec(op))
    ensures Deleted(sys, Act(sys, Executed(op)), op.num)
  {
    assert ChangePodEvents(sys.core.cps, ExecDelete(sys.core, op.num).cps) == {};
  }

  lemma DeletedWide(sys: System, end: System, n: nat)
    requires end.queue == sys.queue && end.core.cps.Keys == sys.core.cps.Keys - {n}
    ensures (exists r :: r in end.queue && WorkloadWide(end, r))
            <==> exists r :: r in sys.queue && WorkloadWide(sys, r) && r != ChangePodKey(n)
  {
    if r :| r in end.queue && WorkloadWide(end, r) {
      assert r in sys.queue && WorkloadWide(sys, r) && r != ChangePodKey(n);
    }
    if r :| r in sys.queue && WorkloadWide(sys, r) && r != ChangePodKey(n) {
      assert r in end.queue && WorkloadWide(end, r);
    }
  }

  lemma DeletedAwake(sys: System, end: System, n: nat)
    requires Deleted(sys, end, n)
    ensures Awake(end) <==> Timely(sys, n)
  {
    assert Unannounced(end) == Unannounced(sys);
    DeletedWide(sys, end, n);
  }

  lemma DeletedLost(sys: System, end: System, n: nat)
    requires Deleted(sys, end, n)
    ensures Lost(end) <==>
              && sys.wl.status != Failed
              && ReachesThreshold(sys.core.cfg, sys.core.pods, sys.wl.status == Running)
              && forall r :: r in sys.queue && Effective(sys, r) ==> r == ChangePodKey(n)
  {
    assert forall r :: Effective(end, r) <==> Effective(sys, r) && r != ChangePodKey(n);
  }

  /** A careful delete keeps the workload awake if and only if it is timely. */
  lemma DeleteKeepsAwakeExactly(sys: System, op: Op)
    requires Inv(sys.core) && op in sys.core.pending && op.DeleteOp? && op.num in sys.core.cps
    requires CarefulStep(sys.core, Exec(op))
    ensures Awake(Act(sys, Executed(op))) <==> Timely(sys, op.num)
  {
    DeleteShape(sys, op);
    DeletedAwake(sys, Act(sys, Executed(op)), op.num);
  }

  /** When a careful delete loses a wake-up at once: exactly when enough pods for a batch are there at that
      moment, and no queued request but the one of the deleted ChangePod would be served. */
  lemma DeleteLosesExactly(sys: System, op: Op)
    requires Inv(sys.core) && op in sys.core.pending && op.DeleteOp? && op.num in sys.core.cps
    requires CarefulStep(sys.core, Exec(op))
    ensures Lost(Act(sys, Executed(op))) <==>
              && sys.wl.status != Failed
              && ReachesThreshold(sys.core.cfg, sys.core.pods, sys.wl.status == Running)
              && forall r :: r in sys.queue && Effective(sys, r) ==> r == ChangePodKey(op.num)
  {
    DeleteShape(sys, op);
    DeletedLost(sys, Act(sys, Executed(op)), op.num);
  }

  // ---------------------------------------------------------------- serving

  lemma NotDue(sys: System, end: System)
    requires !Due(sys) && end.core == sys.core && end.wl == sys.wl && sys.core.cfg.threshold >= 1
    ensures Awake(end)
  {
    SubsetCard(Unannounced(end), UndefensedSet(sys.core.pods));
  }

  /** Serving a request: if the workload's status is written a request for the whole workload is
      queued; if a batch is due it is started; otherwise too few pods are waiting. */
  lemma ServeKeepsAwake(sys: System, a: Action)
    requires a.Served? && Can(sys, a) && Awake(sys)
    requires Contiguous(sys.core.cps) && sys.core.cfg.threshold >= 1 && WorkloadOk(sys.wl)
    ensures Awake(Act(sys, a))
  {
    var end := Act(sys, a);
    CreateOutcomeShape(sys.core, sys.wl.status == Running);
    if !Effective(sys, a.request) {
      assert Unannounced(end) == Unannounced(sys);
      assert forall r :: r in sys.queue && WorkloadWide(sys, r) ==> r in end.queue && WorkloadWide(end, r);
    } else {
      NextIsOk(sys, a.listing, a.replicas);
      if NextWorkload(sys, a.listing, a.replicas).Some? {
        assert WorkloadKey in end.queue;
      } else if !Due(sys) {
        NotDue(sys, end);
      }
    }
  }

  // ---------------------------------------------------------------- runs

  predicate TimelyAction(sys: System, a: Action) {
    a.Executed? && a.op.DeleteOp? ==> Timely(sys, a.op.num)
  }

  lemma ExecKeepsAwake(sys: System, op: Op)
    requires Inv(sys.core) && AllPlanned(sys.core) && Awake(sys)
    requires Can(sys, Executed(op)) && TimelyAction(sys, Executed(op))
    ensures Awake(Act(sys, Executed(op)))
  {
    assert OpOk(sys.core, op) && WellPlanned(op);
    match op
    case SpecOp(_, _, _) => SpecKeepsAwake(sys, op);
    case LabelOp(_, _, _, _) => LabelKeepsAwake(sys, op);
    case StatusOp(_, _, _) => StatusKeepsAwake(sys, op);
    case PatchOp(_, _, _, _) => PatchKeepsAwake(sys, op);
    case DeleteOp(n, _) =>
      if n in sys.core.cps {
        DeleteKeepsAwakeExactly(sys, op);
      } else {
        ChangeKeepsAwake(sys, Apply(sys.core, Exec(op)));
      }
  }

  lemma QuietKeepsAwake(sys: System, end: System)
    requires Awake(sys) && end.queue == sys.queue && end.wl == sys.wl
    requires end.core.cps == sys.core.cps && end.core.pods == sys.core.pods && end.core.cfg == sys.core.cfg
    ensures Awake(end)
  {
    assert Unannounced(end) == Unannounced(sys);
    assert forall r :: WorkloadWide(end, r) <==> WorkloadWide(sys, r);
  }

  lemma PlanFrame(s: State, step: Step)
    requires Reads(step) && Enabled(s, step)
    ensures var t := Apply(s, step); t.cps == s.cps && t.pods == s.pods && t.cfg == s.cfg
  {
  }

  lemma ActKeepsAwake(sys: System, a: Action)
    requires SysInv(sys) && Awake(sys) && Can(sys, a) && TimelyAction(sys, a)
    ensures Awake(Act(sys, a))
  {
    match a
    case Served(_, _, _) => ServeKeepsAwake(sys, a);
    case Executed(op) => ExecKeepsAwake(sys, op);
    case Restarted => RestartAwake(sys);
    case Planned(step) => PlanFrame(sys.core, step); QuietKeepsAwake(sys, Act(sys, a));
    case Dropped(_) => QuietKeepsAwake(sys, Act(sys, a));
    case ClockTicked => QuietKeepsAwake(sys, Act(sys, a));
    case WorkloadSwept =>
    case _ => PodsKeepAwake(sys, a);
  }

  /** A run of the system in which every delete is timely. */
  ghost predicate TimelyRun(sys: System, actions: seq<Action>, end: System)
    decreases |actions|
  {
    if actions == [] then sys == end
    else
      && Can(sys, actions[0]) && TimelyAction(sys, actions[0])
      && TimelyRun(Act(sys, actions[0]), actions[1..], end)
  }

  lemma {:induction false} RunKeepsAwake(sys: System, actions: seq<Action>, end: System)
    requires SysInv(sys) && Awake(sys) && TimelyRun(sys, actions, end)
    ensures SysInv(end) && Awake(end)
    decreases |actions|
  {
    if actions != [] {
      ActKeepsAwake(sys, actions[0]);
      ActKeepsSysInv(sys, actions[0]);
      RunKeepsAwake(Act(sys, actions[0]), actions[1..], end);
    }
  }

  /** Fewer unannounced pods than undefended ones: one of them has its own request. */
  lemma Announced(sys: System) returns (p: string)
    requires |Unannounced(sys)| < |UndefensedSet(sys.core.pods)|
    ensures Undefensed(sys.core.pods, p) && PodKey(p) in sys.queue
  {
    if forall q :: q in UndefensedSet(sys.core.pods) ==> q in Unannounced(sys) {
      SubsetCard(UndefensedSet(sys.core.pods), Unannounced(sys));
      assert false;
    }
    p :| p in UndefensedSet(sys.core.pods) && p !in Unannounced(sys);
  }

  lemma AwakeIsNotLost(sys: System)
    requires Awake(sys)
    ensures !Lost(sys)
  {
    if Due(sys) {
      if r :| r in sys.queue && WorkloadWide(sys, r) {
        assert Effective(sys, r);
      } else {
        var p := Announced(sys);
        assert Effective(sys, PodKey(p));
      }
    }
  }

  // ---------------------------------------------------------------- main results

  /** The start is announced: every undefended pod has a request of its own. */
  ghost predicate StartsAnnounced(sys: System) {
    Starts(sys) && sys.core.cfg.threshold >= 1 && Unannounced(sys) == {}
  }

  /** No lost wake-up: in every state reachable from an announced start, whenever a batch is due, or the
      workload is still in Init and a pod waits, the queue holds a request that will not be dropped.  The
      handlers of ChangePods, callbacks and sweeps interleave freely, read any past ChangePod, and may
      crash anywhere; the operator may restart at any time; deletes are careful and timely. */
  lemma NoLostWakeup(sys: System, actions: seq<Action>, end: System)
    requires StartsAnnounced(sys) && TimelyRun(sys, actions, end) && Due(end)
    ensures exists r :: r in end.queue && Effective(end, r)
  {
    StartsOk(sys);
    RunKeepsAwake(sys, actions, end);
    AwakeIsNotLost(end);
  }

  /** Serving such a request takes the workload out of Init and queues it again, or starts the batch. */
  lemma ServingMakesProgress(sys: System, a: Action)
    requires Contiguous(sys.core.cps) && WorkloadOk(sys.wl)
    requires Due(sys) && a.Served? && Can(sys, a) && Effective(sys, a.request)
    ensures sys.wl.status == WInit ==> Act(sys, a).wl.status == Running && WorkloadKey in Act(sys, a).queue
    ensures sys.wl.status != WInit ==>
              Act(sys, a).core.cps == sys.core.cps[|sys.core.cps| + 1 := ChangePod(sys.core.nextRv, [], NEW_STATUS)]
  {
    if sys.wl.status == WInit {
      ServedWithoutSync(sys, a.request, a.listing, a.replicas);
    } else {
      StartsNext(sys, a);
    }
  }

  lemma StartsNext(sys: System, a: Action)
    requires Contiguous(sys.core.cps) && Due(sys) && sys.wl.status != WInit
    requires a.Served? && Can(sys, a) && Effective(sys, a.request)
    ensures Act(sys, a).core.cps == sys.core.cps[|sys.core.cps| + 1 := ChangePod(sys.core.nextRv, [], NEW_STATUS)]
  {
    ServedParts(sys, a);
    CreateOutcomeNext(sys.core, sys.wl.status == Running);
  }

  lemma CreateOutcomeNext(s: State, byThreshold: bool)
    requires Contiguous(s.cps) && NoInit(s.cps) && ReachesThreshold(s.cfg, s.pods, byThreshold)
    ensures CreateOutcome(s, byThreshold).cps == s.cps[|s.cps| + 1 := ChangePod(s.nextRv, [], NEW_STATUS)]
  {
    assert |s.cps| + 1 !in s.cps;
  }

  /** Quiescence: when no request is left that would be served and nothing is initialising, a Running
      workload leaves fewer than threshold pods undefended, one in any other status leaves none; in
      particular Init is left as soon as there is a finished pod. */
  lemma QuiescentLeavesNoBatch(sys: System, actions: seq<Action>, end: System)
    requires StartsAnnounced(sys) && TimelyRun(sys, actions, end)
    requires NoInit(end.core.cps) && forall r :: r in end.queue ==> !Effective(end, r)
    ensures end.wl.status == Running ==> |UndefensedSet(end.core.pods)| < end.core.cfg.threshold
    ensures end.wl.status != Running ==> UndefensedSet(end.core.pods) == {}
  {
    StartsOk(sys);
    RunKeepsAwake(sys, actions, end);
    AwakeIsNotLost(end);
    assert !Due(end);
  }

  // ---------------------------------------------------------------- exactness

  /** Pods vanish, and nothing else happens. */
  ghost predicate Removals(actions: seq<Action>) {
    forall a :: a in actions ==> a.PodRemoved?
  }

  /** A wake-up can be lost without the operator doing anything wrong: some pods only have to vanish. */
  ghost predicate Losable(sys: System) {
    exists actions, end :: Removals(actions) && SystemRun(sys, actions, end) && Lost(end)
  }

  lemma {:induction false} RemovalsKeepAwake(sys: System, actions: seq<Action>, end: System)
    requires Awake(sys) && Removals(actions) && SystemRun(sys, actions, end)
    ensures Awake(end)
    decreases |actions|
  {
    if actions != [] {
      assert actions[0] in actions && forall a :: a in actions[1..] ==> a in actions;
      PodsKeepAwake(sys, actions[0]);
      RemovalsKeepAwake(Act(sys, actions[0]), actions[1..], end);
    }
  }

  function AnnouncedPods(sys: System): set<string> {
    set p | p in sys.core.pods && PodKey(p) in sys.queue
  }

  /** Removing a pod that has its own request does not help a workload that is not awake. */
  lemma RemovalStaysAsleep(sys: System, p: string)
    requires !Awake(sys) && p in AnnouncedPods(sys)
    ensures var end := Act(sys, PodRemoved(p)); !Awake(end) && AnnouncedPods(end) == AnnouncedPods(sys) - {p}
  {
    var end := Act(sys, PodRemoved(p));
    assert end.queue == sys.queue;
    assert Unannounced(end) == Unannounced(sys);
    assert forall r :: WorkloadWide(end, r) <==> WorkloadWide(sys, r);
  }

  lemma AsleepIsLost(sys: System)
    requires !Awake(sys) && AnnouncedPods(sys) == {} && sys.core.cfg.threshold >= 1
    ensures Lost(sys)
  {
    SubsetCard(Unannounced(sys), UndefensedSet(sys.core.pods));
    assert forall p :: p in sys.core.pods ==> p !in AnnouncedPods(sys);
  }

  lemma RemovalFirst(sys: System, p: string)
    requires p in sys.core.pods && Losable(Act(sys, PodRemoved(p)))
    ensures Losable(sys)
  {
    var a := PodRemoved(p);
    var actions, end :| Removals(actions) && SystemRun(Act(sys, a), actions, end) && Lost(end);
    var all := [a] + actions;
    assert all[0] == a && all[1..] == actions;
    assert Removals(all) && SystemRun(sys, all, end);
  }

  lemma {:induction false} AsleepIsLosable(sys: System)
    requires !Awake(sys) && sys.core.cfg.threshold >= 1
    ensures Losable(sys)
    decreases |AnnouncedPods(sys)|
  {
    if AnnouncedPods(sys) == {} {
      AsleepIsLost(sys);
      assert Removals([]) && SystemRun(sys, [], sys);
    } else {
      var p :| p in AnnouncedPods(sys);
      RemovalStaysAsleep(sys, p);
      AsleepIsLosable(Act(sys, PodRemoved(p)));
      RemovalFirst(sys, p);
    }
  }

  /** The invariant is exact: a wake-up can be lost by vanishing pods alone if and only if it fails. */
  lemma LosableExactly(sys: System)
    requires sys.core.cfg.threshold >= 1
    ensures Losable(sys) <==> !Awake(sys)
  {
    if Losable(sys) && Awake(sys) {
      var actions, end :| Removals(actions) && SystemRun(sys, actions, end) && Lost(end);
      RemovalsKeepAwake(sys, actions, end);
      AwakeIsNotLost(end);
      assert false;
    }
    if !Awake(sys) {
      AsleepIsLosable(sys);
    }
  }

  /** Hence a careful delete exposes the workload to a lost wake-up if and only if it is not timely. */
  lemma DeleteRaceExactly(sys: System, op: Op)
    requires Inv(sys.core) && sys.core.cfg.threshold >= 1 && op in sys.core.pending && op.DeleteOp?
    requires op.num in sys.core.cps && CarefulStep(sys.core, Exec(op))
    ensures Losable(Act(sys, Executed(op))) <==> !Timely(sys, op.num)
  {
    DeleteKeepsAwakeExactly(sys, op);
    ActKeepsConfig(sys, Executed(op));
    LosableExactly(Act(sys, Executed(op)));
  }

  /** And a fresh workload may never leave Init if and only if some undefended pod is not announced. */
  lemma StartExactly(sys: System)
    requires Starts(sys) && sys.core.cfg.threshold >= 1
    ensures Losable(sys) <==> Unannounced(sys) != {}
  {
    LosableExactly(sys);
    assert |Unannounced(sys)| < 1 <==> Unannounced(sys) == {};
  }
}
