/** Why no verdict is forgotten: whenever the stored pass and fail lists are out of date, a request for the
    workload is queued, except after two events that the watches do not report. */
module Reports {
  import opened PodSummaries
  import opened Protocol
  import opened Safety
  import opened Batches
  import opened Verdicts
  import opened Scheduling
  import opened Wakeups
  import opened Termination

  // ---------------------------------------------------------------- what the lists depend on

  /** The summary `x` belongs in the pass list, or in the fail list. */
  ghost predicate Judges(s: State, x: PodSummary, pass: bool) {
    x.pod in s.pods && exists n :: n in s.cps && Done(s.cps[n]) && x in Contribution(s.cps[n], pass)
  }

  ghost predicate AnyDone(cps: ChangePods) {
    exists n :: n in cps && Done(cps[n])
  }

  lemma VerdictMembers(s: State, order: seq<nat>, pass: bool)
    requires Inv(s) && Lists(order, s.cps)
    ensures forall x :: x in Verdict(Listing(s.cps, order), s.pods.Keys, pass) <==> Judges(s, x, pass)
  {
    var listing := Listing(s.cps, order);
    GatherDetermined(s, order, pass);
    RemoveDuplicateMembers(Gather(DoneOnly(listing), pass), s.pods.Keys);
    forall x ensures x in Gather(DoneOnly(listing), pass) <==>
                       exists n :: n in s.cps && Done(s.cps[n]) && x in Contribution(s.cps[n], pass) {
      if n :| n in s.cps && Done(s.cps[n]) && x in Contribution(s.cps[n], pass) {
        assert n in order && s.cps[n] in DoneOnly(listing);
      }
    }
  }

  lemma DoneListed(s: State, order: seq<nat>)
    requires Lists(order, s.cps)
    ensures DoneOnly(Listing(s.cps, order)) != [] <==> AnyDone(s.cps)
  {
    var done := DoneOnly(Listing(s.cps, order));
    if done != [] {
      assert done[0] in done;
    }
    if n :| n in s.cps && Done(s.cps[n]) {
      assert n in order && s.cps[n] in done;
    }
  }

  /** The list holds exactly the judged summaries, each once. */
  ghost predicate Current(s: State, list: seq<PodSummary>, pass: bool) {
    DistinctNames(list) && forall x :: x in list <==> Judges(s, x, pass)
  }

  ghost predicate BothCurrent(s: State, wl: Workload) {
    Current(s, wl.pass, true) && Current(s, wl.fail, false)
  }

  lemma CurrentIsPermutation(s: State, order: seq<nat>, list: seq<PodSummary>, pass: bool)
    requires Inv(s) && Lists(order, s.cps)
    ensures Current(s, list, pass) <==> multiset(Verdict(Listing(s.cps, order), s.pods.Keys, pass)) == multiset(list)
  {
    var verdict := Verdict(Listing(s.cps, order), s.pods.Keys, pass);
    VerdictMembers(s, order, pass);
    if Current(s, list, pass) {
      SameMembersSameMultiset(verdict, list);
    }
    if multiset(verdict) == multiset(list) {
      DistinctFromMultiset(verdict, list);
      forall x ensures x in list <==> x in verdict {
        assert x in multiset(list) <==> x in multiset(verdict);
      }
    }
  }

  lemma SameCurrent(s: State, t: State, list: seq<PodSummary>, pass: bool)
    requires forall x :: Judges(s, x, pass) <==> Judges(t, x, pass)
    ensures Current(s, list, pass) <==> Current(t, list, pass)
  {
  }

  /** The stored lists are behind: something is finished, and one of them has other members than the judged
      summaries, or repeats one. */
  ghost predicate Behind(s: State, wl: Workload) {
    AnyDone(s.cps) && !BothCurrent(s, wl)
  }

  /** A sync writes exactly when the stored lists are behind, in whatever order it lists. */
  lemma BehindExactly(s: State, wl: Workload, order: seq<nat>, replicas: int, finished: nat)
    requires Inv(s) && Lists(order, s.cps)
    ensures Behind(s, wl) <==> Sync(Listing(s.cps, order), s.pods.Keys, wl, replicas, finished).Some?
  {
    SyncWritesExactly(s, order, wl, replicas, finished);
    DoneListed(s, order);
    CurrentIsPermutation(s, order, wl.pass, true);
    CurrentIsPermutation(s, order, wl.fail, false);
  }

  /** After a sync the stored lists are not behind. */
  lemma SyncCatchesUp(s: State, wl: Workload, order: seq<nat>, replicas: int, finished: nat, wl': Workload)
    requires Inv(s) && Lists(order, s.cps)
    requires var next := Sync(Listing(s.cps, order), s.pods.Keys, wl, replicas, finished);
             wl' == if next.Some? then next.value else wl
    ensures !Behind(s, wl')
  {
    var next := Sync(Listing(s.cps, order), s.pods.Keys, wl, replicas, finished);
    if next.Some? {
      SyncStores(Listing(s.cps, order), s.pods.Keys, wl, replicas, finished);
      VerdictsAreCurrent(s, order, true);
      VerdictsAreCurrent(s, order, false);
    } else {
      BehindExactly(s, wl, order, replicas, finished);
    }
  }

  lemma VerdictsAreCurrent(s: State, order: seq<nat>, pass: bool)
    requires Inv(s) && Lists(order, s.cps)
    ensures Current(s, Verdict(Listing(s.cps, order), s.pods.Keys, pass), pass)
  {
    CurrentIsPermutation(s, order, Verdict(Listing(s.cps, order), s.pods.Keys, pass), pass);
  }

  lemma SameJudgement(s: State, t: State, wl: Workload)
    requires AnyDone(s.cps) <==> AnyDone(t.cps)
    requires forall x, pass :: Judges(s, x, pass) <==> Judges(t, x, pass)
    ensures Behind(s, wl) == Behind(t, wl)
  {
    SameCurrent(s, t, wl.pass, true);
    SameCurrent(s, t, wl.fail, false);
  }

  // ---------------------------------------------------------------- what a step does to finished ChangePods

  /** Pods of a finished ChangePod. */
  ghost predicate JudgedPod(s: State, p: string) {
    exists n :: RecordedIn(s, p, n) && Done(s.cps[n])
  }

  /** The two events that no watch reports: a judged pod is deleted, or a callback reopens a finished
      ChangePod. */
  ghost predicate Silent(sys: System, a: Action) {
    match a
    case PodRemoved(p) => JudgedPod(sys.core, p)
    case Executed(op) => op.PatchOp? && op.num in sys.core.cps && Done(sys.core.cps[op.num])
    case _ => false
  }

  /** Finished ChangePods stay as they are, and so does the life of their pods. */
  ghost predicate KeepsDone(s: State, t: State) {
    && (forall n :: n in s.cps && Done(s.cps[n]) ==> n in t.cps && t.cps[n] == s.cps[n])
    && (forall p :: JudgedPod(s, p) ==> (p in s.pods <==> p in t.pods))
  }

  lemma ContributionRecorded(s: State, n: nat, x: PodSummary, pass: bool)
    requires Inv(s) && n in s.cps && Done(s.cps[n]) && x in Contribution(s.cps[n], pass)
    ensures RecordedIn(s, x.pod, n) && JudgedPod(s, x.pod)
  {
    StoredOk(s, n);
    ContributionNames(s.cps[n], pass);
    NamesIn(x, Contribution(s.cps[n], pass));
  }

  lemma KeptJudgement(s: State, t: State, wl: Workload)
    requires Inv(s) && KeepsDone(s, t)
    requires forall n :: n in t.cps && Done(t.cps[n]) ==> n in s.cps && Done(s.cps[n])
    ensures Behind(s, wl) == Behind(t, wl)
  {
    forall x, pass ensures Judges(s, x, pass) <==> Judges(t, x, pass) {
      if n :| n in s.cps && Done(s.cps[n]) && x in Contribution(s.cps[n], pass) {
        ContributionRecorded(s, n, x, pass);
        assert t.cps[n] == s.cps[n];
      }
      if n :| n in t.cps && Done(t.cps[n]) && x in Contribution(t.cps[n], pass) {
        assert n in s.cps && s.cps[n] == t.cps[n];
        ContributionRecorded(s, n, x, pass);
      }
    }
    assert forall n :: n in s.cps && Done(s.cps[n]) ==> n in t.cps && Done(t.cps[n]);
    SameJudgement(s, t, wl);
  }

  lemma ExecKeepsDone(s: State, op: Op)
    requires OpOk(s, op) && CarefulStep(s, Exec(op))
    requires op.PatchOp? && op.num in s.cps ==> !Done(s.cps[op.num])
    ensures KeepsDone(s, Execute(Consume(s, op), op))
  {
    match op
    case StatusOp(n, read, status) => StatusKeepsDone(s, op);
    case PatchOp(n, _, phase, results) => PatchKeepsDone(s, op);
    case _ =>
  }

  /** A checked write finds the phase it read, which is not ExecuteDone. */
  lemma StatusKeepsDone(s: State, op: Op)
    requires op.StatusOp? && OpOk(s, op)
    ensures KeepsDone(s, ExecStatus(Consume(s, op), op.num, op.read, op.status))
  {
    assert Rank(op.status.phase) <= 6;
  }

  lemma PatchKeepsDone(s: State, op: Op)
    requires op.PatchOp? && (op.num in s.cps ==> !Done(s.cps[op.num]))
    ensures KeepsDone(s, ExecPatch(Consume(s, op), op.num, op.phase, op.results))
  {
  }

  lemma PodsKeepDone(sys: System, a: Action)
    requires Labels(sys.core) && PodAction(a) && Offered(sys, a) && !Silent(sys, a)
    ensures KeepsDone(sys.core, Act(sys, a).core) && Act(sys, a).core.cps == sys.core.cps
  {
    if a.PodAdded? {
      forall p | JudgedPod(sys.core, p) ensures p != a.name {
        var n :| RecordedIn(sys.core, p, n);
      }
    }
  }

  // ---------------------------------------------------------------- the invariant

  predicate PastInit(wl: Workload) { wl.status != WInit && wl.status != Failed }

  ghost predicate WideQueued(sys: System) {
    exists r :: r in sys.queue && WorkloadWide(sys, r)
  }

  ghost predicate Reported(sys: System) {
    PastInit(sys.wl) && Behind(sys.core, sys.wl) ==> WideQueued(sys)
  }

  /** Queued ChangePod requests are for ChangePods past ExecuteInit, which are never deleted. */
  ghost predicate KeysStay(sys: System) {
    forall r :: r in sys.queue && r.ChangePodKey? ==> r.num in sys.core.cps && !sys.core.cps[r.num].Init()
  }

  lemma PastInitStays(sys: System, a: Action, n: nat)
    requires Inv(sys.core) && Can(sys, a) && n in sys.core.cps && !sys.core.cps[n].Init()
    ensures n in Act(sys, a).core.cps && !Act(sys, a).core.cps[n].Init()
  {
    var steps := ActIsRun(sys, a);
    PastIsSeen(sys.core, steps, Act(sys, a).core, n);
  }

  /** Requests that were not queued before are of ChangePods past ExecuteInit. */
  lemma NewKeys(sys: System, a: Action, n: nat)
    requires Can(sys, a) && ChangePodKey(n) in Act(sys, a).queue && ChangePodKey(n) !in sys.queue
    ensures n in Act(sys, a).core.cps && !Act(sys, a).core.cps[n].Init()
  {
  }

  lemma ActKeepsKeys(sys: System, a: Action)
    requires Inv(sys.core) && KeysStay(sys) && Can(sys, a)
    ensures KeysStay(Act(sys, a))
  {
    forall r | r in Act(sys, a).queue && r.ChangePodKey?
      ensures r.num in Act(sys, a).core.cps && !Act(sys, a).core.cps[r.num].Init()
    {
      if r in sys.queue {
        PastInitStays(sys, a, r.num);
      } else {
        NewKeys(sys, a, r.num);
      }
    }
  }

  lemma WideStays(sys: System, end: System)
    requires WideQueued(sys) && KeysStay(sys) && KeysStay(end) && sys.queue <= end.queue
    ensures WideQueued(end)
  {
    var r :| r in sys.queue && WorkloadWide(sys, r);
    assert WorkloadWide(end, r);
  }

  /** A change of the store that keeps finished ChangePods and queues its events. */
  lemma ChangeReported(sys: System, core: State)
    requires Inv(sys.core) && KeepsDone(sys.core, core) && Reported(sys) && KeysStay(sys)
    requires KeysStay(Change(sys, core))
    requires forall n :: n in core.cps && Done(core.cps[n]) ==> n in sys.core.cps
    ensures Reported(Change(sys, core))
  {
    var end := Change(sys, core);
    if n :| n in core.cps && Done(core.cps[n]) && !Done(sys.core.cps[n]) {
      FinishWakes(sys, core, n);
    } else {
      KeptJudgement(sys.core, core, sys.wl);
      if WideQueued(sys) {
        WideStays(sys, end);
      }
    }
  }

  lemma FinishWakes(sys: System, core: State, n: nat)
    requires n in core.cps && n in sys.core.cps && Done(core.cps[n]) && !Done(sys.core.cps[n])
    ensures WideQueued(Change(sys, core))
  {
    assert ChangePodKey(n) in Change(sys, core).queue && WorkloadWide(Change(sys, core), ChangePodKey(n));
  }

  /** An action that leaves the ChangePods and the life of judged pods alone and drops no request. */
  lemma QuietReported(sys: System, end: System)
    requires Inv(sys.core) && Reported(sys) && KeysStay(sys) && KeysStay(end)
    requires end.core.cps == sys.core.cps && KeepsDone(sys.core, end.core)
    requires end.wl == sys.wl && sys.queue <= end.queue
    ensures Reported(end)
  {
    KeptJudgement(sys.core, end.core, sys.wl);
    if WideQueued(sys) {
      WideStays(sys, end);
    }
  }

  lemma ExecReported(sys: System, op: Op)
    requires Inv(sys.core) && KeysStay(sys) && Reported(sys)
    requires Can(sys, Executed(op)) && !Silent(sys, Executed(op))
    ensures Reported(Act(sys, Executed(op)))
  {
    assert OpOk(sys.core, op);
    ActKeepsKeys(sys, Executed(op));
    ExecutedShape(sys, op);
    ExecKeepsDone(sys.core, op);
    ExecCreatesNothing(sys.core, op);
    ChangeReported(sys, Execute(Consume(sys.core, op), op));
  }

  lemma ExecCreatesNothing(s: State, op: Op)
    requires !op.CreateOp?
    ensures Execute(Consume(s, op), op).cps.Keys <= s.cps.Keys
  {
  }

  /** After serving a request that is not dropped, the lists are up to date. */
  lemma ServeReports(sys: System, a: Action)
    requires SysInv(sys) && a.Served? && Can(sys, a)
    requires Effective(sys, a.request) && PastInit(sys.wl)
    ensures !Behind(Act(sys, a).core, Act(sys, a).wl) && Reported(Act(sys, a))
  {
    var end := Act(sys, a);
    ActKeepsInv(sys, a);
    ServeActiveShape(sys, a);
    SyncCatchesUp(end.core, sys.wl, a.listing, a.replicas, |FinishedSet(end.core.pods)|, end.wl);
  }

  lemma ServeReported(sys: System, a: Action)
    requires SysInv(sys) && KeysStay(sys) && Reported(sys) && a.Served? && Can(sys, a)
    ensures Reported(Act(sys, a))
  {
    if !Effective(sys, a.request) {
      DroppedReported(sys, a);
    } else if PastInit(sys.wl) {
      ServeReports(sys, a);
    } else {
      LeavingInit(sys, a);
    }
  }

  lemma DroppedReported(sys: System, a: Action)
    requires Reported(sys) && a.Served? && Can(sys, a) && !Effective(sys, a.request)
    ensures Reported(Act(sys, a))
  {
    var end := Act(sys, a);
    assert end.core == sys.core && end.wl == sys.wl;
    if WideQueued(sys) {
      var r :| r in sys.queue && WorkloadWide(sys, r);
      assert r in end.queue && WorkloadWide(end, r);
    }
  }

  lemma LeavingInit(sys: System, a: Action)
    requires Contiguous(sys.core.cps) && WorkloadOk(sys.wl) && !PastInit(sys.wl)
    requires a.Served? && Can(sys, a) && Effective(sys, a.request)
    ensures Reported(Act(sys, a))
  {
    var end := Act(sys, a);
    assert end.core == sys.core;
    assert WorkloadKey in end.queue && WorkloadWide(end, WorkloadKey);
  }

  lemma RestartReported(sys: System)
    ensures Reported(Act(sys, Restarted))
  {
    var end := Act(sys, Restarted);
    if PastInit(end.wl) {
      assert WorkloadKey in end.queue && WorkloadWide(end, WorkloadKey);
    }
  }

  lemma PodsReported(sys: System, a: Action)
    requires Inv(sys.core) && KeysStay(sys) && Reported(sys) && PodAction(a) && Can(sys, a) && !Silent(sys, a)
    ensures Reported(Act(sys, a))
  {
    ActKeepsKeys(sys, a);
    PodsKeepDone(sys, a);
    QuietReported(sys, Act(sys, a));
  }

  lemma RestReported(sys: System, end: System)
    requires Reported(sys) && end.queue == sys.queue && end.wl == sys.wl
    requires end.core.cps == sys.core.cps && end.core.pods == sys.core.pods
    ensures Reported(end)
  {
    if WideQueued(sys) {
      var r :| r in sys.queue && WorkloadWide(sys, r);
      assert WorkloadWide(end, r);
    }
  }

  lemma ActKeepsReported(sys: System, a: Action)
    requires SysInv(sys) && KeysStay(sys) && Reported(sys) && Can(sys, a) && !Silent(sys, a)
    ensures Reported(Act(sys, a))
  {
    match a
    case Served(_, _, _) => ServeReported(sys, a);
    case Executed(op) => ExecReported(sys, op);
    case Restarted => RestartReported(sys);
    case Planned(step) => PlanFrame(sys.core, step); RestReported(sys, Act(sys, a));
    case Dropped(_) => RestReported(sys, Act(sys, a));
    case ClockTicked => RestReported(sys, Act(sys, a));
    case WorkloadSwept => RestReported(sys, Act(sys, a));
    case _ => PodsReported(sys, a);
  }

  // ---------------------------------------------------------------- main results

  /** A run without silent events. */
  ghost predicate LoudRun(sys: System, actions: seq<Action>, end: System)
    decreases |actions|
  {
    if actions == [] then sys == end
    else
      && Can(sys, actions[0]) && !Silent(sys, actions[0])
      && LoudRun(Act(sys, actions[0]), actions[1..], end)
  }

  lemma StartReported(sys: System)
    requires Starts(sys)
    ensures KeysStay(sys) && Reported(sys)
  {
  }

  lemma {:induction false} LoudRunReported(sys: System, actions: seq<Action>, end: System)
    requires SysInv(sys) && KeysStay(sys) && Reported(sys) && LoudRun(sys, actions, end)
    ensures KeysStay(end) && Reported(end)
    decreases |actions|
  {
    if actions != [] {
      ActKeepsReported(sys, actions[0]);
      ActKeepsKeys(sys, actions[0]);
      ActKeepsSysInv(sys, actions[0]);
      LoudRunReported(Act(sys, actions[0]), actions[1..], end);
    }
  }

  lemma {:induction false} RunKeepsKeys(sys: System, actions: seq<Action>, end: System)
    requires SysInv(sys) && KeysStay(sys) && SystemRun(sys, actions, end)
    ensures SysInv(end) && KeysStay(end)
    decreases |actions|
  {
    if actions != [] {
      ActKeepsKeys(sys, actions[0]);
      ActKeepsSysInv(sys, actions[0]);
      RunKeepsKeys(Act(sys, actions[0]), actions[1..], end);
    }
  }

  /** No verdict is forgotten: along every run from the start without silent events, whenever the stored lists
      are out of date and the workload is past Init, a request for the workload is queued. */
  lemma NoForgottenVerdict(sys: System, actions: seq<Action>, end: System)
    requires Starts(sys) && sys.core.cfg.threshold >= 1 && LoudRun(sys, actions, end)
    requires PastInit(end.wl) && Behind(end.core, end.wl)
    ensures WideQueued(end)
  {
    StartsOk(sys);
    StartReported(sys);
    LoudRunReported(sys, actions, end);
  }

  /** Silent events do no harm from the next sync on: after any run at all, it is enough that there was none
      since a request was last served. */
  lemma NoForgottenVerdictSinceSync(
    sys: System, before: seq<Action>, mid: System, a: Action, actions: seq<Action>, end: System)
    requires Starts(sys) && sys.core.cfg.threshold >= 1 && SystemRun(sys, before, mid)
    requires a.Served? && Can(mid, a) && Effective(mid, a.request) && PastInit(mid.wl)
    requires LoudRun(Act(mid, a), actions, end) && PastInit(end.wl) && Behind(end.core, end.wl)
    ensures WideQueued(end)
  {
    StartsOk(sys);
    StartReported(sys);
    RunKeepsKeys(sys, before, mid);
    ServeReports(mid, a);
    ActKeepsKeys(mid, a);
    ActKeepsSysInv(mid, a);
    LoudRunReported(Act(mid, a), actions, end);
  }

  /** At rest, then, the stored lists are exactly what the finished ChangePods and live pods say. */
  lemma RestIsCurrent(sys: System)
    requires Reported(sys) && PastInit(sys.wl) && AnyDone(sys.core.cps)
    requires forall r :: r in sys.queue ==> !Effective(sys, r)
    ensures BothCurrent(sys.core, sys.wl)
  {
    assert forall r :: WorkloadWide(sys, r) ==> Effective(sys, r);
  }

  // ---------------------------------------------------------------- the silent events

  /** When the lists were up to date, deleting a pod puts them behind exactly if one of them names it. */
  lemma RemovalOutdatesExactly(s: State, t: State, wl: Workload, p: string)
    requires t.cps == s.cps && t.pods == s.pods - {p} && AnyDone(s.cps) && !Behind(s, wl)
    ensures Behind(t, wl) <==> p in NamesOf(wl.pass) + NamesOf(wl.fail)
  {
    RemovedJudges(s, t, p);
    RemovedFrom(s, t, wl.pass, true, p);
    RemovedFrom(s, t, wl.fail, false, p);
  }

  lemma RemovedJudges(s: State, t: State, p: string)
    requires t.cps == s.cps && t.pods == s.pods - {p}
    ensures forall x, pass :: Judges(t, x, pass) <==> Judges(s, x, pass) && x.pod != p
  {
  }

  lemma RemovedFrom(s: State, t: State, list: seq<PodSummary>, pass: bool, p: string)
    requires Current(s, list, pass) && forall x :: Judges(t, x, pass) <==> Judges(s, x, pass) && x.pod != p
    ensures Current(t, list, pass) <==> p !in NamesOf(list)
  {
    if p in NamesOf(list) {
      var x :| x in list && x.pod == p;
      assert !Judges(t, x, pass);
    }
  }

  /** ChangePod `n` was finished and is not any more; nothing else has changed. */
  ghost predicate Reopened(s: State, t: State, n: nat) {
    && t.pods == s.pods && t.cps.Keys == s.cps.Keys && n in s.cps && Done(s.cps[n]) && n in t.cps && !Done(t.cps[n])
    && (forall m :: m in s.cps && m != n ==> t.cps[m] == s.cps[m])
  }

  ghost predicate OtherDone(cps: ChangePods, n: nat) {
    exists m :: m in cps && m != n && Done(cps[m])
  }

  lemma StillDone(s: State, t: State, n: nat)
    requires Reopened(s, t, n)
    ensures AnyDone(s.cps) && (AnyDone(t.cps) <==> OtherDone(s.cps, n))
  {
    if m :| m in t.cps && Done(t.cps[m]) {
      assert m in s.cps && m != n && Done(s.cps[m]);
    }
    if m :| m in s.cps && m != n && Done(s.cps[m]) {
      assert m in t.cps && Done(t.cps[m]);
    }
  }

  ghost predicate RecordsLive(s: State, n: nat) {
    exists p :: p in s.pods && RecordedIn(s, p, n)
  }

  lemma ReopenedCurrent(s: State, t: State, wl: Workload, n: nat)
    requires Inv(s) && Reopened(s, t, n) && BothCurrent(s, wl)
    ensures BothCurrent(t, wl) <==> !RecordsLive(s, n)
  {
    if p :| p in s.pods && RecordedIn(s, p, n) {
      LostSummary(s, t, wl, n, p);
    } else {
      NothingLost(s, t, n);
      SameCurrent(s, t, wl.pass, true);
      SameCurrent(s, t, wl.fail, false);
    }
  }

  /** When the lists were up to date, reopening a finished ChangePod puts them behind exactly if it records
      a live pod and another ChangePod is finished. */
  lemma ReopeningOutdatesExactly(s: State, t: State, wl: Workload, n: nat)
    requires Inv(s) && Reopened(s, t, n) && !Behind(s, wl)
    ensures Behind(t, wl) <==> OtherDone(s.cps, n) && RecordsLive(s, n)
  {
    StillDone(s, t, n);
    ReopenedCurrent(s, t, wl, n);
  }

  /** A live pod of the reopened ChangePod is still in a list, but no longer judged. */
  lemma LostSummary(s: State, t: State, wl: Workload, n: nat, p: string)
    requires Inv(s) && Reopened(s, t, n) && p in s.pods && RecordedIn(s, p, n)
    requires BothCurrent(s, wl)
    ensures !BothCurrent(t, wl)
  {
    var pass := !FailedCheck(s.cps[n]);
    StoredOk(s, n);
    ContributionNames(s.cps[n], pass);
    var x :| x in Contribution(s.cps[n], pass) && x.pod == p;
    assert Judges(s, x, pass);
    if Judges(t, x, pass) {
      var m :| m in t.cps && Done(t.cps[m]) && x in Contribution(t.cps[m], pass);
      assert m != n && m in s.cps && s.cps[m] == t.cps[m];
      ContributionRecorded(s, m, x, pass);
      assert false;
    }
  }

  lemma NothingLost(s: State, t: State, n: nat)
    requires Inv(s) && Reopened(s, t, n) && forall p :: p in s.pods ==> !RecordedIn(s, p, n)
    ensures forall x, pass :: Judges(s, x, pass) <==> Judges(t, x, pass)
  {
    forall x, pass ensures Judges(s, x, pass) <==> Judges(t, x, pass) {
      if Judges(s, x, pass) {
        var m :| m in s.cps && Done(s.cps[m]) && x in Contribution(s.cps[m], pass);
        ContributionRecorded(s, m, x, pass);
        assert m != n && t.cps[m] == s.cps[m];
      }
      if Judges(t, x, pass) {
        var m :| m in t.cps && Done(t.cps[m]) && x in Contribution(t.cps[m], pass);
        assert m != n && s.cps[m] == t.cps[m];
      }
    }
  }

  lemma SilentQueue(sys: System, end: System)
    requires end.wl == sys.wl && PastInit(sys.wl) && end.core.cps.Keys == sys.core.cps.Keys
    requires forall r :: r in end.queue && r !in sys.queue ==> r.PodKey?
    requires sys.queue <= end.queue
    ensures !Reported(end) <==> !WideQueued(sys) && Behind(end.core, end.wl)
  {
    if r :| r in end.queue && WorkloadWide(end, r) {
      assert r in sys.queue && WorkloadWide(sys, r);
    }
    if r :| r in sys.queue && WorkloadWide(sys, r) {
      assert r in end.queue && WorkloadWide(end, r);
    }
  }

  lemma RemovalShape(sys: System, p: string)
    requires p in sys.core.pods
    ensures var end := Act(sys, PodRemoved(p));
            && end.core.cps == sys.core.cps && end.core.pods == sys.core.pods - {p} && end.wl == sys.wl
            && sys.queue <= end.queue && forall r :: r in end.queue && r !in sys.queue ==> r.PodKey?
  {
  }

  /** When deleting a pod makes the operator forget a verdict that was up to date: exactly when a list names
      the pod and no request for the workload happens to be queued. */
  lemma RemovalForgetsExactly(sys: System, p: string)
    requires p in sys.core.pods && PastInit(sys.wl) && AnyDone(sys.core.cps) && !Behind(sys.core, sys.wl)
    ensures !Reported(Act(sys, PodRemoved(p))) <==>
              !WideQueued(sys) && p in NamesOf(sys.wl.pass) + NamesOf(sys.wl.fail)
  {
    var end := Act(sys, PodRemoved(p));
    RemovalShape(sys, p);
    RemovalOutdatesExactly(sys.core, end.core, sys.wl, p);
    SilentQueue(sys, end);
  }

  lemma ReopeningShape(sys: System, op: Op)
    requires OpOk(sys.core, op) && op.PatchOp? && Can(sys, Executed(op))
    requires op.num in sys.core.cps && Done(sys.core.cps[op.num])
    ensures var end := Act(sys, Executed(op));
            Reopened(sys.core, end.core, op.num) && end.queue == sys.queue && end.wl == sys.wl
  {
    assert ChangePodEvents(sys.core.cps, Act(sys, Executed(op)).core.cps) == {};
  }

  /** When a stale callback makes the operator forget a verdict that was up to date: exactly when the
      ChangePod it reopens records a live pod, another one is finished, and no request for the workload
      happens to be queued. */
  lemma ReopeningForgetsExactly(sys: System, op: Op)
    requires Inv(sys.core) && op.PatchOp? && Can(sys, Executed(op)) && PastInit(sys.wl)
    requires op.num in sys.core.cps && Done(sys.core.cps[op.num]) && !Behind(sys.core, sys.wl)
    ensures !Reported(Act(sys, Executed(op))) <==>
              !WideQueued(sys) && OtherDone(sys.core.cps, op.num) && RecordsLive(sys.core, op.num)
  {
    var end := Act(sys, Executed(op));
    assert OpOk(sys.core, op);
    ReopeningShape(sys, op);
    ReopeningOutdatesExactly(sys.core, end.core, sys.wl, op.num);
    SilentQueue(sys, end);
  }
}
