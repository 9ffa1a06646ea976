/** The turns of the workload reconciler at single API calls: several workers, each with its own key, address
    the same workload.  A turn reads the workload, lists the ChangePods, lists the pods, creates, lists
    again, and updates the status under the workload's resourceVersion.  Any call may fail, which queues the
    key again, except that the guard takes a failed listing of pods for too few of them. */
module Concurrency {
  import opened Options
  import opened Protocol
  import opened Safety
  import opened Atomic
  import opened Batches
  import opened Verdicts
  import opened Scheduling

  /** Where a turn is.  `wl` and `version` are the workload as the turn has it in memory. */
  datatype TurnStage =
    | Taken                                                // nothing read yet
    | Opened(wl: Workload, version: nat)                   // the workload was read
    | Checked(wl: Workload, version: nat, snapshot: nat)   // ChangePods listed, none in ExecuteInit
    | Creating(wl: Workload, version: nat, op: Op)         // enough pods were listed
    | Syncing(wl: Workload, version: nat)                  // done with creating
    | Listed(wl: Workload, version: nat, cps: ChangePods)  // ChangePods listed for the sync
    | Writing(from: WorkloadStatus, version: nat, next: Workload)

  /** `version` is the workload's resourceVersion.  A key is never in two turns at once. */
  datatype Cluster = Cluster(sys: System, version: nat, turns: map<Request, TurnStage>)

  datatype Move =
    | Other(a: Action)
    | Take(r: Request)
    | Open(r: Request)
    | Check(r: Request)
    | Guard(r: Request)
    | GuardMissed(r: Request)
    | Create(r: Request, patched: bool)
    | ListAgain(r: Request)
    | Compute(r: Request, order: seq<nat>, replicas: int)
    | Write(r: Request)
    | Fail(r: Request)
    | Late(op: Op)

  // ---------------------------------------------------------------- moves

  ghost predicate CanMove(c: Cluster, m: Move) {
    match m
    case Other(a) => !a.Served? && Can(c.sys, a)
    case Take(r) => r in c.sys.queue && r !in c.turns
    case Open(r) => r in c.turns && c.turns[r].Taken?
    case Check(r) => r in c.turns && c.turns[r].Opened? && |c.sys.core.history| > 0
    case Guard(r) =>
      r in c.turns && c.turns[r].Checked? && c.turns[r].snapshot < |c.sys.core.history|
      && NoInit(c.sys.core.history[c.turns[r].snapshot])
    case GuardMissed(r) => r in c.turns && c.turns[r].Checked?
    case Create(r, _) =>
      r in c.turns && c.turns[r].Creating? && c.turns[r].op.CreateOp? && c.turns[r].op in c.sys.core.pending
    case ListAgain(r) => r in c.turns && c.turns[r].Syncing?
    case Compute(r, order, _) => r in c.turns && c.turns[r].Listed? && Lists(order, c.turns[r].cps)
    case Write(r) => r in c.turns && c.turns[r].Writing?
    case Fail(r) => r in c.turns
    case Late(op) => op.CreateOp? && op in c.sys.core.pending
  }

  function At(c: Cluster, r: Request, stage: TurnStage): Cluster {
    c.(turns := c.turns[r := stage])
  }

  /** The turn is over. */
  function Ended(c: Cluster, r: Request): Cluster {
    c.(turns := c.turns - {r})
  }

  /** The turn is over with an error: its key is queued again. */
  function Again(c: Cluster, r: Request): Cluster {
    Ended(c.(sys := c.sys.(queue := c.sys.queue + {r})), r)
  }

  function DoOpen(c: Cluster, r: Request): Cluster {
    if !Effective(c.sys, r) || c.sys.wl.status == Failed then Ended(c, r)
    else if c.sys.wl.status == WInit then At(c, r, Writing(WInit, c.version, c.sys.wl.(status := Running)))
    else At(c, r, Opened(c.sys.wl, c.version))
  }

  function DoCheck(c: Cluster, r: Request): Cluster
    requires CanMove(c, Check(r))
  {
    var t := c.turns[r];
    At(c, r, if NoInit(c.sys.core.cps) then Checked(t.wl, t.version, |c.sys.core.history| - 1)
             else Syncing(t.wl, t.version))
  }

  function DoGuard(c: Cluster, r: Request): Cluster
    requires CanMove(c, Guard(r))
  {
    var t := c.turns[r];
    var byThreshold := t.wl.status == Running;
    if ReachesThreshold(c.sys.core.cfg, c.sys.core.pods, byThreshold) then
      var op := CreateOp(|c.sys.core.history[t.snapshot]|, byThreshold);
      At(c.(sys := c.sys.(core := Issue(c.sys.core, op))), r, Creating(t.wl, t.version, op))
    else At(c, r, Syncing(t.wl, t.version))
  }

  /** Listing the pods failed: the guard then says that no ChangePod is needed, and the turn goes on. */
  function DoGuardMissed(c: Cluster, r: Request): Cluster
    requires CanMove(c, GuardMissed(r))
  {
    At(c, r, Syncing(c.turns[r].wl, c.turns[r].version))
  }

  /** Creating the ChangePod also patches the workload's entry time.  The patch may fail, which is only
      logged; otherwise the turn goes on with the workload as stored now. */
  function DoCreate(c: Cluster, r: Request, patched: bool): Cluster
    requires CanMove(c, Create(r, patched))
  {
    var t := c.turns[r];
    var tried := c.(sys := c.sys.(core := Apply(c.sys.core, Exec(t.op))));
    if tried.sys.core.cps == c.sys.core.cps then Again(tried, r)
    else if patched then
      var event := tried.sys.(queue := tried.sys.queue + WorkloadEvent(c.sys.wl));
      At(tried.(sys := event, version := c.version + 1), r, AfterCreate(t.wl.status, c.sys.wl, c.version + 1))
    else At(tried, r, AfterCreate(t.wl.status, t.wl, t.version))
  }

  /** A turn that found the workload in TimeOutPreThreshold moves it back to Running; others go on to sync. */
  function AfterCreate(found: WorkloadStatus, wl: Workload, version: nat): TurnStage {
    if found == TimeOutPreThreshold then Writing(found, version, wl.(status := Running)) else Syncing(wl, version)
  }

  function DoCompute(c: Cluster, r: Request, order: seq<nat>, replicas: int): Cluster
    requires CanMove(c, Compute(r, order, replicas))
  {
    var t := c.turns[r];
    var next := Sync(Listing(t.cps, order), c.sys.core.pods.Keys, t.wl, replicas, |FinishedSet(c.sys.core.pods)|);
    if next.Some? then At(c, r, Writing(t.wl.status, t.version, next.value)) else Ended(c, r)
  }

  /** The status update succeeds on the version that was read. */
  function DoWrite(c: Cluster, r: Request): Cluster
    requires CanMove(c, Write(r))
  {
    var t := c.turns[r];
    if t.version != c.version then Again(c, r)
    else
      Ended(c.(sys := c.sys.(wl := t.next, queue := c.sys.queue + WorkloadEvent(t.next)), version := c.version + 1), r)
  }

  /** What is not a workload turn.  A restart ends every turn; a sweep may update the workload. */
  function DoOther(c: Cluster, a: Action): Cluster
    requires CanMove(c, Other(a))
  {
    var sys := Act(c.sys, a);
    Cluster(sys, if sys.wl == c.sys.wl then c.version else c.version + 1, if a.Restarted? then map[] else c.turns)
  }

  function Next(c: Cluster, m: Move): Cluster
    requires CanMove(c, m)
  {
    match m
    case Other(a) => DoOther(c, a)
    case Take(r) => At(c.(sys := c.sys.(queue := c.sys.queue - {r})), r, Taken)
    case Open(r) => DoOpen(c, r)
    case Check(r) => DoCheck(c, r)
    case Guard(r) => DoGuard(c, r)
    case GuardMissed(r) => DoGuardMissed(c, r)
    case Create(r, patched) => DoCreate(c, r, patched)
    case ListAgain(r) => At(c, r, Listed(c.turns[r].wl, c.turns[r].version, c.sys.core.cps))
    case Compute(r, order, replicas) => DoCompute(c, r, order, replicas)
    case Write(r) => DoWrite(c, r)
    case Fail(r) => Again(c, r)
    case Late(op) => c.(sys := c.sys.(core := Apply(c.sys.core, Exec(op))))
  }

  ghost predicate Moves(c: Cluster, moves: seq<Move>, end: Cluster)
    decreases |moves|
  {
    if moves == [] then c == end
    else CanMove(c, moves[0]) && Moves(Next(c, moves[0]), moves[1..], end)
  }

  lemma {:induction false} MovesThen(c: Cluster, moves: seq<Move>, mid: Cluster, m: Move)
    requires Moves(c, moves, mid) && CanMove(mid, m)
    ensures Moves(c, moves + [m], Next(mid, m))
    decreases |moves|
  {
    var all := moves + [m];
    if moves == [] {
      assert all[1..] == [];
    } else {
      assert all[0] == moves[0] && all[1..] == moves[1..] + [m];
      MovesThen(Next(c, moves[0]), moves[1..], mid, m);
    }
  }

  // ---------------------------------------------------------------- refinement

  predicate CoreMove(m: Move) { m.Other? || m.Guard? || m.Create? || m.Late? }

  lemma CoreStays(c: Cluster, m: Move)
    requires CanMove(c, m) && !CoreMove(m)
    ensures Next(c, m).sys.core == c.sys.core
  {
  }

  lemma GuardIsRun(c: Cluster, r: Request) returns (steps: seq<Step>)
    requires CanMove(c, Guard(r))
    ensures CarefulRun(c.sys.core, steps, DoGuard(c, r).sys.core)
  {
    var t := c.turns[r];
    var byThreshold := t.wl.status == Running;
    if ReachesThreshold(c.sys.core.cfg, c.sys.core.pods, byThreshold) {
      steps := OneStep(c.sys.core, Decide(t.snapshot, byThreshold));
    } else {
      steps := [];
    }
  }

  lemma CreateCore(c: Cluster, r: Request, patched: bool)
    requires CanMove(c, Create(r, patched))
    ensures DoCreate(c, r, patched).sys.core == Apply(c.sys.core, Exec(c.turns[r].op))
  {
  }

  lemma LandsRun(s: State, op: Op) returns (steps: seq<Step>)
    requires op in s.pending && op.CreateOp?
    ensures CarefulRun(s, steps, Apply(s, Exec(op)))
  {
    steps := OneStep(s, Exec(op));
  }

  /** Every move changes the stored objects by a run of the protocol. */
  lemma MoveIsRun(c: Cluster, m: Move) returns (steps: seq<Step>)
    requires CanMove(c, m) && Versions(c.sys.core)
    ensures CarefulRun(c.sys.core, steps, Next(c, m).sys.core)
  {
    match m
    case Other(a) => steps := ActIsRun(c.sys, a);
    case Guard(r) => steps := GuardIsRun(c, r);
    case Create(r, patched) =>
      CreateCore(c, r, patched);
      steps := LandsRun(c.sys.core, c.turns[r].op);
    case Late(op) => steps := LandsRun(c.sys.core, op);
    case _ =>
      CoreStays(c, m);
      steps := [];
  }

  lemma ComputeFrame(c: Cluster, r: Request, order: seq<nat>, replicas: int)
    requires CanMove(c, Compute(r, order, replicas))
    ensures var end := DoCompute(c, r, order, replicas);
            end.sys == c.sys && forall q :: q in c.turns && q != r ==> q in end.turns && end.turns[q] == c.turns[q]
  {
  }

  lemma LandedInit(s: State, op: Op)
    requires op.CreateOp? && op in s.pending
    ensures var t := Apply(s, Exec(op));
            t.pods == s.pods && t.cfg == s.cfg && (t.cps == s.cps || !NoInit(t.cps))
  {
    var t := Apply(s, Exec(op));
    assert t.cps != s.cps ==> op.count + 1 in t.cps && t.cps[op.count + 1].Init();
  }

  // ---------------------------------------------------------------- invariants

  /** A turn gets past its first read only if the workload has left Init, which is for good. */
  ghost predicate StageOk(sys: System, stage: TurnStage) {
    (stage.Taken? || stage.Writing? || sys.wl.status != WInit) && ReadsOk(sys.core, stage)
  }

  ghost predicate ReadsOk(s: State, stage: TurnStage) {
    match stage
    case Taken => true
    case Opened(wl, _) => WorkloadOk(wl) && wl.status != WInit
    case Checked(wl, _, snapshot) =>
      && WorkloadOk(wl) && wl.status != WInit
      && snapshot < |s.history| && NoInit(s.history[snapshot])
    case Creating(wl, _, op) => WorkloadOk(wl) && wl.status != WInit && op.CreateOp?
    case Syncing(wl, _) => WorkloadOk(wl) && wl.status != WInit
    case Listed(wl, _, cps) => WorkloadOk(wl) && wl.status != WInit && Contiguous(cps)
    case Writing(_, _, next) => WorkloadOk(next) && next.status != WInit
  }

  ghost predicate TurnsOk(c: Cluster) {
    forall r :: r in c.turns ==> StageOk(c.sys, c.turns[r])
  }

  ghost predicate ClusterInv(c: Cluster) {
    SysInv(c.sys) && TurnsOk(c)
  }

  /** What a step of the system leaves as it is: reads of the past, and that Init is over. */
  ghost predicate Grown(a: System, b: System) {
    a.core.history <= b.core.history && (a.wl.status != WInit ==> b.wl.status != WInit)
  }

  lemma StageKept(a: System, b: System, stage: TurnStage)
    requires StageOk(a, stage) && Grown(a, b)
    ensures StageOk(b, stage)
  {
    if stage.Checked? {
      assert b.core.history[stage.snapshot] == a.core.history[stage.snapshot];
    }
  }

  /** At most one turn changed its stage, and the store only grew its history. */
  lemma TurnsKept(c: Cluster, end: Cluster, r: Request)
    requires TurnsOk(c) && Grown(c.sys, end.sys)
    requires forall q :: q in end.turns && q != r ==> q in c.turns && end.turns[q] == c.turns[q]
    requires r in end.turns ==> StageOk(end.sys, end.turns[r])
    ensures TurnsOk(end)
  {
    forall q | q in end.turns ensures StageOk(end.sys, end.turns[q]) {
      if q != r {
        StageKept(c.sys, end.sys, c.turns[q]);
      }
    }
  }

  lemma OpenTurns(c: Cluster, r: Request)
    requires ClusterInv(c) && CanMove(c, Open(r))
    ensures TurnsOk(DoOpen(c, r))
  {
    TurnsKept(c, DoOpen(c, r), r);
  }

  lemma CheckTurns(c: Cluster, r: Request)
    requires TurnsOk(c) && CanMove(c, Check(r)) && c.sys.core.history[|c.sys.core.history| - 1] == c.sys.core.cps
    ensures TurnsOk(DoCheck(c, r))
  {
    assert StageOk(c.sys, c.turns[r]);
    TurnsKept(c, DoCheck(c, r), r);
  }

  lemma GuardTurns(c: Cluster, r: Request)
    requires TurnsOk(c) && CanMove(c, Guard(r))
    ensures TurnsOk(DoGuard(c, r))
  {
    assert StageOk(c.sys, c.turns[r]);
    TurnsKept(c, DoGuard(c, r), r);
  }

  lemma AfterCreateOk(s: State, found: WorkloadStatus, wl: Workload, version: nat)
    requires WorkloadOk(wl) && wl.status != WInit && found != TimeOutPreThreshold
    ensures ReadsOk(s, AfterCreate(found, wl, version))
  {
  }

  lemma GuardMissedTurns(c: Cluster, r: Request)
    requires TurnsOk(c) && CanMove(c, GuardMissed(r))
    ensures TurnsOk(DoGuardMissed(c, r))
  {
    assert StageOk(c.sys, c.turns[r]);
    TurnsKept(c, DoGuardMissed(c, r), r);
  }

  lemma CreateFrame(c: Cluster, r: Request, patched: bool)
    requires CanMove(c, Create(r, patched))
    ensures var end := DoCreate(c, r, patched);
            var t := c.turns[r];
            && end.sys.wl == c.sys.wl
            && (forall q :: q in end.turns && q != r ==> q in c.turns && end.turns[q] == c.turns[q])
            && (r in end.turns ==>
                  end.turns[r] == AfterCreate(t.wl.status, if patched then c.sys.wl else t.wl,
                                              if patched then c.version + 1 else t.version))
  {
  }

  lemma CreateTurns(c: Cluster, r: Request, patched: bool)
    requires TurnsOk(c) && WorkloadOk(c.sys.wl) && CanMove(c, Create(r, patched))
    requires Grown(c.sys, DoCreate(c, r, patched).sys)
    ensures TurnsOk(DoCreate(c, r, patched))
  {
    assert StageOk(c.sys, c.turns[r]);
    var t := c.turns[r];
    AfterCreateOk(DoCreate(c, r, patched).sys.core, t.wl.status,
                  if patched then c.sys.wl else t.wl, if patched then c.version + 1 else t.version);
    CreateFrame(c, r, patched);
    TurnsKept(c, DoCreate(c, r, patched), r);
  }

  /** What a sync computes is an admissible status. */
  lemma SyncOk(listing: seq<ChangePod>, live: set<string>, wl: Workload, replicas: int, finished: nat)
    requires WorkloadOk(wl) && Sync(listing, live, wl, replicas, finished).Some?
    ensures WorkloadOk(Sync(listing, live, wl, replicas, finished).value)
    ensures wl.status != WInit ==> Sync(listing, live, wl, replicas, finished).value.status != WInit
  {
    SyncEdges(listing, live, wl, replicas, finished);
  }

  /** An update of the status computed from admissible reads may be written. */
  lemma ComputedOk(s: State, t: TurnStage, next: Workload, listing: seq<ChangePod>, replicas: int)
    requires t.Listed? && ReadsOk(s, t)
    requires Sync(listing, s.pods.Keys, t.wl, replicas, |FinishedSet(s.pods)|) == Some(next)
    ensures ReadsOk(s, Writing(t.wl.status, t.version, next))
  {
    SyncOk(listing, s.pods.Keys, t.wl, replicas, |FinishedSet(s.pods)|);
  }

  lemma ComputeTurns(c: Cluster, r: Request, order: seq<nat>, replicas: int)
    requires TurnsOk(c) && CanMove(c, Compute(r, order, replicas))
    ensures TurnsOk(DoCompute(c, r, order, replicas))
  {
    assert StageOk(c.sys, c.turns[r]);
    var end := DoCompute(c, r, order, replicas);
    if r in end.turns {
      ComputedOk(c.sys.core, c.turns[r], end.turns[r].next, Listing(c.turns[r].cps, order), replicas);
    }
    TurnsKept(c, DoCompute(c, r, order, replicas), r);
  }

  lemma ListTurns(c: Cluster, r: Request)
    requires TurnsOk(c) && Contiguous(c.sys.core.cps) && CanMove(c, ListAgain(r))
    ensures TurnsOk(Next(c, ListAgain(r)))
  {
    assert StageOk(c.sys, c.turns[r]);
    TurnsKept(c, Next(c, ListAgain(r)), r);
  }

  lemma OtherTurns(c: Cluster, m: Move, r: Request)
    requires TurnsOk(c) && CanMove(c, m) && Grown(c.sys, Next(c, m).sys)
    requires m.Other? || m.Late? || ((m.Take? || m.Write? || m.Fail?) && m.r == r)
    ensures TurnsOk(Next(c, m))
  {
    TurnsKept(c, Next(c, m), r);
  }

  lemma MoveTurns(c: Cluster, m: Move)
    requires ClusterInv(c) && CanMove(c, m) && Grown(c.sys, Next(c, m).sys)
    ensures TurnsOk(Next(c, m))
  {
    match m
    case Open(r) => OpenTurns(c, r);
    case Check(r) => CheckTurns(c, r);
    case Guard(r) => GuardTurns(c, r);
    case GuardMissed(r) => GuardMissedTurns(c, r);
    case Create(r, patched) => CreateTurns(c, r, patched);
    case ListAgain(r) => ListTurns(c, r);
    case Compute(r, order, replicas) => ComputeTurns(c, r, order, replicas);
    case Take(r) => OtherTurns(c, m, r);
    case Write(r) => OtherTurns(c, m, r);
    case Fail(r) => OtherTurns(c, m, r);
    case _ => OtherTurns(c, m, WorkloadKey);
  }

  lemma OtherPlanned(c: Cluster, a: Action)
    requires AllPlanned(c.sys.core) && c.sys.core.cfg.threshold >= 1 && CanMove(c, Other(a))
    ensures AllPlanned(Next(c, Other(a)).sys.core) && Next(c, Other(a)).sys.core.cfg == c.sys.core.cfg
  {
    ActPlanned(c.sys, a);
    ActKeepsConfig(c.sys, a);
  }

  lemma GuardPlanned(c: Cluster, r: Request)
    requires AllPlanned(c.sys.core) && CanMove(c, Guard(r))
    ensures AllPlanned(DoGuard(c, r).sys.core) && DoGuard(c, r).sys.core.cfg == c.sys.core.cfg
  {
  }

  lemma LandsPlanned(s: State, op: Op)
    requires AllPlanned(s) && op in s.pending && op.CreateOp?
    ensures AllPlanned(Apply(s, Exec(op))) && Apply(s, Exec(op)).cfg == s.cfg
  {
    ExecPlanned(s, op);
  }

  lemma CorePlanned(c: Cluster, m: Move)
    requires AllPlanned(c.sys.core) && c.sys.core.cfg.threshold >= 1 && CanMove(c, m)
    ensures AllPlanned(Next(c, m).sys.core) && Next(c, m).sys.core.cfg == c.sys.core.cfg
  {
    match m
    case Other(a) => OtherPlanned(c, a);
    case Guard(r) => GuardPlanned(c, r);
    case Create(r, patched) =>
      CreateCore(c, r, patched);
      LandsPlanned(c.sys.core, c.turns[r].op);
    case Late(op) => LandsPlanned(c.sys.core, op);
    case _ => CoreStays(c, m);
  }

  lemma WorkloadStays(c: Cluster, m: Move)
    requires CanMove(c, m) && !m.Other? && !m.Write?
    ensures Next(c, m).sys.wl == c.sys.wl
  {
  }

  lemma SameStatus(sys: System, a: Action)
    requires WorkloadOk(sys.wl) && Can(sys, a) && !a.Served?
    ensures Act(sys, a).wl == sys.wl
  {
  }

  lemma MoveWorkload(c: Cluster, m: Move)
    requires WorkloadOk(c.sys.wl) && TurnsOk(c) && CanMove(c, m)
    ensures WorkloadOk(Next(c, m).sys.wl)
    ensures c.sys.wl.status != WInit ==> Next(c, m).sys.wl.status != WInit
  {
    if m.Other? {
      SameStatus(c.sys, m.a);
    } else if m.Write? {
      assert StageOk(c.sys, c.turns[m.r]);
    } else {
      WorkloadStays(c, m);
    }
  }

  lemma MoveKeepsInv(c: Cluster, m: Move)
    requires ClusterInv(c) && CanMove(c, m)
    ensures ClusterInv(Next(c, m))
  {
    var steps := MoveIsRun(c, m);
    RunKeepsInv(c.sys.core, steps, Next(c, m).sys.core);
    HistoryGrows(c.sys.core, steps, Next(c, m).sys.core);
    MoveWorkload(c, m);
    MoveTurns(c, m);
    CorePlanned(c, m);
  }
}
