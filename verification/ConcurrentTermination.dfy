/** The bound on changes with workload turns at single API calls: several turns hold the workload, the lists
    of ChangePods and the counts of pods they read at different times. */
module ConcurrentTermination {
  import opened Options
  import opened Protocol
  import opened Safety
  import opened Batches
  import opened Verdicts
  import opened Scheduling
  import opened Wakeups
  import opened Termination
  import opened Concurrency

  // ---------------------------------------------------------------- what a turn holds

  /** A turn that read the present version of the workload holds the present workload. */
  predicate Holds(stage: TurnStage, wl: Workload, version: nat) {
    stage.Taken?
    || (stage.version <= version
        && (stage.version == version ==> if stage.Writing? then stage.from == wl.status else stage.wl == wl))
  }

  ghost predicate Accurate(c: Cluster) {
    forall r :: r in c.turns ==> Holds(c.turns[r], c.sys.wl, c.version)
  }

  lemma AccurateKept(c: Cluster, end: Cluster, r: Request)
    requires Accurate(c)
    requires end.version > c.version || (end.version == c.version && end.sys.wl == c.sys.wl)
    requires forall q :: q in end.turns && q != r ==> q in c.turns && end.turns[q] == c.turns[q]
    requires r in end.turns ==> Holds(end.turns[r], end.sys.wl, end.version)
    ensures Accurate(end)
  {
    forall q | q in end.turns ensures Holds(end.turns[q], end.sys.wl, end.version) {
      if q != r {
        assert Holds(c.turns[q], c.sys.wl, c.version);
      }
    }
  }

  /** Only an action that leaves the workload alone, or a new version of it. */
  lemma OtherAccurate(c: Cluster, a: Action)
    requires Accurate(c) && CanMove(c, Other(a))
    ensures Accurate(Next(c, Other(a)))
  {
    AccurateKept(c, Next(c, Other(a)), WorkloadKey);
  }

  lemma CreateAccurate(c: Cluster, r: Request, patched: bool)
    requires Accurate(c) && TurnsOk(c) && CanMove(c, Create(r, patched))
    ensures Accurate(DoCreate(c, r, patched))
  {
    assert StageOk(c.sys, c.turns[r]) && Holds(c.turns[r], c.sys.wl, c.version);
    CreateFrame(c, r, patched);
    AccurateKept(c, DoCreate(c, r, patched), r);
  }

  lemma ComputeAccurate(c: Cluster, r: Request, order: seq<nat>, replicas: int)
    requires Accurate(c) && CanMove(c, Compute(r, order, replicas))
    ensures Accurate(DoCompute(c, r, order, replicas))
  {
    assert Holds(c.turns[r], c.sys.wl, c.version);
    ComputeFrame(c, r, order, replicas);
    AccurateKept(c, DoCompute(c, r, order, replicas), r);
  }

  lemma ReadAccurate(c: Cluster, m: Move)
    requires Accurate(c) && CanMove(c, m)
    requires m.Open? || m.Check? || m.Guard? || m.GuardMissed? || m.ListAgain?
    ensures Accurate(Next(c, m))
  {
    assert Holds(c.turns[m.r], c.sys.wl, c.version);
    AccurateKept(c, Next(c, m), m.r);
  }

  lemma MoveKeepsAccurate(c: Cluster, m: Move)
    requires Accurate(c) && TurnsOk(c) && CanMove(c, m)
    ensures Accurate(Next(c, m))
  {
    match m
    case Other(a) => OtherAccurate(c, a);
    case Create(r, patched) => CreateAccurate(c, r, patched);
    case Compute(r, order, replicas) => ComputeAccurate(c, r, order, replicas);
    case Take(r) => AccurateKept(c, Next(c, m), r);
    case Write(r) => AccurateKept(c, Next(c, m), r);
    case Fail(r) => AccurateKept(c, Next(c, m), r);
    case Late(_) => AccurateKept(c, Next(c, m), WorkloadKey);
    case _ => ReadAccurate(c, m);
  }

  // ---------------------------------------------------------------- the measure

  /** What the turn will write, if it can still write, is what the present objects call for. */
  predicate Fresh(c: Cluster, stage: TurnStage)
    requires Contiguous(c.sys.core.cps)
  {
    stage.Taken? || stage.version != c.version ||
    match stage
    case Listed(_, _, cps) => cps == c.sys.core.cps
    case Writing(_, _, next) => FreshWrite(c.sys, next)
    case _ => true
  }

  predicate FreshWrite(sys: System, next: Workload)
    requires Contiguous(sys.core.cps)
  {
    if sys.wl.status == WInit then next == sys.wl.(status := Running)
    else Outdated(sys.core.cps, sys.core.pods.Keys, sys.wl) && !Outdated(sys.core.cps, sys.core.pods.Keys, next)
  }

  predicate AllFresh(c: Cluster)
    requires Contiguous(c.sys.core.cps)
  {
    forall r :: r in c.turns ==> Fresh(c, c.turns[r])
  }

  /** A turn that listed before the ChangePods changed can still write once, as its write outdates the
      versions that all other turns hold. */
  function Total(c: Cluster): nat
    requires Contiguous(c.sys.core.cps)
  {
    4 * CoreMeasure(c.sys.core.cps, c.sys.core.pods)
    + (if AllFresh(c) then 0 else 2)
    + (if Outdated(c.sys.core.cps, c.sys.core.pods.Keys, c.sys.wl) then 1 else 0)
    + (if c.sys.wl.status == WInit then 1 else 0)
  }

  function Changed(c: Cluster, end: Cluster): nat {
    if Changes(c.sys, end.sys) then 1 else 0
  }

  /** The stored objects are the same. */
  predicate SameStore(c: Cluster, end: Cluster) {
    && end.version == c.version && end.sys.wl == c.sys.wl
    && end.sys.core.cps == c.sys.core.cps && end.sys.core.pods == c.sys.core.pods
  }

  lemma StageCost(c: Cluster, end: Cluster, r: Request)
    requires Contiguous(c.sys.core.cps) && SameStore(c, end)
    requires forall q :: q in end.turns && q != r ==> q in c.turns && end.turns[q] == c.turns[q]
    requires r in end.turns && (r in c.turns ==> Fresh(c, c.turns[r])) ==> Fresh(end, end.turns[r])
    ensures Total(end) <= Total(c) && Changed(c, end) == 0
  {
    if AllFresh(c) {
      forall q | q in end.turns ensures Fresh(end, end.turns[q]) {
        if q != r {
          assert Fresh(c, c.turns[q]);
        }
      }
    }
  }

  // ---------------------------------------------------------------- turns

  /** Every stage but the last two is fresh, and so is a list made now and the write of an Init workload. */
  lemma ReadFresh(c: Cluster, m: Move)
    requires Contiguous(c.sys.core.cps) && CanMove(c, m)
    requires m.Take? || m.Open? || m.Check? || m.Guard? || m.GuardMissed? || m.ListAgain? || m.Fail?
    ensures m.r in Next(c, m).turns ==> Fresh(Next(c, m), Next(c, m).turns[m.r])
  {
  }

  lemma ReadCost(c: Cluster, m: Move)
    requires Contiguous(c.sys.core.cps) && CanMove(c, m)
    requires m.Take? || m.Open? || m.Check? || m.Guard? || m.GuardMissed? || m.ListAgain? || m.Fail?
    ensures SameStore(c, Next(c, m)) && Total(Next(c, m)) <= Total(c) && Changed(c, Next(c, m)) == 0
  {
    ReadFresh(c, m);
    StageCost(c, Next(c, m), m.r);
  }

  /** What a turn computes from a present list is fresh. */
  lemma ComputedFresh(c: Cluster, t: TurnStage, listing: seq<nat>, replicas: int, next: Workload)
    requires Inv(c.sys.core) && t.Listed? && t.version == c.version && Holds(t, c.sys.wl, c.version) && Fresh(c, t)
    requires Lists(listing, c.sys.core.cps) && c.sys.wl.status != WInit
    requires Sync(Listing(t.cps, listing), c.sys.core.pods.Keys, t.wl, replicas, |FinishedSet(c.sys.core.pods)|)
             == Some(next)
    ensures FreshWrite(c.sys, next)
  {
    SyncedIsCurrent(c.sys.core, c.sys.wl, listing, replicas, Some(next));
  }

  lemma ComputeCost(c: Cluster, r: Request, order: seq<nat>, replicas: int)
    requires Inv(c.sys.core) && TurnsOk(c) && Accurate(c) && CanMove(c, Compute(r, order, replicas))
    ensures var end := DoCompute(c, r, order, replicas);
            SameStore(c, end) && Total(end) <= Total(c) && Changed(c, end) == 0
  {
    var end := DoCompute(c, r, order, replicas);
    var t := c.turns[r];
    assert StageOk(c.sys, t) && Holds(t, c.sys.wl, c.version);
    ComputeFrame(c, r, order, replicas);
    if r in end.turns && t.version == c.version && Fresh(c, t) {
      ComputedFresh(c, t, order, replicas, end.turns[r].next);
    }
    StageCost(c, end, r);
  }

  /** After a write no turn holds the present version. */
  lemma WrittenFresh(c: Cluster, end: Cluster)
    requires Accurate(c) && Contiguous(end.sys.core.cps) && end.version == c.version + 1
    requires forall q :: q in end.turns ==> q in c.turns && end.turns[q] == c.turns[q]
    ensures AllFresh(end)
  {
    forall q | q in end.turns ensures Fresh(end, end.turns[q]) {
      assert Holds(c.turns[q], c.sys.wl, c.version);
    }
  }

  lemma WriteCost(c: Cluster, r: Request)
    requires Contiguous(c.sys.core.cps) && TurnsOk(c) && Accurate(c) && CanMove(c, Write(r))
    ensures var end := DoWrite(c, r); end.sys.core == c.sys.core && Changed(c, end) + Total(end) <= Total(c)
  {
    var end := DoWrite(c, r);
    var t := c.turns[r];
    assert StageOk(c.sys, t);
    if t.version != c.version {
      StageCost(c, end, r);
    } else {
      WrittenFresh(c, end);
      if Fresh(c, t) && c.sys.wl.status == WInit {
        OutdatedIgnoresStatus(c.sys.core.cps, c.sys.core.pods.Keys, c.sys.wl, Running);
      }
    }
  }

  // ---------------------------------------------------------------- the store

  /** A store change that lowers the measure of the ChangePods pays for every turn it outdates. */
  lemma LoweredCost(c: Cluster, end: Cluster)
    requires Contiguous(c.sys.core.cps) && Lowered(c.sys.core, end.sys.core) && end.sys.wl == c.sys.wl
    requires SameStore(c, end) ==> forall q :: q in end.turns ==> q in c.turns && end.turns[q] == c.turns[q]
    requires end.version != c.version ==> end.sys.core.cps != c.sys.core.cps
    ensures Changed(c, end) + Total(end) <= Total(c)
  {
    if SameStore(c, end) {
      if AllFresh(c) {
        forall q | q in end.turns ensures Fresh(end, end.turns[q]) {
          assert Fresh(c, c.turns[q]);
        }
      }
    }
  }

  lemma RaisedCost(c: Cluster, end: Cluster)
    requires Contiguous(c.sys.core.cps) && HardlyRaised(c.sys.core, end.sys.core) && end.sys.wl == c.sys.wl
    ensures Changed(c, end) + Total(end) <= Total(c) + 32
  {
  }

  // ---------------------------------------------------------------- creates in flight

  /** A create in flight fits if its name is taken for good or a pod waits. */
  predicate CreateFits(s: State, op: Op) {
    op.CreateOp? ==> (op.count + 1 in s.cps && s.cps[op.count + 1].Settled()) || UndefensedSet(s.pods) != {}
  }

  ghost predicate CreatesFit(s: State, leftover: multiset<Op>) {
    forall op :: op in s.pending - leftover ==> CreateFits(s, op)
  }

  lemma CreateLandsLowers(s: State, op: Op)
    requires Inv(s) && op in s.pending && op.CreateOp? && CreateFits(s, op)
    ensures Lowered(s, Apply(s, Exec(op)))
  {
    CreateIsCompareAndSwap(s, op);
    var s' := Consume(s, op);
    if op.count + 1 !in s.cps {
      CreateOutcomeLowers(s', op.byThreshold);
      assert Apply(s, Exec(op)) == ExecCreate(s', |s'.cps|, op.byThreshold);
    }
  }

  lemma CreateLandsRaises(s: State, op: Op)
    requires Inv(s) && op in s.pending && op.CreateOp?
    ensures HardlyRaised(s, Apply(s, Exec(op)))
  {
    CreateIsCompareAndSwap(s, op);
    if op.count + 1 !in s.cps {
      CreateRaises(s, Apply(s, Exec(op)), |s.cps| + 1);
    }
  }

  lemma CreateRaises(s: State, t: State, n: nat)
    requires Contiguous(s.cps) && NoInit(s.cps) && n == |s.cps| + 1 && n in t.cps && t.pods == s.pods
    requires t.cps == s.cps[n := t.cps[n]] && t.cps[n].Init() && t.cps[n].podInfos == []
    ensures HardlyRaised(s, t)
  {
    assert n !in s.cps;
    CreateNumbers(s.cps, n, t.cps[n]);
    assert |t.cps| == n;
    TotalWeightSame(s.cps, t.cps, n - 1);
    CreatedRecordsNothing(s.cps, t.cps, n, s.pods);
  }

  /** Labelling goes on only while the highest ChangePod is initialising with its batch, so the name that a
      create in flight has in mind is taken for good. */
  lemma LabelledMeansTaken(s: State, op: Op, create: Op)
    requires Inv(s) && op.LabelOp? && OpOk(s, op) && op.todo != [] && op.todo[0] in UndefensedSet(s.pods)
    requires create in s.pending && create.CreateOp?
    ensures create.count + 1 in s.cps && s.cps[create.count + 1].Settled()
  {
    var q := op.todo[0];
    assert q in op.todo && RecordedIn(s, q, op.num);
    assert s.cps[op.num].Init();
    CreateIsCompareAndSwap(s, create);
    assert create.count + 1 in s.cps;
    assert s.cps[op.num].podInfos != [];
  }

  /** Pods get their label from label patches only. */
  lemma OnlyLabelsDefend(s: State, op: Op)
    requires op in s.pending && UndefensedSet(Apply(s, Exec(op)).pods) != UndefensedSet(s.pods)
    ensures op.LabelOp? && op.todo != [] && op.todo[0] in UndefensedSet(s.pods)
  {
  }

  lemma SettledStays(c: Cluster, m: Move, n: nat)
    requires Inv(c.sys.core) && CanMove(c, m) && n in c.sys.core.cps && c.sys.core.cps[n].Settled()
    ensures n in Next(c, m).sys.core.cps && Next(c, m).sys.core.cps[n].Settled()
  {
    var steps := MoveIsRun(c, m);
    PastIsSeen(c.sys.core, steps, Next(c, m).sys.core, n);
  }

  lemma LabellingMeansTaken(c: Cluster, m: Move, op: Op)
    requires Inv(c.sys.core) && CanMove(c, m) && PodsRestMove(m) && op in c.sys.core.pending && op.CreateOp?
    requires UndefensedSet(c.sys.core.pods) != {} && UndefensedSet(Next(c, m).sys.core.pods) == {}
    ensures op.count + 1 in c.sys.core.cps && c.sys.core.cps[op.count + 1].Settled()
  {
    var patch := Labelling(c, m);
    assert OpOk(c.sys.core, patch);
    LabelledMeansTaken(c.sys.core, patch, op);
  }

  lemma CreateStaysFit(c: Cluster, m: Move, op: Op)
    requires Inv(c.sys.core) && CanMove(c, m) && PodsRestMove(m)
    requires op in c.sys.core.pending && CreateFits(c.sys.core, op)
    ensures CreateFits(Next(c, m).sys.core, op)
  {
    if op.CreateOp? {
      if UndefensedSet(c.sys.core.pods) != {} && UndefensedSet(Next(c, m).sys.core.pods) == {} {
        LabellingMeansTaken(c, m, op);
      }
      if op.count + 1 in c.sys.core.cps && c.sys.core.cps[op.count + 1].Settled() {
        SettledStays(c, m, op.count + 1);
      }
    }
  }

  lemma Labelling(c: Cluster, m: Move) returns (op: Op)
    requires CanMove(c, m) && PodsRestMove(m)
    requires UndefensedSet(c.sys.core.pods) != {} && UndefensedSet(Next(c, m).sys.core.pods) == {}
    ensures op in c.sys.core.pending && op.LabelOp? && op.todo != [] && op.todo[0] in UndefensedSet(c.sys.core.pods)
  {
    if m.Other? && m.a.Executed? {
      op := m.a.op;
      OnlyLabelsDefend(c.sys.core, op);
    } else {
      PodsStay(c, m);
      assert false;
    }
  }

  lemma PodsStay(c: Cluster, m: Move)
    requires CanMove(c, m) && PodsRestMove(m) && !(m.Other? && m.a.Executed?)
    ensures Next(c, m).sys.core.pods == c.sys.core.pods
  {
    match m
    case Other(a) => OtherPodsStay(c.sys, a);
    case Guard(r) =>
    case Create(r, patched) =>
      CreateCore(c, r, patched);
      LandedInit(c.sys.core, c.turns[r].op);
    case Late(op) => LandedInit(c.sys.core, op);
    case _ => CoreStays(c, m);
  }

  lemma OtherPodsStay(sys: System, a: Action)
    requires Can(sys, a) && PodsRest(a) && !a.Executed? && !a.Served?
    ensures Act(sys, a).core.pods == sys.core.pods
  {
    if a.Planned? {
      ReadFrame(sys.core, a.step);
    }
  }

  predicate PodsRestMove(m: Move) { m.Other? ==> PodsRest(m.a) }

  /** What is left over of the writes that were in flight before the pods came to rest. */
  function Left(c: Cluster, m: Move, leftover: multiset<Op>): multiset<Op>
    requires m.Create? ==> m.r in c.turns && c.turns[m.r].Creating?
  {
    match m
    case Other(a) => Leftover(c.sys, a, leftover)
    case Create(r, _) => Without(c.sys.core, c.turns[r].op, leftover)
    case Late(op) => Without(c.sys.core, op, leftover)
    case _ => leftover
  }

  /** All writes in flight fit, creates included, except those left over. */
  ghost predicate AllFit(s: State, leftover: multiset<Op>) {
    FitsBut(s, leftover) && CreatesFit(s, leftover)
  }

  lemma GuardFits(c: Cluster, r: Request, leftover: multiset<Op>)
    requires FitsBut(c.sys.core, leftover) && CanMove(c, Guard(r))
    ensures FitsBut(DoGuard(c, r).sys.core, leftover)
  {
    var t := c.turns[r];
    var byThreshold := t.wl.status == Running;
    if ReachesThreshold(c.sys.core.cfg, c.sys.core.pods, byThreshold) {
      IssueFits(c.sys.core, CreateOp(|c.sys.core.history[t.snapshot]|, byThreshold), leftover);
    }
  }

  lemma LandsFits(s: State, op: Op, leftover: multiset<Op>)
    requires FitsBut(s, leftover) && op in s.pending && op.CreateOp?
    ensures FitsBut(Apply(s, Exec(op)), Without(s, op, leftover))
  {
    ExecutedFits(s, op, leftover);
  }

  lemma MoveFits(c: Cluster, m: Move, leftover: multiset<Op>)
    requires Contiguous(c.sys.core.cps) && c.sys.core.cfg.threshold >= 1
    requires FitsBut(c.sys.core, leftover) && CanMove(c, m) && PodsRestMove(m)
    ensures FitsBut(Next(c, m).sys.core, Left(c, m, leftover))
  {
    match m
    case Other(a) => ActFits(c.sys, a, leftover);
    case Guard(r) => GuardFits(c, r, leftover);
    case Create(r, patched) =>
      CreateCore(c, r, patched);
      LandsFits(c.sys.core, c.turns[r].op, leftover);
    case Late(op) => LandsFits(c.sys.core, op, leftover);
    case _ => CoreStays(c, m);
  }

  /** Only the guard plans a create. */
  ghost predicate NoNewCreates(s: State, t: State, leftover: multiset<Op>, rest: multiset<Op>) {
    forall op :: op in t.pending - rest && op.CreateOp? ==> op in s.pending - leftover
  }

  lemma LandsNoCreates(s: State, op: Op, leftover: multiset<Op>)
    requires op in s.pending
    ensures NoNewCreates(s, Execute(Consume(s, op), op), leftover, Without(s, op, leftover))
  {
    var next := ExecAdds(Consume(s, op), op);
  }

  lemma ReadNoCreates(s: State, step: Step, leftover: multiset<Op>)
    requires Reads(step) && Enabled(s, step)
    ensures NoNewCreates(s, Apply(s, step), leftover, leftover)
  {
    var op := Read(s, step);
    assert forall o :: o in Apply(s, step).pending - leftover && o != op ==> o in s.pending - leftover;
  }

  lemma Read(s: State, step: Step) returns (op: Op)
    requires Reads(step) && Enabled(s, step)
    ensures Apply(s, step) == Issue(s, op) && !op.CreateOp?
  {
    op := match step
      case InitTurn(k, n, order) => InitPlan(s.cfg, s.pods, n, s.history[k][n], order)
      case Turn(k, n, reply) => StatusOp(n, s.history[k][n], Advance(s.history[k][n].status, reply, s.now).value)
      case Sweep(k, n) => StatusOp(n, s.history[k][n], Expire(s.history[k][n].status, s.now).value)
      case Receive(k, n, stage, v, m) => CallbackPatch(n, s.history[k][n], stage, v, m).value;
  }

  lemma OtherNoCreates(sys: System, a: Action, leftover: multiset<Op>)
    requires Can(sys, a) && !a.Served?
    ensures NoNewCreates(sys.core, Act(sys, a).core, leftover, Leftover(sys, a, leftover))
  {
    match a
    case Executed(op) =>
      ExecutedShape(sys, op);
      LandsNoCreates(sys.core, op, leftover);
    case Planned(step) => ReadNoCreates(sys.core, step, leftover);
    case Dropped(op) =>
    case _ => SamePending(sys, a);
  }

  lemma SamePending(sys: System, a: Action)
    requires Can(sys, a) && (PodAction(a) || a.ClockTicked? || a.WorkloadSwept? || a.Restarted?)
    ensures Act(sys, a).core.pending == sys.core.pending
  {
  }

  lemma CreateNoCreates(s: State, op: Op, leftover: multiset<Op>)
    requires op in s.pending && op.CreateOp?
    ensures NoNewCreates(s, Apply(s, Exec(op)), leftover, Without(s, op, leftover))
  {
    LandsNoCreates(s, op, leftover);
  }

  lemma MoveNoCreates(c: Cluster, m: Move, leftover: multiset<Op>)
    requires CanMove(c, m) && CoreMove(m) && !m.Guard?
    ensures NoNewCreates(c.sys.core, Next(c, m).sys.core, leftover, Left(c, m, leftover))
  {
    if m.Other? {
      OtherNoCreates(c.sys, m.a, leftover);
    } else if m.Create? {
      CreateCore(c, m.r, m.patched);
      CreateNoCreates(c.sys.core, c.turns[m.r].op, leftover);
    } else {
      CreateNoCreates(c.sys.core, m.op, leftover);
    }
  }

  lemma GuardCreatesFit(c: Cluster, r: Request, leftover: multiset<Op>)
    requires c.sys.core.cfg.threshold >= 1 && CreatesFit(c.sys.core, leftover) && CanMove(c, Guard(r))
    ensures CreatesFit(DoGuard(c, r).sys.core, leftover)
  {
  }

  lemma MoveCreatesFit(c: Cluster, m: Move, leftover: multiset<Op>)
    requires Inv(c.sys.core) && c.sys.core.cfg.threshold >= 1 && CreatesFit(c.sys.core, leftover)
    requires CanMove(c, m) && PodsRestMove(m)
    ensures CreatesFit(Next(c, m).sys.core, Left(c, m, leftover))
  {
    if m.Guard? {
      GuardCreatesFit(c, m.r, leftover);
    } else if !CoreMove(m) {
      CoreStays(c, m);
    } else {
      MoveNoCreates(c, m, leftover);
      var t := Next(c, m).sys.core;
      forall op | op in t.pending - Left(c, m, leftover) ensures CreateFits(t, op) {
        if op.CreateOp? {
          CreateStaysFit(c, m, op);
        }
      }
    }
  }

  lemma MoveKeepsFit(c: Cluster, m: Move, leftover: multiset<Op>)
    requires ClusterInv(c) && AllFit(c.sys.core, leftover) && CanMove(c, m) && PodsRestMove(m)
    ensures AllFit(Next(c, m).sys.core, Left(c, m, leftover))
  {
    MoveFits(c, m, leftover);
    MoveCreatesFit(c, m, leftover);
  }

  // ---------------------------------------------------------------- every change is paid for

  /** A callback that finds its ChangePod moved on. */
  predicate StaleMove(c: Cluster, m: Move) { m.Other? && Stale(c.sys, m.a) }

  /** What a move pays: its change, and the measure, with an allowance of 32 for every write left over. */
  ghost predicate Paid(c: Cluster, m: Move, leftover: multiset<Op>)
    requires CanMove(c, m) && Contiguous(c.sys.core.cps)
  {
    && Contiguous(Next(c, m).sys.core.cps)
    && Changed(c, Next(c, m)) + Total(Next(c, m)) + 32 * |Left(c, m, leftover)|
       <= Total(c) + 32 * |leftover| + (if StaleMove(c, m) then 32 else 0)
  }

  lemma LandsPaid(c: Cluster, m: Move, op: Op, leftover: multiset<Op>)
    requires Inv(c.sys.core) && AllFit(c.sys.core, leftover) && CanMove(c, m)
    requires op in c.sys.core.pending && op.CreateOp?
    requires Next(c, m).sys.core == Apply(c.sys.core, Exec(op)) && Next(c, m).sys.wl == c.sys.wl
    requires Left(c, m, leftover) == Without(c.sys.core, op, leftover)
    requires SameStore(c, Next(c, m)) ==>
               forall q :: q in Next(c, m).turns ==> q in c.turns && Next(c, m).turns[q] == c.turns[q]
    requires Next(c, m).version != c.version ==> Next(c, m).sys.core.cps != c.sys.core.cps
    ensures Paid(c, m, leftover)
  {
    ConsumeFits(c.sys.core, op, leftover);
    if op in c.sys.core.pending - leftover {
      CreateLandsLowers(c.sys.core, op);
      LoweredCost(c, Next(c, m));
    } else {
      CreateLandsRaises(c.sys.core, op);
      RaisedCost(c, Next(c, m));
    }
  }

  lemma CreateStore(c: Cluster, r: Request, patched: bool)
    requires CanMove(c, Create(r, patched))
    ensures var end := DoCreate(c, r, patched);
            && (end.version != c.version ==> end.sys.core.cps != c.sys.core.cps)
            && (end.sys.core.cps == c.sys.core.cps ==>
                  forall q :: q in end.turns ==> q in c.turns && end.turns[q] == c.turns[q])
  {
  }

  lemma CreatePaid(c: Cluster, r: Request, patched: bool, leftover: multiset<Op>)
    requires Inv(c.sys.core) && AllFit(c.sys.core, leftover) && CanMove(c, Create(r, patched))
    ensures Paid(c, Create(r, patched), leftover)
  {
    CreateCore(c, r, patched);
    CreateStore(c, r, patched);
    CreateFrame(c, r, patched);
    LandsPaid(c, Create(r, patched), c.turns[r].op, leftover);
  }

  lemma OtherStore(c: Cluster, a: Action)
    requires WorkloadOk(c.sys.wl) && CanMove(c, Other(a))
    ensures var end := Next(c, Other(a));
            && end.sys.wl == c.sys.wl && end.version == c.version && end.sys.core == Act(c.sys, a).core
            && forall q :: q in end.turns ==> q in c.turns && end.turns[q] == c.turns[q]
  {
    SameStatus(c.sys, a);
  }

  /** What another action than a write in flight does to the measure of the ChangePods. */
  lemma OtherKeeps(sys: System, a: Action)
    requires Contiguous(sys.core.cps) && Can(sys, a) && PodsRest(a) && !a.Served? && !a.Executed?
    ensures Lowered(sys.core, Act(sys, a).core)
  {
    if a.Planned? {
      ReadFrame(sys.core, a.step);
    } else {
      IdleFrame(sys, a);
    }
  }

  lemma OtherPaid(c: Cluster, a: Action, leftover: multiset<Op>)
    requires ClusterInv(c) && AllFit(c.sys.core, leftover) && CanMove(c, Other(a)) && PodsRest(a) && !a.Executed?
    ensures Paid(c, Other(a), leftover)
  {
    OtherStore(c, a);
    OtherKeeps(c.sys, a);
    LoweredCost(c, Next(c, Other(a)));
    if a.Dropped? {
      ConsumeFits(c.sys.core, a.op, leftover);
    }
  }

  lemma ExecutedPaid(c: Cluster, op: Op, leftover: multiset<Op>)
    requires ClusterInv(c) && AllFit(c.sys.core, leftover) && CanMove(c, Other(Executed(op)))
    ensures Paid(c, Other(Executed(op)), leftover)
  {
    var s := c.sys.core;
    OtherStore(c, Executed(op));
    ExecutedShape(c.sys, op);
    ConsumeFits(s, op, leftover);
    assert OpOk(s, op) && WellPlanned(op);
    if Misfit(c.sys, Executed(op)) {
      ExecRaises(s, op);
      RaisedCost(c, Next(c, Other(Executed(op))));
    } else {
      ExecLowers(s, op);
      LoweredCost(c, Next(c, Other(Executed(op))));
    }
  }

  lemma TurnPaid(c: Cluster, m: Move, leftover: multiset<Op>)
    requires ClusterInv(c) && Accurate(c) && CanMove(c, m) && !m.Other? && !m.Create? && !m.Late?
    ensures Paid(c, m, leftover)
  {
    match m
    case Compute(r, order, replicas) => ComputeCost(c, r, order, replicas);
    case Write(r) => WriteCost(c, r);
    case _ => ReadCost(c, m);
  }

  lemma MovePaid(c: Cluster, m: Move, leftover: multiset<Op>)
    requires ClusterInv(c) && Accurate(c) && AllFit(c.sys.core, leftover) && CanMove(c, m) && PodsRestMove(m)
    ensures Paid(c, m, leftover)
  {
    match m
    case Other(a) =>
      if a.Executed? {
        ExecutedPaid(c, a.op, leftover);
      } else {
        OtherPaid(c, a, leftover);
      }
    case Create(r, patched) => CreatePaid(c, r, patched, leftover);
    case Late(op) => LandsPaid(c, m, op, leftover);
    case _ => TurnPaid(c, m, leftover);
  }

  // ---------------------------------------------------------------- main result

  /** Number of moves in a run that change something. */
  ghost function MoveChanges(c: Cluster, moves: seq<Move>): nat
    decreases |moves|
  {
    if moves == [] || !CanMove(c, moves[0]) then 0
    else Changed(c, Next(c, moves[0])) + MoveChanges(Next(c, moves[0]), moves[1..])
  }

  /** Number of callbacks in a run that found their ChangePod moved on. */
  ghost function StaleMoves(c: Cluster, moves: seq<Move>): nat
    decreases |moves|
  {
    if moves == [] || !CanMove(c, moves[0]) then 0
    else (if StaleMove(c, moves[0]) then 1 else 0) + StaleMoves(Next(c, moves[0]), moves[1..])
  }

  ghost predicate AllRest(moves: seq<Move>) {
    forall i :: 0 <= i < |moves| ==> PodsRestMove(moves[i])
  }

  lemma MoveKeepsAll(c: Cluster, m: Move, leftover: multiset<Op>)
    requires ClusterInv(c) && Accurate(c) && AllFit(c.sys.core, leftover) && CanMove(c, m) && PodsRestMove(m)
    ensures ClusterInv(Next(c, m)) && Accurate(Next(c, m)) && AllFit(Next(c, m).sys.core, Left(c, m, leftover))
  {
    MoveKeepsFit(c, m, leftover);
    MoveKeepsInv(c, m);
    MoveKeepsAccurate(c, m);
  }

  lemma {:induction false} MovesAgainstLeftover(c: Cluster, moves: seq<Move>, end: Cluster, leftover: multiset<Op>)
    requires ClusterInv(c) && Accurate(c) && AllFit(c.sys.core, leftover) && Moves(c, moves, end) && AllRest(moves)
    ensures MoveChanges(c, moves) <= Total(c) + 32 * |leftover| + 32 * StaleMoves(c, moves)
    decreases |moves|
  {
    if moves != [] {
      var m := moves[0];
      MovePaid(c, m, leftover);
      MoveKeepsAll(c, m, leftover);
      MovesAgainstLeftover(Next(c, m), moves[1..], end, Left(c, m, leftover));
    }
  }

  lemma {:induction false} MovesKeepAccurate(c: Cluster, moves: seq<Move>, end: Cluster)
    requires ClusterInv(c) && Accurate(c) && Moves(c, moves, end)
    ensures ClusterInv(end) && Accurate(end)
    decreases |moves|
  {
    if moves != [] {
      MoveKeepsInv(c, moves[0]);
      MoveKeepsAccurate(c, moves[0]);
      MovesKeepAccurate(Next(c, moves[0]), moves[1..], end);
    }
  }

  /** Termination with turns at single API calls: take any run from the start, with any number of turns cut
      at any point and holding lists of any age.  From the moment on when no pod comes, goes or finishes any
      more, at most `Total` further changes are made to ChangePods, pod labels and the workload, and 32 for
      every write then in flight and every callback that finds its ChangePod moved on. */
  lemma BoundedChangesConcurrently(
    start: Cluster, before: seq<Move>, c: Cluster, moves: seq<Move>, end: Cluster)
    requires Starts(start.sys) && start.turns == map[] && start.sys.core.cfg.threshold >= 1
    requires Moves(start, before, c) && Moves(c, moves, end) && AllRest(moves)
    ensures Contiguous(c.sys.core.cps)
    ensures MoveChanges(c, moves) <= Total(c) + 32 * |c.sys.core.pending| + 32 * StaleMoves(c, moves)
  {
    StartsOk(start.sys);
    MovesKeepAccurate(start, before, c);
    assert c.sys.core.pending - c.sys.core.pending == multiset{};
    MovesAgainstLeftover(c, moves, end, c.sys.core.pending);
  }
}
