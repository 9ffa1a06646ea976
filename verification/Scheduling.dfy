/** The work queue of the workload reconciler on top of the protocol: which watch events enqueue a request
    and what serving it does.  ChangePod handlers, callbacks and sweeps interleave at single API calls and
    read any past ChangePod; the workload reconciler runs one turn at a time on current reads. */
module Scheduling {
  import opened Options
  import opened Protocol
  import opened Safety
  import opened Atomic
  import opened Verdicts

  /** A key in the work queue of the ChangeWorkload reconciler. */
  datatype Request = WorkloadKey | ChangePodKey(num: nat) | PodKey(name: string)

  datatype System = System(core: State, wl: Workload, queue: set<Request>)

  datatype Action =
    | PodAdded(name: string, ip: string)
    | PodFinished(name: string)
    | PodRemoved(name: string)
    | ClockTicked
    | Served(request: Request, listing: seq<nat>, replicas: int)
    | Planned(step: Step)
    | Executed(op: Op)
    | Dropped(op: Op)
    | WorkloadSwept
    | Restarted

  // ---------------------------------------------------------------- watch events

  /** Pod events: created or updated, filtered and mapped by the same test on the labels. */
  function PodEvent(pods: map<string, Pod>, p: string): set<Request> {
    if Undefensed(pods, p) then {PodKey(p)} else {}
  }

  /** ChangePod update events that pass the filter: the end of ExecuteInit and of everything. */
  predicate WakesWorkload(old_: ChangePod, new_: ChangePod) {
    (old_.Init() && new_.status.phase == PreWait) || new_.status.phase == ExecuteDone
  }

  function ChangePodEvents(a: ChangePods, b: ChangePods): set<Request> {
    set n | n in a && n in b && a[n] != b[n] && WakesWorkload(a[n], b[n]) && !b[n].Init() :: ChangePodKey(n)
  }

  /** ChangeWorkload events, except in the Init and Failed status. */
  function WorkloadEvent(wl: Workload): set<Request> {
    if wl.status == WInit || wl.status == Failed then {} else {WorkloadKey}
  }

  /** What the initial list of every watch enqueues when the operator starts. */
  function StartEvents(core: State, wl: Workload): set<Request> {
    (set p | p in core.pods && Undefensed(core.pods, p) :: PodKey(p))
    + (set n | n in core.cps && core.cps[n].status.phase == ExecuteDone :: ChangePodKey(n))
    + WorkloadEvent(wl)
  }

  // ---------------------------------------------------------------- the workload reconciler

  /** A request is dropped unless its object still exists, and for a Pod is finished. */
  predicate Effective(sys: System, r: Request) {
    match r
    case WorkloadKey => true
    case ChangePodKey(n) => n in sys.core.cps
    case PodKey(p) => p in sys.core.pods && sys.core.pods[p].finished
  }

  predicate Active(st: WorkloadStatus) { st != WInit && st != Failed }

  function Created(sys: System): State {
    if Active(sys.wl.status) then CreateOutcome(sys.core, sys.wl.status == Running) else sys.core
  }

  /** The status the reconciler writes, if it writes it. */
  function NextWorkload(sys: System, listing: seq<nat>, replicas: int): Option<Workload>
    requires forall n :: n in listing ==> n in Created(sys).cps
  {
    match sys.wl.status
    case WInit => Some(sys.wl.(status := Running))
    case Failed => None
    case TimeOutPreThreshold =>
      if Created(sys) != sys.core then Some(sys.wl.(status := Running))
      else Sync(Listing(sys.core.cps, listing), sys.core.pods.Keys, sys.wl, replicas, |FinishedSet(sys.core.pods)|)
    case _ =>
      Sync(Listing(Created(sys).cps, listing), sys.core.pods.Keys, sys.wl, replicas, |FinishedSet(sys.core.pods)|)
  }

  /** Serving one request.  Creating a ChangePod also patches the workload's entry time. */
  function Serve(sys: System, r: Request, listing: seq<nat>, replicas: int): System
    requires forall n :: n in listing ==> n in Created(sys).cps
  {
    var rest := sys.queue - {r};
    if !Effective(sys, r) then sys.(queue := rest)
    else
      var core := Created(sys);
      var next := NextWorkload(sys, listing, replicas);
      System(core,
             if next.Some? then next.value else sys.wl,
             rest + (if core != sys.core then WorkloadEvent(sys.wl) else {})
                  + (if next.Some? then WorkloadEvent(next.value) else {}))
  }

  // ---------------------------------------------------------------- actions

  /** A store change by the ChangePod reconciler, the callback or the sweep, with its events. */
  function Change(sys: System, core: State): System {
    sys.(core := core, queue := sys.queue + ChangePodEvents(sys.core.cps, core.cps))
  }

  /** What handlers of ChangePods, callbacks and sweeps read before they write. */
  predicate Reads(step: Step) {
    step.InitTurn? || step.Turn? || step.Sweep? || step.Receive?
  }

  /** What may happen next. */
  ghost predicate Offered(sys: System, a: Action) {
    match a
    case PodAdded(p, ip) => Enabled(sys.core, AddPod(p, ip))
    case PodFinished(p) => p in sys.core.pods
    case PodRemoved(p) => p in sys.core.pods
    case Served(r, listing, _) => r in sys.queue && Lists(listing, Created(sys).cps)
    case Planned(step) => Reads(step) && Enabled(sys.core, step)
    case Executed(op) => op in sys.core.pending && !op.CreateOp?
    case Dropped(op) => op in sys.core.pending
    case ClockTicked => true
    case WorkloadSwept => true
    case Restarted => true
  }

  /** What may happen next if deletes are careful, as in a careful run. */
  ghost predicate Can(sys: System, a: Action) {
    Offered(sys, a) && (a.Executed? ==> CarefulStep(sys.core, Exec(a.op)))
  }

  function Act(sys: System, a: Action): System
    requires Offered(sys, a)
  {
    match a
    case PodAdded(p, ip) => sys.(core := Apply(sys.core, AddPod(p, ip)))
    case PodFinished(p) =>
      var core := Apply(sys.core, FinishPod(p));
      sys.(core := core, queue := sys.queue + PodEvent(core.pods, p))
    case PodRemoved(p) =>
      sys.(core := Apply(sys.core, RemovePod(p)), queue := sys.queue + PodEvent(sys.core.pods, p))
    case ClockTicked => sys.(core := Apply(sys.core, Tick))
    case Served(r, listing, replicas) => Serve(sys, r, listing, replicas)
    case Planned(step) => sys.(core := Apply(sys.core, step))
    case Executed(op) => Change(sys, Apply(sys.core, Exec(op)))
    case Dropped(op) => sys.(core := Apply(sys.core, Drop(op)))
    case WorkloadSwept =>
      if sys.wl.status == Running && sys.wl.preparing != [] then
        sys.(wl := sys.wl.(status := TimeOutPreThreshold), queue := sys.queue + {WorkloadKey})
      else sys
    case Restarted => sys.(queue := StartEvents(sys.core, sys.wl))
  }

  ghost predicate SystemRun(sys: System, actions: seq<Action>, end: System)
    decreases |actions|
  {
    if actions == [] then sys == end
    else Can(sys, actions[0]) && SystemRun(Act(sys, actions[0]), actions[1..], end)
  }

  /** A fresh ChangeWorkload, with pods that nobody has defended yet.  Only pods can have requests queued:
      events of a workload in Init are filtered. */
  ghost predicate Starts(sys: System) {
    && Initial(sys.core) && sys.wl == Workload(WInit, [], [], [])
    && (forall r :: r in sys.queue ==> r.PodKey?)
  }

  // ---------------------------------------------------------------- refinement

  /** Every action changes the stored objects by a run of the protocol. */
  lemma ActIsRun(sys: System, a: Action) returns (steps: seq<Step>)
    requires Can(sys, a) && Versions(sys.core)
    ensures CarefulRun(sys.core, steps, Act(sys, a).core)
  {
    steps := [];
    match a
    case PodAdded(p, ip) => steps := OneStep(sys.core, AddPod(p, ip));
    case PodFinished(p) => steps := OneStep(sys.core, FinishPod(p));
    case PodRemoved(p) => steps := OneStep(sys.core, RemovePod(p));
    case ClockTicked => steps := OneStep(sys.core, Tick);
    case Planned(step) => steps := OneStep(sys.core, step);
    case Executed(op) => steps := OneStep(sys.core, Exec(op));
    case Dropped(op) => steps := OneStep(sys.core, Drop(op));
    case Served(r, _, _) =>
      if Effective(sys, r) && Active(sys.wl.status) {
        steps := CreateOutcomeIsRun(sys.core, sys.wl.status == Running);
      }
    case WorkloadSwept =>
    case Restarted =>
  }

  lemma ActKeepsConfig(sys: System, a: Action)
    requires Can(sys, a)
    ensures Act(sys, a).core.cfg == sys.core.cfg
  {
  }

  /** What a write in flight was planned for: a batch is not empty, labels and status writes belong to a
      ChangePod with its batch, and the final status write of an init turn leads to PreWait. */
  predicate WellPlanned(op: Op) {
    match op
    case SpecOp(_, _, batch) => batch != []
    case LabelOp(_, read, _, _) => read.podInfos != []
    case StatusOp(_, read, status) => read.Settled() && (read.Init() ==> status.phase == PreWait)
    case _ => true
  }

  ghost predicate AllPlanned(s: State) {
    forall op :: op in s.pending ==> WellPlanned(op)
  }

  ghost predicate WorkloadOk(wl: Workload) {
    && wl.status in {WInit, Running, Success, Suspend}
    && wl.preparing == []
    && (wl.fail != [] ==> wl.status == Suspend)
  }

  /** What every action keeps. */
  ghost predicate SysInv(sys: System) {
    Inv(sys.core) && AllPlanned(sys.core) && sys.core.cfg.threshold >= 1 && WorkloadOk(sys.wl)
  }

  lemma ExecPlanned(s: State, op: Op)
    requires AllPlanned(s) && op in s.pending
    ensures AllPlanned(Execute(Consume(s, op), op))
  {
    assert WellPlanned(op);
  }

  lemma InitPlanned(cfg: Config, pods: map<string, Pod>, n: nat, read: ChangePod, order: seq<string>)
    requires cfg.threshold >= 1
    ensures WellPlanned(InitPlan(cfg, pods, n, read, order))
  {
  }

  lemma ReadPlanned(s: State, step: Step)
    requires AllPlanned(s) && s.cfg.threshold >= 1 && Reads(step) && Enabled(s, step)
    ensures AllPlanned(Apply(s, step))
  {
    if step.InitTurn? {
      InitPlanned(s.cfg, s.pods, step.num, s.history[step.snapshot][step.num], step.order);
    }
  }

  lemma ActPlanned(sys: System, a: Action)
    requires AllPlanned(sys.core) && sys.core.cfg.threshold >= 1 && Can(sys, a)
    ensures AllPlanned(Act(sys, a).core)
  {
    match a
    case Executed(op) => ExecPlanned(sys.core, op);
    case Planned(step) => ReadPlanned(sys.core, step);
    case _ => NothingPlanned(sys, a);
  }

  lemma NothingPlanned(sys: System, a: Action)
    requires Can(sys, a) && !a.Executed? && !a.Planned?
    ensures Act(sys, a).core.pending <= sys.core.pending
  {
  }

  lemma ActKeepsInv(sys: System, a: Action)
    requires Inv(sys.core) && Can(sys, a)
    ensures Inv(Act(sys, a).core)
  {
    var steps := ActIsRun(sys, a);
    RunKeepsInv(sys.core, steps, Act(sys, a).core);
  }

  lemma NextIsOk(sys: System, listing: seq<nat>, replicas: int)
    requires WorkloadOk(sys.wl) && forall n :: n in listing ==> n in Created(sys).cps
    ensures var next := NextWorkload(sys, listing, replicas);
            && (next.Some? ==> WorkloadOk(next.value) && next.value.status != WInit && next.value.status != Failed)
            && (sys.wl.status == WInit ==> next.Some?)
  {
  }

  lemma ActWorkloadOk(sys: System, a: Action)
    requires WorkloadOk(sys.wl) && Can(sys, a)
    ensures WorkloadOk(Act(sys, a).wl)
  {
    if a.Served? {
      NextIsOk(sys, a.listing, a.replicas);
    }
  }

  lemma ActKeepsSysInv(sys: System, a: Action)
    requires SysInv(sys) && Can(sys, a)
    ensures SysInv(Act(sys, a))
  {
    ActKeepsInv(sys, a);
    ActPlanned(sys, a);
    ActKeepsConfig(sys, a);
    ActWorkloadOk(sys, a);
  }

  lemma {:induction false} RunKeepsSysInv(sys: System, actions: seq<Action>, end: System)
    requires SysInv(sys) && SystemRun(sys, actions, end)
    ensures SysInv(end)
    decreases |actions|
  {
    if actions != [] {
      ActKeepsSysInv(sys, actions[0]);
      RunKeepsSysInv(Act(sys, actions[0]), actions[1..], end);
    }
  }

  lemma StartsOk(sys: System)
    requires Starts(sys) && sys.core.cfg.threshold >= 1
    ensures SysInv(sys)
  {
    InitialInv(sys.core);
  }

  lemma ServedParts(sys: System, a: Action)
    requires a.Served? && Can(sys, a) && Effective(sys, a.request)
    ensures var next := NextWorkload(sys, a.listing, a.replicas);
            && Act(sys, a).core == Created(sys)
            && Act(sys, a).wl == if next.Some? then next.value else sys.wl
  {
  }

  /** The object of a request is gone, or it is a pod that is not finished. */
  ghost predicate Pointless(sys: System, r: Request) {
    match r
    case WorkloadKey => false
    case ChangePodKey(n) => n !in sys.core.cps
    case PodKey(p) => p in sys.core.pods ==> !sys.core.pods[p].finished
  }

  /** What serving does in the statuses that do not synchronise: a pointless request, and a Failed workload,
      change nothing; a workload in Init starts Running; and one that timed out before its threshold is Running
      again as soon as a ChangePod is created. */
  lemma ServedWithoutSync(sys: System, r: Request, listing: seq<nat>, replicas: int)
    requires Contiguous(sys.core.cps) && forall n :: n in listing ==> n in Created(sys).cps
    ensures var end := Serve(sys, r, listing, replicas);
            && (Pointless(sys, r) || sys.wl.status == Failed ==>
                  end.core == sys.core && end.wl == sys.wl && end.queue == sys.queue - {r})
            && (!Pointless(sys, r) && sys.wl.status == WInit ==>
                  end.core == sys.core && end.wl == sys.wl.(status := Running) && WorkloadKey in end.queue)
            && (!Pointless(sys, r) && sys.wl.status == TimeOutPreThreshold && end.core != sys.core ==>
                  end.wl == sys.wl.(status := Running) && OneMore(sys.core, end.core, false))
  {
    CreateExactly(sys.core, sys.wl.status == Running);
  }

  /** Which requests the watches queue: of a pod, when it finishes or is deleted without its label; of a
      ChangePod, when a write takes it out of ExecuteInit to PreWait or leaves it done; of the workload, when it
      is swept. */
  ghost predicate Queued(sys: System, a: Action, after: ChangePods, r: Request) {
    match r
    case PodKey(p) =>
      p in sys.core.pods && !sys.core.pods[p].defensed
      && (a == PodFinished(p) || (a == PodRemoved(p) && sys.core.pods[p].finished))
    case ChangePodKey(n) => a.Executed? && n in sys.core.cps && n in after && Wakes(sys.core.cps[n], after[n])
    case WorkloadKey => a.WorkloadSwept? && sys.wl.status == Running && sys.wl.preparing != []
  }

  /** Nothing else is queued, and nothing is taken from the queue. */
  lemma QueuesExactly(sys: System, a: Action, r: Request)
    requires Offered(sys, a) && !a.Served? && !a.Restarted?
    ensures r in Act(sys, a).queue <==> r in sys.queue || Queued(sys, a, Act(sys, a).core.cps, r)
  {
  }

  ghost predicate Wakes(cp: ChangePod, cp': ChangePod) {
    && cp != cp'
    && (cp'.status.phase == ExecuteDone || (cp.status.phase == ExecuteInit && cp'.status.phase == PreWait))
  }

  /** What a restart queues: pods that are finished and not labelled, ChangePods that are done, and the workload
      unless it is in Init or Failed. */
  lemma RestartQueuesExactly(sys: System, r: Request)
    ensures r in Act(sys, Restarted).queue <==>
              match r
              case PodKey(p) => p in sys.core.pods && sys.core.pods[p].finished && !sys.core.pods[p].defensed
              case ChangePodKey(n) => n in sys.core.cps && sys.core.cps[n].status.phase == ExecuteDone
              case WorkloadKey => sys.wl.status !in {WInit, Failed}
  {
  }

  /** Serving takes its own request and queues at most one for the workload, and does so whenever it has changed
      the workload. */
  lemma ServeQueues(sys: System, a: Action, q: Request)
    requires WorkloadOk(sys.wl) && a.Served? && Can(sys, a)
    ensures q != WorkloadKey ==> (q in Act(sys, a).queue <==> q in sys.queue && q != a.request)
    ensures Act(sys, a).wl != sys.wl ==> WorkloadKey in Act(sys, a).queue
    ensures Act(sys, a).core == sys.core && NextWorkload(sys, a.listing, a.replicas).None? ==>
              Act(sys, a).queue == sys.queue - {a.request}
  {
    NextIsOk(sys, a.listing, a.replicas);
  }

  /** Creating the ChangePod leaves an initialising one behind. */
  lemma CreateOutcomeShape(s: State, byThreshold: bool)
    requires Contiguous(s.cps)
    ensures var t := CreateOutcome(s, byThreshold);
            && t.pods == s.pods && t.cfg == s.cfg && t.pending == s.pending && s.cps.Keys <= t.cps.Keys
            && (if NoInit(s.cps) && ReachesThreshold(s.cfg, s.pods, byThreshold) then !NoInit(t.cps) else t == s)
  {
    if NoInit(s.cps) && ReachesThreshold(s.cfg, s.pods, byThreshold) {
      assert |s.cps| + 1 !in s.cps;
      assert CreateOutcome(s, byThreshold).cps[|s.cps| + 1].Init();
    }
  }

  // ---------------------------------------------------------------- the workload's state machine

  lemma {:induction false} RunKeepsWorkloadOk(sys: System, actions: seq<Action>, end: System)
    requires WorkloadOk(sys.wl) && SystemRun(sys, actions, end)
    ensures WorkloadOk(end.wl)
    decreases |actions|
  {
    if actions != [] {
      ActWorkloadOk(sys, actions[0]);
      RunKeepsWorkloadOk(Act(sys, actions[0]), actions[1..], end);
    }
  }

  /** The workload's state machine: in every reachable state a non-empty fail list means Suspend, the
      statuses TimeOutPreThreshold and Failed are never reached, and one action takes only the edges
      Init to Running, Running to Success or Suspend, and Success to and from Suspend. */
  lemma WorkloadStateMachine(sys: System, actions: seq<Action>, end: System, a: Action)
    requires Starts(sys) && SystemRun(sys, actions, end) && Can(end, a)
    ensures end.wl.fail != [] ==> end.wl.status == Suspend
    ensures end.wl.status in {WInit, Running, Success, Suspend}
    ensures (end.wl.status, Act(end, a).wl.status) in {
              (WInit, WInit), (WInit, Running), (Running, Running), (Running, Success), (Running, Suspend),
              (Success, Success), (Success, Suspend), (Suspend, Suspend), (Suspend, Success)}
  {
    RunKeepsWorkloadOk(sys, actions, end);
    if a.Served? {
      NextEdges(end, a.listing, a.replicas);
    }
  }

  lemma NextEdges(sys: System, listing: seq<nat>, replicas: int)
    requires WorkloadOk(sys.wl) && forall n :: n in listing ==> n in Created(sys).cps
    ensures var next := NextWorkload(sys, listing, replicas);
            next.Some? ==> (sys.wl.status, next.value.status) in {
              (WInit, Running), (Running, Running), (Running, Success), (Running, Suspend),
              (Success, Success), (Success, Suspend), (Suspend, Suspend), (Suspend, Success)}
  {
  }
}
