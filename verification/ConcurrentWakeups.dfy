/** Why no batch is forgotten with several workers: a turn that has not made its reads yet, or made them for
    the present status of the workload, counts as a queued request. */
module ConcurrentWakeups {
  import opened PodSummaries
  import opened Protocol
  import opened Verdicts
  import opened Scheduling
  import opened Wakeups
  import opened Concurrency

  // ---------------------------------------------------------------- turns in service count as requests

  /** A turn that has not made its reads yet, or made them for the status the workload has now, still stands
      for its request. */
  predicate Covers(stage: TurnStage, status: WorkloadStatus) {
    match stage
    case Taken => true
    case Opened(wl, _) => wl.status == status
    case Checked(wl, _, _) => wl.status == status
    case Creating(wl, _, _) => wl.status == status
    case Writing(from, _, _) => from == WInit && status == WInit
    case _ => false
  }

  function Covering(c: Cluster): set<Request> {
    set r | r in c.turns && Covers(c.turns[r], c.sys.wl.status)
  }

  /** The system with the keys of those turns back in the queue. */
  function Virtual(c: Cluster): System {
    c.sys.(queue := c.sys.queue + Covering(c))
  }

  /** More requests, and nothing else. */
  lemma MoreRequests(a: System, b: System)
    requires Awake(a) && a.queue <= b.queue && b.wl.status == a.wl.status
    requires b.core.cps == a.core.cps && b.core.pods == a.core.pods && b.core.cfg == a.core.cfg
    ensures Awake(b)
  {
    assert Unannounced(b) <= Unannounced(a);
    FewerUnannounced(a, b);
    assert forall r :: r in a.queue && WorkloadWide(a, r) ==> r in b.queue && WorkloadWide(b, r);
  }

  /** One request less, which would not have been served. */
  lemma OneDropped(a: System, b: System, r: Request)
    requires Awake(a) && a.queue <= b.queue + {r} && b.wl.status == a.wl.status && !Effective(a, r)
    requires b.core.cps == a.core.cps && b.core.pods == a.core.pods && b.core.cfg == a.core.cfg
    ensures Awake(b)
  {
    assert Unannounced(b) <= Unannounced(a);
    FewerUnannounced(a, b);
    assert forall q :: q in a.queue && WorkloadWide(a, q) ==> q in b.queue && WorkloadWide(b, q);
  }

  lemma InitAwake(sys: System)
    requires !NoInit(sys.core.cps)
    ensures Awake(sys)
  {
  }

  lemma WideAwake(sys: System)
    requires WorkloadKey in sys.queue
    ensures Awake(sys)
  {
    assert WorkloadWide(sys, WorkloadKey);
  }

  /** A turn at the end of its reads, or further, may go on or end: nobody counts on it. */
  lemma StageChange(c: Cluster, end: Cluster, r: Request)
    requires Awake(Virtual(c)) && c.sys.queue <= end.sys.queue && end.sys.wl.status == c.sys.wl.status
    requires end.sys.core.cps == c.sys.core.cps && end.sys.core.pods == c.sys.core.pods
    requires end.sys.core.cfg == c.sys.core.cfg
    requires forall q :: q in c.turns && q != r ==> q in end.turns && end.turns[q] == c.turns[q]
    requires r in Covering(c) ==> r in end.sys.queue || r in Covering(end)
    ensures Awake(Virtual(end))
  {
    assert Covering(c) <= Covering(end) + end.sys.queue;
    MoreRequests(Virtual(c), Virtual(end));
  }

  lemma TakeAwake(c: Cluster, r: Request)
    requires Awake(Virtual(c)) && CanMove(c, Take(r))
    ensures Awake(Virtual(Next(c, Take(r))))
  {
    var end := Next(c, Take(r));
    assert Covering(end) == Covering(c) + {r};
    MoreRequests(Virtual(c), Virtual(end));
  }

  lemma OpenAwake(c: Cluster, r: Request)
    requires Awake(Virtual(c)) && CanMove(c, Open(r))
    ensures Awake(Virtual(DoOpen(c, r)))
  {
    var end := DoOpen(c, r);
    if !Effective(c.sys, r) {
      assert Covering(c) <= Covering(end) + {r};
      OneDropped(Virtual(c), Virtual(end), r);
    } else if c.sys.wl.status != Failed {
      StageChange(c, end, r);
    }
  }

  lemma CheckAwake(c: Cluster, r: Request)
    requires Awake(Virtual(c)) && CanMove(c, Check(r))
    ensures Awake(Virtual(DoCheck(c, r)))
  {
    if NoInit(c.sys.core.cps) {
      StageChange(c, DoCheck(c, r), r);
    } else {
      InitAwake(Virtual(DoCheck(c, r)));
    }
  }

  /** Too few pods for a batch of the present status. */
  lemma FewAwake(sys: System)
    requires |UndefensedSet(sys.core.pods)| < Needed(sys)
    ensures Awake(sys)
  {
    SubsetCard(Unannounced(sys), UndefensedSet(sys.core.pods));
  }

  lemma GuardAwake(c: Cluster, r: Request)
    requires Awake(Virtual(c)) && c.sys.core.cfg.threshold >= 1 && CanMove(c, Guard(r))
    ensures Awake(Virtual(DoGuard(c, r)))
  {
    var t := c.turns[r];
    var end := DoGuard(c, r);
    if ReachesThreshold(c.sys.core.cfg, c.sys.core.pods, t.wl.status == Running) || t.wl.status != c.sys.wl.status {
      StageChange(c, end, r);
    } else {
      FewAwake(Virtual(end));
    }
  }

  lemma CreateAwake(c: Cluster, r: Request, patched: bool)
    requires Awake(Virtual(c)) && CanMove(c, Create(r, patched))
    ensures Awake(Virtual(DoCreate(c, r, patched)))
  {
    var end := DoCreate(c, r, patched);
    CreateCore(c, r, patched);
    LandedInit(c.sys.core, c.turns[r].op);
    if end.sys.core.cps == c.sys.core.cps {
      StageChange(c, end, r);
    } else {
      InitAwake(Virtual(end));
    }
  }

  lemma LateAwake(c: Cluster, op: Op)
    requires Awake(Virtual(c)) && CanMove(c, Late(op))
    ensures Awake(Virtual(Next(c, Late(op))))
  {
    var end := Next(c, Late(op));
    LandedInit(c.sys.core, op);
    if end.sys.core.cps == c.sys.core.cps {
      assert Covering(end) == Covering(c);
      MoreRequests(Virtual(c), Virtual(end));
    } else {
      InitAwake(Virtual(end));
    }
  }

  lemma WriteAwake(c: Cluster, r: Request)
    requires Awake(Virtual(c)) && TurnsOk(c) && CanMove(c, Write(r))
    ensures Awake(Virtual(DoWrite(c, r)))
  {
    var end := DoWrite(c, r);
    assert StageOk(c.sys, c.turns[r]);
    if c.turns[r].version != c.version {
      StageChange(c, end, r);
    } else {
      assert WorkloadKey in end.sys.queue;
      WideAwake(Virtual(end));
    }
  }

  /** The other actions do to the virtual queue what they do to the queue. */
  lemma OtherVirtual(c: Cluster, a: Action)
    requires WorkloadOk(c.sys.wl) && CanMove(c, Other(a)) && !a.Restarted?
    ensures Can(Virtual(c), a) && Virtual(Next(c, Other(a))) == Act(Virtual(c), a)
  {
    SameStatus(c.sys, a);
    assert Covering(Next(c, Other(a))) == Covering(c);
    assert Act(Virtual(c), a).queue == Act(c.sys, a).queue + Covering(c);
  }

  /** The system without the request that turn `r` holds. */
  function Spared(c: Cluster, r: Request): System {
    c.sys.(queue := c.sys.queue + (Covering(c) - {r}))
  }

  /** Deletes are timely, where turns in service count as queued requests, and no listing of pods fails in
      the one turn on which a batch depends. */
  ghost predicate TimelyMove(c: Cluster, m: Move) {
    && (m.Other? ==> TimelyAction(Virtual(c), m.a))
    && (m.GuardMissed? ==> Awake(Spared(c, m.r)))
  }

  lemma GuardMissedAwake(c: Cluster, r: Request)
    requires CanMove(c, GuardMissed(r)) && Awake(Spared(c, r))
    ensures Awake(Virtual(DoGuardMissed(c, r)))
  {
    assert Covering(DoGuardMissed(c, r)) == Covering(c) - {r};
    assert Virtual(DoGuardMissed(c, r)) == Spared(c, r);
  }

  /** When a failed listing loses the wake-up at once: exactly when a batch is due, and no request would be
      served but the one in this turn's hands. */
  lemma MissedListingLosesExactly(c: Cluster, r: Request)
    requires CanMove(c, GuardMissed(r))
    ensures Lost(Virtual(DoGuardMissed(c, r))) <==>
              && Due(c.sys)
              && forall q :: q in Virtual(c).queue && Effective(c.sys, q) ==> q == r && r !in c.sys.queue
  {
    var end := DoGuardMissed(c, r);
    assert Covering(end) == Covering(c) - {r};
    assert forall q :: Effective(Virtual(end), q) <==> Effective(c.sys, q);
    if Lost(Virtual(end)) {
      forall q | q in Virtual(c).queue && Effective(c.sys, q) ensures q == r && r !in c.sys.queue {
        assert q !in Virtual(end).queue;
      }
    }
  }

  lemma OtherAwake(c: Cluster, a: Action)
    requires SysInv(c.sys) && Awake(Virtual(c)) && CanMove(c, Other(a)) && TimelyMove(c, Other(a))
    ensures Awake(Virtual(Next(c, Other(a))))
  {
    if a.Restarted? {
      RestartAwake(c.sys);
      assert Virtual(Next(c, Other(a))) == Act(c.sys, Restarted);
    } else {
      OtherVirtual(c, a);
      ActKeepsAwake(Virtual(c), a);
    }
  }

  lemma UncountedAwake(c: Cluster, m: Move)
    requires Awake(Virtual(c)) && CanMove(c, m) && (m.ListAgain? || m.Compute? || m.Fail?)
    ensures Awake(Virtual(Next(c, m)))
  {
    if m.Compute? {
      ComputeFrame(c, m.r, m.order, m.replicas);
    }
    StageChange(c, Next(c, m), m.r);
  }

  lemma MoveKeepsAwake(c: Cluster, m: Move)
    requires ClusterInv(c) && Awake(Virtual(c)) && CanMove(c, m) && TimelyMove(c, m)
    ensures Awake(Virtual(Next(c, m)))
  {
    match m
    case Other(a) => OtherAwake(c, a);
    case Take(r) => TakeAwake(c, r);
    case Open(r) => OpenAwake(c, r);
    case Check(r) => CheckAwake(c, r);
    case Guard(r) => GuardAwake(c, r);
    case GuardMissed(r) => GuardMissedAwake(c, r);
    case Create(r, patched) => CreateAwake(c, r, patched);
    case Write(r) => WriteAwake(c, r);
    case Late(op) => LateAwake(c, op);
    case _ => UncountedAwake(c, m);
  }

  // ---------------------------------------------------------------- no lost wake-up

  ghost predicate TimelyMoves(c: Cluster, moves: seq<Move>, end: Cluster)
    decreases |moves|
  {
    if moves == [] then c == end
    else CanMove(c, moves[0]) && TimelyMove(c, moves[0]) && TimelyMoves(Next(c, moves[0]), moves[1..], end)
  }

  lemma {:induction false} MovesKeepAwake(c: Cluster, moves: seq<Move>, end: Cluster)
    requires ClusterInv(c) && Awake(Virtual(c)) && TimelyMoves(c, moves, end)
    ensures ClusterInv(end) && Awake(Virtual(end))
    decreases |moves|
  {
    if moves != [] {
      MoveKeepsAwake(c, moves[0]);
      MoveKeepsInv(c, moves[0]);
      MovesKeepAwake(Next(c, moves[0]), moves[1..], end);
    }
  }

  /** An announced start, with no turn in service. */
  ghost predicate ClusterStarts(c: Cluster) {
    StartsAnnounced(c.sys) && c.turns == map[]
  }

  lemma ClusterStartsOk(c: Cluster)
    requires ClusterStarts(c)
    ensures ClusterInv(c) && Awake(Virtual(c))
  {
    StartsOk(c.sys);
    assert Virtual(c).queue == c.sys.queue;
    assert Unannounced(Virtual(c)) == {};
  }

  /** No lost wake-up with turns at single API calls: whenever a batch is due, or the workload is in Init and
      a pod waits, a request that will not be dropped is queued, or in the hands of a turn that has not made
      its reads yet, or made them for the present status. */
  lemma NoLostWakeupConcurrently(c: Cluster, moves: seq<Move>, end: Cluster)
    requires ClusterStarts(c) && TimelyMoves(c, moves, end) && Due(end.sys)
    ensures exists r :: Effective(end.sys, r) && (r in end.sys.queue || r in Covering(end))
  {
    ClusterStartsOk(c);
    MovesKeepAwake(c, moves, end);
    AwakeIsNotLost(Virtual(end));
    var r :| r in Virtual(end).queue && Effective(Virtual(end), r);
    assert Effective(end.sys, r);
  }

  /** Quiescence: when no turn is in service, no request is left that would be served and nothing is
      initialising, a Running workload leaves fewer than threshold pods undefended, any other none. */
  lemma QuiescentConcurrently(c: Cluster, moves: seq<Move>, end: Cluster)
    requires ClusterStarts(c) && TimelyMoves(c, moves, end) && NoInit(end.sys.core.cps)
    requires end.turns == map[] && forall r :: r in end.sys.queue ==> !Effective(end.sys, r)
    ensures end.sys.wl.status == Running ==> |UndefensedSet(end.sys.core.pods)| < end.sys.core.cfg.threshold
    ensures end.sys.wl.status != Running ==> UndefensedSet(end.sys.core.pods) == {}
  {
    ClusterStartsOk(c);
    MovesKeepAwake(c, moves, end);
    if Due(end.sys) {
      NoLostWakeupConcurrently(c, moves, end);
      assert false;
    }
  }
}
