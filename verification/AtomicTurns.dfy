/** Every run with atomic turns of the workload reconciler is a run with turns at single API calls. */
module AtomicTurns {
  import opened Options
  import opened Protocol
  import opened Safety
  import opened Atomic
  import opened Verdicts
  import opened Scheduling
  import opened Concurrency

  /** A set of clusters that no move leaves. */
  ghost predicate Closed(reach: iset<Cluster>) {
    forall c, m :: c in reach && CanMove(c, m) ==> Next(c, m) in reach
  }

  // ---------------------------------------------------------------- single calls

  lemma Takes(reach: iset<Cluster>, c: Cluster, r: Request)
    requires Closed(reach) && c in reach && r in c.sys.queue && r !in c.turns
    ensures At(c.(sys := c.sys.(queue := c.sys.queue - {r})), r, Taken) in reach
  {
    assert Next(c, Take(r)) in reach;
  }

  lemma Opens(reach: iset<Cluster>, c: Cluster, r: Request)
    requires Closed(reach) && c in reach && r in c.turns && c.turns[r] == Taken
    ensures DoOpen(c, r) in reach
  {
    assert Next(c, Open(r)) in reach;
  }

  lemma Checks(reach: iset<Cluster>, c: Cluster, r: Request, wl: Workload, v: nat)
    requires Closed(reach) && c in reach && r in c.turns && c.turns[r] == Opened(wl, v) && |c.sys.core.history| > 0
    ensures (At(c, r, if NoInit(c.sys.core.cps) then Checked(wl, v, |c.sys.core.history| - 1)
                                  else Syncing(wl, v))) in reach
  {
    assert Next(c, Check(r)) in reach;
  }

  lemma Guards(reach: iset<Cluster>, c: Cluster, r: Request, wl: Workload, v: nat)
    requires Closed(reach) && c in reach && Versions(c.sys.core) && NoInit(c.sys.core.cps)
    requires r in c.turns && c.turns[r] == Checked(wl, v, |c.sys.core.history| - 1)
    ensures var byThreshold := wl.status == Running;
            var op := CreateOp(|c.sys.core.cps|, byThreshold);
            (if ReachesThreshold(c.sys.core.cfg, c.sys.core.pods, byThreshold)
                         then At(c.(sys := c.sys.(core := Issue(c.sys.core, op))), r, Creating(wl, v, op))
                         else At(c, r, Syncing(wl, v))) in reach
  {
    assert Next(c, Guard(r)) in reach;
  }

  /** A create that finds its name free, with the patch of the entry time. */
  lemma Creates(reach: iset<Cluster>, c: Cluster, r: Request, wl: Workload, v: nat, op: Op)
    requires Closed(reach) && c in reach && r in c.turns && c.turns[r] == Creating(wl, v, op)
    requires wl.status != TimeOutPreThreshold
    requires op.CreateOp? && op in c.sys.core.pending && op.count + 1 !in c.sys.core.cps
    ensures (Cluster(c.sys.(core := Apply(c.sys.core, Exec(op)), queue := c.sys.queue + WorkloadEvent(c.sys.wl)),
                          c.version + 1, c.turns[r := Syncing(c.sys.wl, c.version + 1)])) in reach
  {
    assert Next(c, Create(r, true)) in reach;
  }

  lemma ListsAgain(reach: iset<Cluster>, c: Cluster, r: Request, wl: Workload, v: nat)
    requires Closed(reach) && c in reach && r in c.turns && c.turns[r] == Syncing(wl, v)
    ensures At(c, r, Listed(wl, v, c.sys.core.cps)) in reach
  {
    assert Next(c, ListAgain(r)) in reach;
  }

  /** What a sync of the present objects computes. */
  function Synced(sys: System, order: seq<nat>, replicas: int): Option<Workload>
    requires forall n :: n in order ==> n in sys.core.cps
  {
    Sync(Listing(sys.core.cps, order), sys.core.pods.Keys, sys.wl, replicas, |FinishedSet(sys.core.pods)|)
  }

  lemma Computes(reach: iset<Cluster>, c: Cluster, r: Request, v: nat, order: seq<nat>, replicas: int)
    requires Closed(reach) && c in reach && r in c.turns && c.turns[r] == Listed(c.sys.wl, v, c.sys.core.cps)
    requires Lists(order, c.sys.core.cps)
    ensures var next := Synced(c.sys, order, replicas);
            (if next.Some? then At(c, r, Writing(c.sys.wl.status, v, next.value)) else Ended(c, r)) in reach
  {
    assert Next(c, Compute(r, order, replicas)) in reach;
  }

  /** The cluster after a status update that found the version it had read. */
  function Written(c: Cluster, r: Request, next: Workload): Cluster {
    Cluster(c.sys.(wl := next, queue := c.sys.queue + WorkloadEvent(next)), c.version + 1, c.turns - {r})
  }

  lemma Writes(reach: iset<Cluster>, c: Cluster, r: Request, from: WorkloadStatus, next: Workload)
    requires Closed(reach) && c in reach && r in c.turns && c.turns[r] == Writing(from, c.version, next)
    ensures Written(c, r, next) in reach
  {
    assert Next(c, Write(r)) in reach;
  }

  // ---------------------------------------------------------------- a turn that nobody interrupts

  /** The system after a sync, whether it writes or not. */
  function Updated(sys: System, next: Option<Workload>): System {
    if next.Some? then sys.(wl := next.value, queue := sys.queue + WorkloadEvent(next.value)) else sys
  }

  lemma ComputedEnds(reach: iset<Cluster>, c: Cluster, r: Request, next: Option<Workload>) returns (end: Cluster)
    requires Closed(reach) && r in c.turns
    requires (if next.Some? then At(c, r, Writing(c.sys.wl.status, c.version, next.value)) else Ended(c, r)) in reach
    ensures end in reach && end.turns == c.turns - {r} && end.sys == Updated(c.sys, next)
  {
    if next.Some? {
      var computed := At(c, r, Writing(c.sys.wl.status, c.version, next.value));
      Writes(reach, computed, r, c.sys.wl.status, next.value);
      end := Written(computed, r, next.value);
    } else {
      end := Ended(c, r);
    }
    assert end.turns == c.turns - {r};
  }

  /** Listing, computing and writing on the present objects. */
  lemma SyncEnds(reach: iset<Cluster>, c: Cluster, r: Request, order: seq<nat>, replicas: int) returns (end: Cluster)
    requires Closed(reach) && c in reach && r in c.turns && c.turns[r] == Syncing(c.sys.wl, c.version)
    requires Lists(order, c.sys.core.cps)
    ensures end in reach && end.turns == c.turns - {r} && end.sys == Updated(c.sys, Synced(c.sys, order, replicas))
  {
    ListsAgain(reach, c, r, c.sys.wl, c.version);
    var listed := At(c, r, Listed(c.sys.wl, c.version, c.sys.core.cps));
    Computes(reach, listed, r, c.version, order, replicas);
    end := ComputedEnds(reach, listed, r, Synced(c.sys, order, replicas));
    assert listed.turns - {r} == c.turns - {r};
  }

  /** The system after the create decision of an atomic turn. */
  function Decided(sys: System): System {
    var core := CreateOutcome(sys.core, sys.wl.status == Running);
    sys.(core := core, queue := sys.queue + if core != sys.core then WorkloadEvent(sys.wl) else {})
  }

  lemma CreateLands(s: State, op: Op)
    requires Contiguous(s.cps) && NoInit(s.cps) && op.CreateOp? && op.count == |s.cps|
    requires ReachesThreshold(s.cfg, s.pods, op.byThreshold)
    ensures Apply(Issue(s, op), Exec(op)) == CreateOutcome(s, op.byThreshold)
    ensures CreateOutcome(s, op.byThreshold) != s && op.count + 1 !in s.cps
  {
    assert Consume(Issue(s, op), op) == s;
    assert |s.cps| + 1 !in s.cps;
    assert CreateOutcome(s, op.byThreshold).cps != s.cps;
  }

  lemma DecidedByCreate(sys: System, op: Op)
    requires op == CreateOp(|sys.core.cps|, sys.wl.status == Running)
    requires Contiguous(sys.core.cps) && NoInit(sys.core.cps)
    requires ReachesThreshold(sys.core.cfg, sys.core.pods, op.byThreshold)
    ensures op.count + 1 !in sys.core.cps && op in Issue(sys.core, op).pending
    ensures Decided(sys) ==
              sys.(core := Apply(Issue(sys.core, op), Exec(op)), queue := sys.queue + WorkloadEvent(sys.wl))
  {
    CreateLands(sys.core, op);
  }

  /** The create lands, and the turn goes on to its sync. */
  lemma CreatedEnds(reach: iset<Cluster>, c: Cluster, r: Request, op: Op) returns (end: Cluster)
    requires Closed(reach) && r in c.turns && c.sys.wl.status != TimeOutPreThreshold
    requires op.CreateOp? && op.count + 1 !in c.sys.core.cps && op in Issue(c.sys.core, op).pending
    requires At(c.(sys := c.sys.(core := Issue(c.sys.core, op))), r, Creating(c.sys.wl, c.version, op)) in reach
    ensures end in reach
    ensures end.sys ==
              c.sys.(core := Apply(Issue(c.sys.core, op), Exec(op)), queue := c.sys.queue + WorkloadEvent(c.sys.wl))
    ensures end.turns == c.turns[r := Syncing(end.sys.wl, end.version)]
  {
    var guarded := At(c.(sys := c.sys.(core := Issue(c.sys.core, op))), r, Creating(c.sys.wl, c.version, op));
    Creates(reach, guarded, r, c.sys.wl, c.version, op);
    end := Cluster(guarded.sys.(core := Apply(guarded.sys.core, Exec(op)),
                                queue := guarded.sys.queue + WorkloadEvent(guarded.sys.wl)),
                   c.version + 1, guarded.turns[r := Syncing(c.sys.wl, c.version + 1)]);
    assert end.turns == c.turns[r := Syncing(c.sys.wl, c.version + 1)];
  }

  lemma NothingDecided(sys: System)
    requires !NoInit(sys.core.cps) || !ReachesThreshold(sys.core.cfg, sys.core.pods, sys.wl.status == Running)
    ensures Decided(sys) == sys
  {
  }

  lemma GuardEnds(reach: iset<Cluster>, c: Cluster, r: Request) returns (end: Cluster)
    requires Closed(reach) && c in reach && Versions(c.sys.core) && NoInit(c.sys.core.cps)
    requires r in c.turns && c.turns[r] == Checked(c.sys.wl, c.version, |c.sys.core.history| - 1)
    requires c.sys.wl.status != TimeOutPreThreshold
    ensures end in reach && end.sys == Decided(c.sys)
    ensures end.turns == c.turns[r := Syncing(end.sys.wl, end.version)]
  {
    Guards(reach, c, r, c.sys.wl, c.version);
    if ReachesThreshold(c.sys.core.cfg, c.sys.core.pods, c.sys.wl.status == Running) {
      assert c.sys.core.history[|c.sys.core.history| - 1] == c.sys.core.cps;
      var op := CreateOp(|c.sys.core.cps|, c.sys.wl.status == Running);
      DecidedByCreate(c.sys, op);
      end := CreatedEnds(reach, c, r, op);
    } else {
      NothingDecided(c.sys);
      end := At(c, r, Syncing(c.sys.wl, c.version));
    }
  }

  lemma CreateEnds(reach: iset<Cluster>, c: Cluster, r: Request) returns (end: Cluster)
    requires Closed(reach) && c in reach && Versions(c.sys.core)
    requires r in c.turns && c.turns[r] == Opened(c.sys.wl, c.version) && c.sys.wl.status != TimeOutPreThreshold
    ensures end in reach && end.sys == Decided(c.sys)
    ensures end.turns == c.turns[r := Syncing(end.sys.wl, end.version)]
  {
    Checks(reach, c, r, c.sys.wl, c.version);
    if NoInit(c.sys.core.cps) {
      var checked := At(c, r, Checked(c.sys.wl, c.version, |c.sys.core.history| - 1));
      end := GuardEnds(reach, checked, r);
      assert checked.turns[r := Syncing(end.sys.wl, end.version)] == c.turns[r := Syncing(end.sys.wl, end.version)];
    } else {
      NothingDecided(c.sys);
      end := At(c, r, Syncing(c.sys.wl, c.version));
    }
  }

  /** Serving a request of a workload past Init, in terms of its two halves. */
  lemma ServeParts(sys: System, a: Action)
    requires a.Served? && Can(sys, a) && WorkloadOk(sys.wl) && Effective(sys, a.request) && sys.wl.status != WInit
    ensures var mid := Decided(sys.(queue := sys.queue - {a.request}));
            && mid.core == Created(sys) && mid.wl == sys.wl && mid.core.pods == sys.core.pods
            && Lists(a.listing, mid.core.cps)
            && Act(sys, a) == Updated(mid, NextWorkload(sys, a.listing, a.replicas))
  {
  }

  lemma SameSync(sys: System, mid: System, a: Action)
    requires a.Served? && Can(sys, a) && WorkloadOk(sys.wl) && sys.wl.status != WInit
    requires mid.core == Created(sys) && mid.wl == sys.wl && mid.core.pods == sys.core.pods
    ensures NextWorkload(sys, a.listing, a.replicas) == Synced(mid, a.listing, a.replicas)
  {
  }

  lemma InitTurnEnds(reach: iset<Cluster>, c: Cluster, taken: Cluster, a: Action) returns (end: Cluster)
    requires Closed(reach) && a.Served? && DoOpen(taken, a.request) in reach
    requires Can(c.sys, a) && WorkloadOk(c.sys.wl) && Effective(c.sys, a.request)
    requires a.request !in c.turns && c.sys.wl.status == WInit
    requires taken == At(c.(sys := c.sys.(queue := c.sys.queue - {a.request})), a.request, Taken)
    ensures end in reach && end.sys == Act(c.sys, a) && end.turns == c.turns
  {
    var next := c.sys.wl.(status := Running);
    var read := At(taken, a.request, Writing(WInit, c.version, next));
    Writes(reach, read, a.request, WInit, next);
    end := Written(read, a.request, next);
    assert end.turns == c.turns;
  }

  lemma ActiveOpen(c: Cluster, taken: Cluster, r: Request)
    requires Effective(c.sys, r) && WorkloadOk(c.sys.wl) && c.sys.wl.status != WInit
    requires taken == At(c.(sys := c.sys.(queue := c.sys.queue - {r})), r, Taken)
    ensures DoOpen(taken, r) ==
              Cluster(c.sys.(queue := c.sys.queue - {r}), c.version, c.turns[r := Opened(c.sys.wl, c.version)])
  {
    assert taken.turns[r := Opened(c.sys.wl, c.version)] == c.turns[r := Opened(c.sys.wl, c.version)];
  }

  lemma FirstHalf(reach: iset<Cluster>, c: Cluster, begun: Cluster, r: Request) returns (mid: Cluster)
    requires Closed(reach) && begun in reach && Versions(c.sys.core)
    requires WorkloadOk(c.sys.wl) && r !in c.turns
    requires begun == Cluster(c.sys.(queue := c.sys.queue - {r}), c.version, c.turns[r := Opened(c.sys.wl, c.version)])
    ensures mid in reach && mid.sys == Decided(c.sys.(queue := c.sys.queue - {r}))
    ensures r in mid.turns && mid.turns[r] == Syncing(mid.sys.wl, mid.version) && mid.turns - {r} == c.turns
  {
    mid := CreateEnds(reach, begun, r);
    TurnsBack(c.turns, r, begun.turns[r], mid.turns[r]);
  }

  lemma TurnsBack(turns: map<Request, TurnStage>, r: Request, a: TurnStage, b: TurnStage)
    requires r !in turns
    ensures turns[r := a][r := b] - {r} == turns
  {
  }

  lemma SyncsToEnd(reach: iset<Cluster>, sys: System, mid: Cluster, a: Action) returns (end: Cluster)
    requires Closed(reach) && mid in reach && a.Served? && Can(sys, a) && WorkloadOk(sys.wl)
    requires Effective(sys, a.request) && sys.wl.status != WInit
    requires mid.sys == Decided(sys.(queue := sys.queue - {a.request}))
    requires a.request in mid.turns && mid.turns[a.request] == Syncing(mid.sys.wl, mid.version)
    ensures end in reach && end.sys == Act(sys, a) && end.turns == mid.turns - {a.request}
  {
    ServeParts(sys, a);
    SameSync(sys, mid.sys, a);
    end := SyncEnds(reach, mid, a.request, a.listing, a.replicas);
  }

  /** Serving a request at once is a turn that nobody interrupts. */
  lemma ServeInReach(reach: iset<Cluster>, c: Cluster, a: Action) returns (end: Cluster)
    requires Closed(reach) && c in reach
    requires Versions(c.sys.core) && WorkloadOk(c.sys.wl) && a.Served? && Can(c.sys, a) && a.request !in c.turns
    ensures end in reach && end.sys == Act(c.sys, a) && end.turns == c.turns
  {
    var r := a.request;
    var taken := At(c.(sys := c.sys.(queue := c.sys.queue - {r})), r, Taken);
    Takes(reach, c, r);
    Opens(reach, taken, r);
    if !Effective(c.sys, r) {
      end := Ended(taken, r);
      assert end.turns == c.turns;
    } else if c.sys.wl.status == WInit {
      end := InitTurnEnds(reach, c, taken, a);
    } else {
      ActiveOpen(c, taken, r);
      var mid := FirstHalf(reach, c, DoOpen(taken, r), r);
      end := SyncsToEnd(reach, c.sys, mid, a);
    }
  }

  // ---------------------------------------------------------------- main result

  ghost function Reach(c: Cluster): iset<Cluster> {
    iset end | Reaches(c, end)
  }

  ghost predicate Reaches(c: Cluster, end: Cluster) {
    exists moves :: Moves(c, moves, end)
  }

  lemma ReachNext(c: Cluster, mid: Cluster, m: Move)
    requires mid in Reach(c) && CanMove(mid, m)
    ensures Next(mid, m) in Reach(c)
  {
    var moves := MovesTo(c, mid);
    MovesThen(c, moves, mid, m);
    ReachedBy(c, moves + [m], Next(mid, m));
  }

  lemma ReachedBy(c: Cluster, moves: seq<Move>, end: Cluster)
    requires Moves(c, moves, end)
    ensures end in Reach(c)
  {
  }

  /** What moves lead to from `c` is closed under moves. */
  lemma ReachClosed(c: Cluster)
    ensures Closed(Reach(c)) && c in Reach(c)
  {
    ReachedBy(c, [], c);
    forall mid, m | mid in Reach(c) && CanMove(mid, m) ensures Next(mid, m) in Reach(c) {
      ReachNext(c, mid, m);
    }
  }

  lemma OtherInReach(reach: iset<Cluster>, c: Cluster, a: Action) returns (end: Cluster)
    requires Closed(reach) && c in reach && Can(c.sys, a) && !a.Served? && c.turns == map[]
    ensures end in reach && end.sys == Act(c.sys, a) && end.turns == map[]
  {
    end := Next(c, Other(a));
  }

  lemma ActInReach(reach: iset<Cluster>, c: Cluster, a: Action) returns (end: Cluster)
    requires Closed(reach) && c in reach
    requires Versions(c.sys.core) && WorkloadOk(c.sys.wl) && Can(c.sys, a) && c.turns == map[]
    ensures end in reach && end.sys == Act(c.sys, a) && end.turns == map[]
  {
    if a.Served? {
      end := ServeInReach(reach, c, a);
    } else {
      end := OtherInReach(reach, c, a);
    }
  }

  lemma {:induction false} RunInReach(reach: iset<Cluster>, c: Cluster, actions: seq<Action>, end: System)
    returns (last: Cluster)
    requires Closed(reach) && c in reach && c.turns == map[]
    requires SysInv(c.sys) && SystemRun(c.sys, actions, end)
    ensures last in reach && last.sys == end && last.turns == map[]
    decreases |actions|
  {
    last := c;
    if actions != [] {
      last := ActInReach(reach, c, actions[0]);
      ActKeepsSysInv(c.sys, actions[0]);
      last := RunInReach(reach, last, actions[1..], end);
    }
  }

  /** Every run of the queue system with atomic turns is a run of the one with turns at single API calls, which
      begins and ends without a turn in service. */
  lemma AtomicRunIsMoves(c: Cluster, actions: seq<Action>, end: System) returns (moves: seq<Move>, last: Cluster)
    requires SysInv(c.sys) && c.turns == map[] && SystemRun(c.sys, actions, end)
    ensures Moves(c, moves, last) && last.sys == end && last.turns == map[]
  {
    ReachClosed(c);
    last := RunInReach(Reach(c), c, actions, end);
    moves := MovesTo(c, last);
  }

  lemma MovesTo(c: Cluster, end: Cluster) returns (moves: seq<Move>)
    requires end in Reach(c)
    ensures Moves(c, moves, end)
  {
    moves :| Moves(c, moves, end);
  }
}
