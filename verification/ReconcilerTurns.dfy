/** The ChangePod reconciler's queue at single API calls, on a cache that lags behind the store: several
    workers, one for each key, hold what they read from the cache and a write that may fail, be lost or land
    at any time. */
module ReconcilerTurns {
  import opened PodSummaries
  import opened Protocol
  import opened ReconcilerQueue

  /** Where the worker of a key is: it has not read its ChangePod, it waits for its first write, or it is on
      its way out. */
  datatype Hand = Unread | Waiting(op: Op) | Leaving

  /** The cache shows the store as it was at `history[seen]`. */
  datatype Site = Site(core: State, seen: nat, work: set<nat>, hands: map<nat, Hand>)

  datatype Event =
    | Begun(num: nat)
    | Looked(num: nat, order: seq<string>, reply: Reply)
    | Landed(num: nat)
    | Failed(num: nat)
    | Left(num: nat)
    | Delivered
    | Elsewhere(step: Step)
    | Restarted

  function Cache(site: Site): ChangePods
    requires site.seen < |site.core.history|
  {
    site.core.history[site.seen]
  }

  ghost predicate CanHappen(site: Site, e: Event) {
    match e
    case Begun(n) => n in site.work && n !in site.hands
    case Looked(n, order, _) =>
      && site.seen < |site.core.history| && n in site.hands && site.hands[n].Unread?
      && Enumerates(order, site.core.pods.Keys)
    case Landed(n) => n in site.hands && site.hands[n].Waiting? && site.hands[n].op in site.core.pending
    case Failed(n) => n in site.hands
    case Left(n) => n in site.hands && site.hands[n].Leaving?
    case Delivered => site.seen + 1 < |site.core.history|
    case Elsewhere(step) => Enabled(site.core, step)
    case Restarted => |site.core.history| > 0
  }

  /** The worker reads the cached ChangePod and plans its write, if there is one to make. */
  function Look(site: Site, n: nat, order: seq<string>, reply: Reply): Site
    requires CanHappen(site, Looked(n, order, reply))
  {
    if n !in Cache(site) then site.(hands := site.hands[n := Leaving])
    else
      var read := Cache(site)[n];
      if read.Init() then Wait(site, n, InitPlan(site.core.cfg, site.core.pods, n, read, order))
      else if Advance(read.status, reply, site.core.now).Some? then
        Wait(site, n, StatusOp(n, read, Advance(read.status, reply, site.core.now).value))
      else site.(hands := site.hands[n := Leaving])
  }

  function Wait(site: Site, n: nat, op: Op): Site {
    site.(core := Issue(site.core, op), hands := site.hands[n := Waiting(op)])
  }

  /** The turn ends with an error: its key is queued again. */
  function Fail(site: Site, n: nat): Site {
    site.(work := site.work + {n}, hands := site.hands - {n})
  }

  /** The first write executes.  A write that finds another version is an error, and so is a delete, whether
      it succeeds or not. */
  function Land(site: Site, n: nat): Site
    requires CanHappen(site, Landed(n))
  {
    var op := site.hands[n].op;
    var landed := site.(core := Execute(Consume(site.core, op), op));
    if op.DeleteOp? || (!op.LabelOp? && landed.core.cps == site.core.cps) then Fail(landed, n)
    else landed.(hands := site.hands[n := Leaving])
  }

  function After(site: Site, e: Event): Site
    requires CanHappen(site, e)
  {
    match e
    case Begun(n) => site.(work := site.work - {n}, hands := site.hands[n := Unread])
    case Looked(n, order, reply) => Look(site, n, order, reply)
    case Landed(n) => Land(site, n)
    case Failed(n) => Fail(site, n)
    case Left(n) => site.(hands := site.hands - {n})
    case Delivered =>
      var next := site.core.history[site.seen + 1];
      site.(seen := site.seen + 1, work := site.work + WatchEvents(Cache(site), next))
    case Elsewhere(step) => site.(core := Apply(site.core, step))
    case Restarted =>
      Site(site.core, |site.core.history| - 1, WatchEvents(map[], site.core.cps), map[])
  }

  ghost predicate EventRun(site: Site, events: seq<Event>, end: Site)
    decreases |events|
  {
    if events == [] then site == end
    else CanHappen(site, events[0]) && EventRun(After(site, events[0]), events[1..], end)
  }

  // ---------------------------------------------------------------- the invariant

  /** The store's past ends in the present, and the next resourceVersion was never used. */
  ghost predicate Dated(s: State) {
    && |s.history| > 0 && s.history[|s.history| - 1] == s.cps
    && forall k, n :: 0 <= k < |s.history| && n in s.history[k] ==> s.history[k][n].rv < s.nextRv
  }

  /** A worker stands for its key until it has read, and with a write planned for the present version. */
  ghost predicate InHand(site: Site, n: nat) {
    n in site.hands && n in site.core.cps
    && match site.hands[n]
       case Unread => true
       case Waiting(op) => Plans(op, n, site.core.cps[n])
       case Leaving => false
  }

  predicate Plans(op: Op, n: nat, cp: ChangePod) {
    match op
    case SpecOp(m, read, _) => m == n && read == cp
    case StatusOp(m, read, _) => m == n && read == cp
    case DeleteOp(m, _) => m == n
    case _ => false
  }

  /** The cache shows ChangePod `n` as it is stored. */
  ghost predicate InView(site: Site, n: nat) {
    && site.seen < |site.core.history| && n in Cache(site) && n in site.core.cps
    && Cache(site)[n] == site.core.cps[n]
  }

  ghost predicate Tended(site: Site) {
    && Dated(site.core) && site.seen < |site.core.history|
    && forall n :: InView(site, n) && NeedsWork(site.core.cps[n]) ==> n in site.work || InHand(site, n)
  }

  /** What changed is new. */
  ghost predicate Newer(s: State, t: State) {
    && s.history <= t.history
    && forall n :: n in t.cps && (n !in s.cps || t.cps[n] != s.cps[n]) ==> t.cps[n].rv >= s.nextRv
  }

  lemma PutDated(s: State, n: nat, cp: ChangePod)
    requires Dated(s)
    ensures Dated(Put(s, n, cp)) && Newer(s, Put(s, n, cp))
  {
  }

  lemma SameDated(s: State, t: State)
    requires Dated(s) && t.cps == s.cps && t.history == s.history && t.nextRv == s.nextRv
    ensures Dated(t) && Newer(s, t)
  {
  }

  lemma DeleteDated(s: State, n: nat)
    requires Dated(s)
    ensures Dated(ExecDelete(s, n)) && Newer(s, ExecDelete(s, n))
  {
  }

  lemma CreateDated(s: State, count: nat, byThreshold: bool)
    requires Dated(s)
    ensures Dated(ExecCreate(s, count, byThreshold)) && Newer(s, ExecCreate(s, count, byThreshold))
  {
    if count + 1 !in s.cps {
      PutDated(s, count + 1, ChangePod(0, [], NEW_STATUS));
    }
  }

  lemma SpecDated(s: State, n: nat, read: ChangePod, batch: seq<PodSummary>)
    requires Dated(s)
    ensures Dated(ExecSpec(s, n, read, batch)) && Newer(s, ExecSpec(s, n, read, batch))
  {
    if Matches(s, n, read) {
      PutDated(s, n, s.cps[n].(podInfos := batch));
    }
  }

  lemma ExecDated(s: State, op: Op)
    requires Dated(s)
    ensures Dated(Execute(s, op)) && Newer(s, Execute(s, op))
  {
    match op
    case CreateOp(count, byThreshold) => CreateDated(s, count, byThreshold);
    case SpecOp(n, read, batch) => SpecDated(s, n, read, batch);
    case LabelOp(_, _, _, _) => SameDated(s, Execute(s, op));
    case StatusOp(n, read, status) => if Matches(s, n, read) { PutDated(s, n, s.cps[n].(status := status)); }
    case DeleteOp(n, _) => DeleteDated(s, n);
    case PatchOp(n, _, phase, results) =>
      if n in s.cps {
        PutDated(s, n, s.cps[n].(status := Patched(s.cps[n].status, phase, results)));
      }
  }

  lemma StepDated(s: State, step: Step)
    requires Dated(s) && Enabled(s, step)
    ensures Dated(Apply(s, step)) && Newer(s, Apply(s, step))
  {
    if step.Exec? {
      ExecDated(Consume(s, step.op), step.op);
    } else {
      SameDated(s, Apply(s, step));
    }
  }

  /** The store moves on: what changed is out of view, and the rest is tended as before. */
  lemma StoreTended(site: Site, core: State)
    requires Tended(site) && Dated(core) && Newer(site.core, core)
    ensures Tended(site.(core := core))
  {
    var end := site.(core := core);
    assert Cache(end) == Cache(site);
    forall n | InView(end, n) && NeedsWork(core.cps[n]) ensures n in end.work || InHand(end, n) {
      assert Cache(site)[n].rv < site.core.nextRv;
      assert InView(site, n);
    }
  }

  lemma LookFrame(site: Site, n: nat, order: seq<string>, reply: Reply)
    requires CanHappen(site, Looked(n, order, reply))
    ensures var end := Look(site, n, order, reply);
            && end.core == site.core.(pending := end.core.pending) && end.seen == site.seen && end.work == site.work
            && (forall m :: m != n ==> (m in end.hands <==> m in site.hands))
            && (forall m :: m != n && m in end.hands ==> end.hands[m] == site.hands[m])
            && (n in Cache(site) && NeedsWork(Cache(site)[n]) ==>
                  n in end.hands && end.hands[n].Waiting? && Plans(end.hands[n].op, n, Cache(site)[n]))
  {
  }

  lemma LookTended(site: Site, n: nat, order: seq<string>, reply: Reply)
    requires Tended(site) && CanHappen(site, Looked(n, order, reply))
    ensures Tended(Look(site, n, order, reply))
  {
    var end := Look(site, n, order, reply);
    LookFrame(site, n, order, reply);
    forall m | InView(end, m) && NeedsWork(end.core.cps[m]) ensures m in end.work || InHand(end, m) {
      assert InView(site, m);
    }
  }

  lemma LandTended(site: Site, n: nat)
    requires Tended(site) && CanHappen(site, Landed(n))
    ensures Tended(Land(site, n))
  {
    var op := site.hands[n].op;
    var end := Land(site, n);
    var core := Execute(Consume(site.core, op), op);
    ExecDated(Consume(site.core, op), op);
    StoreTended(site, core);
    forall m | InView(end, m) && NeedsWork(end.core.cps[m]) ensures m in end.work || InHand(end, m) {
      LandedTended(site, core, n, m);
    }
  }

  lemma LandedTended(site: Site, core: State, n: nat, m: nat)
    requires Tended(site) && CanHappen(site, Landed(n)) && Land(site, n).core == core
    requires Tended(site.(core := core)) && InView(Land(site, n), m) && NeedsWork(core.cps[m])
    ensures m in Land(site, n).work || InHand(Land(site, n), m)
  {
    assert InView(site.(core := core), m);
    if m == n && n !in Land(site, n).work && InHand(site, n) {
      LandedIsNew(site, n);
    }
  }

  lemma ExecPlanned(s: State, op: Op, n: nat)
    requires n in s.cps && Plans(op, n, s.cps[n]) && !op.DeleteOp? && Execute(s, op).cps != s.cps
    ensures n in Execute(s, op).cps && Execute(s, op).cps[n].rv == s.nextRv
  {
  }

  /** A write that went through has changed the version it was planned for. */
  lemma LandedIsNew(site: Site, n: nat)
    requires Tended(site) && CanHappen(site, Landed(n)) && !site.hands[n].op.DeleteOp? && InHand(site, n)
    requires Land(site, n).core.cps != site.core.cps
    ensures !InView(Land(site, n), n)
  {
    var s := Consume(site.core, site.hands[n].op);
    ExecPlanned(s, site.hands[n].op, n);
    ExecDated(s, site.hands[n].op);
    assert Cache(Land(site, n)) == Cache(site);
  }

  lemma DeliveredTended(site: Site)
    requires Tended(site) && CanHappen(site, Delivered)
    ensures Tended(After(site, Delivered))
  {
    var end := After(site, Delivered);
    forall n | InView(end, n) && NeedsWork(end.core.cps[n]) ensures n in end.work || InHand(end, n) {
      if !InView(site, n) {
        assert n in WatchEvents(Cache(site), Cache(end));
      }
    }
  }

  lemma EventTended(site: Site, e: Event)
    requires Tended(site) && CanHappen(site, e)
    ensures Tended(After(site, e))
  {
    match e
    case Looked(n, order, reply) => LookTended(site, n, order, reply);
    case Landed(n) => LandTended(site, n);
    case Delivered => DeliveredTended(site);
    case Elsewhere(step) =>
      StepDated(site.core, step);
      StoreTended(site, Apply(site.core, step));
    case _ => HandTended(site, e);
  }

  lemma HandTended(site: Site, e: Event)
    requires Tended(site) && CanHappen(site, e) && (e.Begun? || e.Failed? || e.Left? || e.Restarted?)
    ensures Tended(After(site, e))
  {
    var end := After(site, e);
    forall n | InView(end, n) && NeedsWork(end.core.cps[n]) ensures n in end.work || InHand(end, n) {
      if !e.Restarted? {
        assert InView(site, n);
      }
    }
  }

  // ---------------------------------------------------------------- no forgotten ChangePod

  lemma {:induction false} EventsTended(site: Site, events: seq<Event>, end: Site)
    requires Tended(site) && EventRun(site, events, end)
    ensures Tended(end)
    decreases |events|
  {
    if events != [] {
      EventTended(site, events[0]);
      EventsTended(After(site, events[0]), events[1..], end);
    }
  }

  /** Along every run, with workers that read a lagging cache and writes that conflict, fail or are lost: a
      ChangePod that needs the reconciler has its key in the queue, or a worker that has not read it yet, or
      one with a write planned for its present version, or the cache has still to show it. */
  lemma NoChangePodForgottenConcurrently(site: Site, events: seq<Event>, end: Site, n: nat)
    requires Initial(site.core) && site.seen == 0 && EventRun(site, events, end)
    requires n in end.core.cps && NeedsWork(end.core.cps[n])
    ensures n in end.work || InHand(end, n) || !InView(end, n)
  {
    assert Tended(site);
    EventsTended(site, events, end);
  }

  /** At rest, with the cache caught up, no key queued and no worker busy, no ChangePod needs the reconciler. */
  lemma NothingLeftAtRest(site: Site, events: seq<Event>, end: Site)
    requires Initial(site.core) && site.seen == 0 && EventRun(site, events, end)
    requires end.work == {} && end.hands == map[] && end.seen == |end.core.history| - 1
    ensures forall n :: n in end.core.cps ==> !NeedsWork(end.core.cps[n])
  {
    EventsTended(site, events, end);
    forall n | n in end.core.cps ensures !NeedsWork(end.core.cps[n]) {
      assert InView(end, n);
    }
  }
}
