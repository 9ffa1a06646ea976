/** The part of the ChangeWorkload reconciler that starts batches, as it is written. */
module WorkloadHandlers {
  import opened Options
  import opened Protocol
  import opened Safety
  import opened Atomic
  import opened Arithmetic
  import opened Verdicts
  import opened ApiServer
  import opened ChangePodHandlers
  import opened Scheduling
  import Names

  /** Whether some ChangePod is in ExecuteInit, and how many there are. */
  method IsExistInitStatusChangePod(api: Server, listing: seq<nat>) returns (exist: bool, changePodNum: nat)
    requires api.Valid() && Lists(listing, api.state.cps)
    ensures exist == !NoInit(api.state.cps) && changePodNum == |api.state.cps|
  {
    var changePods := api.ListChangePods(listing);
    exist := false;
    for i := 0 to |changePods|
      invariant exist <==> exists k :: 0 <= k < i && changePods[k].Init()
    {
      if changePods[i].status.phase == ExecuteInit {
        exist := true;
      }
    }
    changePodNum := |changePods|;
    ListingCard(listing, api.state.cps);
    if exist {
      var k :| 0 <= k < |changePods| && changePods[k].Init();
      assert listing[k] in api.state.cps && api.state.cps[listing[k]].Init();
    } else {
      forall n | n in api.state.cps ensures !api.state.cps[n].Init() {
        assert n in listing;
        var k :| 0 <= k < |listing| && listing[k] == n;
        assert changePods[k] == api.state.cps[n];
      }
    }
  }

  lemma {:induction false} ListingCard(listing: seq<nat>, cps: ChangePods)
    requires Lists(listing, cps)
    ensures |listing| == |cps|
  {
    if listing == [] {
      assert cps.Keys == {};
    } else {
      var init, last := listing[..|listing| - 1], listing[|listing| - 1];
      assert listing == init + [last];
      var rest := cps - {last};
      assert cps.Keys == rest.Keys + {last};
      ListingCard(init, rest);
    }
  }

  method IsNecessary(api: Server, order: seq<string>, reachedThreshold: bool) returns (necessary: bool)
    requires api.Valid() && Enumerates(order, api.state.pods.Keys)
    ensures necessary == ReachesThreshold(api.cfg, api.state.pods, reachedThreshold)
  {
    var items := api.ListPods(order);
    var podArray := FilterPods(items, order, api.state.pods);
    FilterCount(order, api.state.pods);
    necessary := if reachedThreshold then |podArray| >= api.cfg.threshold else |podArray| > 0;
  }

  /** Creates the next ChangePod if none is in ExecuteInit and the guard holds. */
  method EnsureInitChangePodCreatedIfNecessary(
    api: Server, listing: seq<nat>, order: seq<string>, reachedThreshold: bool)
    returns (created: bool, failed: bool)
    requires api.Valid() && Lists(listing, api.state.cps) && Enumerates(order, api.state.pods.Keys)
    modifies api
    ensures api.Valid()
    ensures api.state == if old(api.budget) > 0 then CreateOutcome(old(api.state), reachedThreshold) else old(api.state)
    ensures created <==> api.state != old(api.state)
    ensures failed <==> !created && NoInit(old(api.state).cps)
                        && ReachesThreshold(api.cfg, old(api.state).pods, reachedThreshold)
  {
    created, failed := false, false;
    var exist, changePodNum := IsExistInitStatusChangePod(api, listing);
    if exist {
      return;
    }
    var necessary := IsNecessary(api, order, reachedThreshold);
    if necessary {
      created := api.Create(changePodNum + 1, reachedThreshold);
      failed := !created;
      assert created ==> |api.state.history| == |old(api.state).history| + 1;
    }
  }

  /** In a reachable state a fresh count never collides: if the guard holds and the call gets through, the
      ChangePod with the next number is created, under a name no other ChangePod has. */
  lemma FreshCountNeverCollides(s: State, reachedThreshold: bool, workload: string)
    requires Contiguous(s.cps) && NoInit(s.cps) && ReachesThreshold(s.cfg, s.pods, reachedThreshold)
    ensures CreateOutcome(s, reachedThreshold).cps == s.cps[|s.cps| + 1 := ChangePod(s.nextRv, [], NEW_STATUS)]
    ensures forall n :: n in s.cps && n > 0 ==>
              Names.ChangePodName(workload, n - 1) != Names.ChangePodName(workload, |s.cps|)
  {
    assert |s.cps| + 1 !in s.cps;
    forall n | n in s.cps && n > 0
      ensures Names.ChangePodName(workload, n - 1) != Names.ChangePodName(workload, |s.cps|)
    {
      Names.ChangePodNameInjective(workload, n - 1, workload, |s.cps|);
    }
  }

  /** Counts the pods with the finished label. */
  method CountFinishedPods(api: Server, order: seq<string>) returns (count: nat)
    requires api.Valid() && Enumerates(order, api.state.pods.Keys)
    ensures count == |FinishedSet(api.state.pods)|
  {
    var items := api.ListPods(order);
    count := 0;
    ghost var counted: set<string> := {};
    for i := 0 to |items|
      invariant count == |counted|
      invariant forall p :: p in counted <==> p in order[..i] && api.state.pods[p].finished
    {
      assert order[i] !in order[..i] && order[..i + 1] == order[..i] + [order[i]];
      if items[i].pod.finished {
        count, counted := count + 1, counted + {order[i]};
      }
    }
    assert order[..|items|] == order && counted == FinishedSet(api.state.pods);
  }

  /** Recomputes the pass and fail lists from the present ChangePods and pods. */
  method SyncChangeWorkload(api: Server, workload: ChangeWorkload, listing: seq<nat>, order: seq<string>, replicas: int)
    returns (wrote: bool)
    requires api.Valid() && Lists(listing, api.state.cps) && Enumerates(order, api.state.pods.Keys)
    modifies workload
    ensures var next := Sync(Listing(api.state.cps, listing), api.state.pods.Keys, old(workload.View()), replicas,
                             |FinishedSet(api.state.pods)|);
            wrote == next.Some? && workload.View() == if next.Some? then next.value else old(workload.View())
  {
    var changePods := api.ListChangePods(listing);
    assert changePods == Listing(api.state.cps, listing);
    var finished := CountFinishedPods(api, order);
    wrote := workload.SyncStatus(changePods, api.pods.Keys, replicas, finished);
  }

  /** The handlers of Running, Success, Suspend and TimeOutPreThreshold. */
  method ActiveTurn(api: Server, workload: ChangeWorkload, before: seq<nat>, after: seq<nat>,
        order: seq<string>, replicas: int)
    returns (wrote: bool)
    requires api.Valid() && Contiguous(api.state.cps) && Active(workload.status)
    requires Lists(before, api.state.cps) && Enumerates(order, api.state.pods.Keys)
    requires Lists(after, if api.budget > 0 then CreateOutcome(api.state, workload.status == Running).cps
                          else api.state.cps)
    modifies api, workload
    ensures api.Valid()
    ensures var s, wl := old(api.state), old(workload.View());
            var t := CreateOutcome(s, wl.status == Running);
            if old(api.budget) == 0 && t != s then !wrote && api.state == s && workload.View() == wl
            else
              var next := if wl.status == TimeOutPreThreshold && t != s then Some(wl.(status := Running))
                          else Sync(Listing(t.cps, after), t.pods.Keys, wl, replicas, |FinishedSet(t.pods)|);
              api.state == t && wrote == next.Some? && workload.View() == if next.Some? then next.value else wl
  {
    CreateOutcomeShape(api.state, workload.status == Running);
    var created, failed := EnsureInitChangePodCreatedIfNecessary(api, before, order, workload.status == Running);
    if failed {
      return false;
    }
    if workload.status == TimeOutPreThreshold && created {
      workload.status := Running;
      return true;
    }
    wrote := SyncChangeWorkload(api, workload, after, order, replicas);
  }

  /** One turn of the reconciler for its workload.  `before` and `after` are the listings of the ChangePods
      by the test for ExecuteInit and by the synchronisation.  A Create that fails ends the turn. */
  method ReconcileWorkload(api: Server, workload: ChangeWorkload, before: seq<nat>, after: seq<nat>,
        order: seq<string>, replicas: int)
    returns (wrote: bool)
    requires api.Valid() && Contiguous(api.state.cps)
    requires Lists(before, api.state.cps) && Enumerates(order, api.state.pods.Keys)
    requires Lists(after, if api.budget > 0 then Created(System(api.state, workload.View(), {})).cps else api.state.cps)
    modifies api, workload
    ensures api.Valid()
    ensures var sys := System(old(api.state), old(workload.View()), {});
            if old(api.budget) == 0 && Created(sys) != sys.core then
              !wrote && api.state == sys.core && workload.View() == sys.wl
            else
              var next := NextWorkload(sys, after, replicas);
              api.state == Created(sys) && wrote == next.Some?
              && workload.View() == if next.Some? then next.value else sys.wl
  {
    ghost var sys := System(api.state, workload.View(), {});
    wrote := false;
    if workload.status == WInit {
      workload.status := Running;
      return true;
    }
    if workload.status == Failed {
      return;
    }
    wrote := ActiveTurn(api, workload, before, after, order, replicas);
  }
}
