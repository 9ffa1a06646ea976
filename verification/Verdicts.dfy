/** Aggregating the results of all finished ChangePods into the pass and fail lists of the
    ChangeWorkload, and deciding Success or Suspend. */
module Verdicts {
  import opened Options
  import opened PodSummaries
  import opened Protocol
  import opened Safety

  datatype WorkloadStatus = WInit | Running | Success | Failed | Suspend | TimeOutPreThreshold

  /** Stored status of a ChangeWorkload: DefensePreparingPods, DefenseCheckPassPods and
      DefenseCheckFailPods next to the status proper. */
  datatype Workload = Workload(
    status: WorkloadStatus, preparing: seq<PodSummary>, pass: seq<PodSummary>, fail: seq<PodSummary>)

  const VERDICT_PASS := "pass"

  // ---------------------------------------------------------------- specification

  predicate Done(cp: ChangePod) { cp.status.phase == ExecuteDone }

  function DoneOnly(listing: seq<ChangePod>): (r: seq<ChangePod>)
    ensures forall cp :: cp in r <==> cp in listing && Done(cp)
  {
    if listing == [] then []
    else
      var rest := DoneOnly(listing[..|listing| - 1]);
      var last := listing[|listing| - 1];
      assert listing == listing[..|listing| - 1] + [last];
      if Done(last) then rest + [last] else rest
  }

  function WithVerdict(results: seq<PodSummary>, pass: bool): (r: seq<PodSummary>)
    ensures forall x :: x in r <==> x in results && (x.verdict == VERDICT_PASS) == pass
  {
    if results == [] then []
    else
      var rest := WithVerdict(results[..|results| - 1], pass);
      var last := results[|results| - 1];
      assert results == results[..|results| - 1] + [last];
      if (last.verdict == VERDICT_PASS) == pass then rest + [last] else rest
  }

  /** The summaries one finished ChangePod adds to the pass list (or to the fail list). */
  function Contribution(cp: ChangePod, pass: bool): seq<PodSummary> {
    match cp.status.message
    case PreTimeout | PreFailed | PostFailed | PostTimeout => if pass then cp.podInfos else []
    case PostFinish => WithVerdict(cp.status.podResults, pass)
    case _ => []
  }

  function Gather(done: seq<ChangePod>, pass: bool): (r: seq<PodSummary>)
    ensures forall x :: x in r <==> exists cp :: cp in done && x in Contribution(cp, pass)
  {
    if done == [] then []
    else
      var init, last := done[..|done| - 1], done[|done| - 1];
      assert done == init + [last];
      Gather(init, pass) + Contribution(last, pass)
  }

  /** The new pass list or fail list. */
  function Verdict(listing: seq<ChangePod>, live: set<string>, pass: bool): seq<PodSummary> {
    RemoveDuplicate(Gather(DoneOnly(listing), pass), live)
  }

  /** Status after the lists were replaced. */
  function Judge(wl: Workload, replicas: int, finished: nat): Workload {
    var judged := if finished >= replicas && |wl.pass| == replicas then wl.(status := Success) else wl;
    if |judged.fail| > 0 then judged.(status := Suspend) else judged
  }

  /** The status written by one synchronisation, or None when it returns without a write. */
  function Sync(listing: seq<ChangePod>, live: set<string>, wl: Workload, replicas: int, finished: nat)
    : Option<Workload>
  {
    var pass, fail := Verdict(listing, live, true), Verdict(listing, live, false);
    if DoneOnly(listing) == [] then None
    else if SliceEqual(pass, wl.pass) && SliceEqual(fail, wl.fail) then None
    else Some(Judge(wl.(pass := pass, fail := fail), replicas, finished))
  }

  // ---------------------------------------------------------------- the reconciler's own loops

  method GetPassAndFailedPods(changePod: ChangePod) returns (passPods: seq<PodSummary>, failedPods: seq<PodSummary>)
    ensures passPods == WithVerdict(changePod.status.podResults, true)
    ensures failedPods == WithVerdict(changePod.status.podResults, false)
  {
    passPods, failedPods := [], [];
    var results := changePod.status.podResults;
    for i := 0 to |results|
      invariant passPods == WithVerdict(results[..i], true)
      invariant failedPods == WithVerdict(results[..i], false)
    {
      assert results[..i + 1][..i] == results[..i];
      if results[i].verdict == VERDICT_PASS {
        passPods := passPods + [results[i]];
      } else {
        failedPods := failedPods + [results[i]];
      }
    }
    assert results[..|results|] == results;
  }

  method GetFinishedChangePods(listing: seq<ChangePod>) returns (done: seq<ChangePod>)
    ensures done == DoneOnly(listing)
  {
    done := [];
    for i := 0 to |listing|
      invariant done == DoneOnly(listing[..i])
    {
      assert listing[..i + 1][..i] == listing[..i];
      if listing[i].status.phase == ExecuteDone {
        done := done + [listing[i]];
      }
    }
    assert listing[..|listing|] == listing;
  }

  method CollectResults(changePods: seq<ChangePod>) returns (successPods: seq<PodSummary>, failurePods: seq<PodSummary>)
    ensures successPods == Gather(changePods, true) && failurePods == Gather(changePods, false)
  {
    successPods, failurePods := [], [];
    for i := 0 to |changePods|
      invariant successPods == Gather(changePods[..i], true)
      invariant failurePods == Gather(changePods[..i], false)
    {
      assert changePods[..i + 1][..i] == changePods[..i];
      var changePod := changePods[i];
      match changePod.status.message {
        case PreTimeout | PreFailed | PostFailed | PostTimeout =>
          successPods := successPods + changePod.podInfos;
        case PostFinish =>
          var passed, failed := GetPassAndFailedPods(changePod);
          successPods := successPods + passed;
          failurePods := failurePods + failed;
        case _ =>
      }
    }
    assert changePods[..|changePods|] == changePods;
  }

  /** The ChangeWorkload object a reconciler works on. */
  class ChangeWorkload {
    var status: WorkloadStatus
    var defensePreparingPods: seq<PodSummary>
    var defenseCheckPassPods: seq<PodSummary>
    var defenseCheckFailPods: seq<PodSummary>

    function View(): Workload
      reads this
    {
      Workload(status, defensePreparingPods, defenseCheckPassPods, defenseCheckFailPods)
    }

    constructor (wl: Workload)
      ensures View() == wl
    {
      status := wl.status;
      defensePreparingPods := wl.preparing;
      defenseCheckPassPods := wl.pass;
      defenseCheckFailPods := wl.fail;
    }

    /** `replicas` is read from the Deployment, `finishedPods` counts the pods with the finished label. */
    method ValidateSuccessOrSuspend(replicas: int, finishedPods: nat) returns (isPodFail: bool)
      modifies this
      ensures View() == Judge(old(View()), replicas, finishedPods)
      ensures isPodFail == (View().fail != [])
    {
      var isAllPodFinished := finishedPods >= replicas;
      var isAllPodPass := |defenseCheckPassPods| == replicas;
      if isAllPodFinished && isAllPodPass {
        status := Success;
      }
      isPodFail := |defenseCheckFailPods| > 0;
      if isPodFail {
        status := Suspend;
      }
    }

    /** `wrote` tells whether the status is sent to the API server. */
    method SyncStatus(listing: seq<ChangePod>, podMap: set<string>, replicas: int, finishedPods: nat)
      returns (wrote: bool)
      modifies this
      ensures var next := Sync(listing, podMap, old(View()), replicas, finishedPods);
              wrote == next.Some? && View() == if next.Some? then next.value else old(View())
    {
      wrote := false;
      var changePods := GetFinishedChangePods(listing);
      if |changePods| > 0 {
        var successPods, failurePods := CollectResults(changePods);
        var passPods := RemoveDuplicatePod(successPods, podMap);
        var failPods := RemoveDuplicatePod(failurePods, podMap);
        var samePass := IsPodSummarySliceEqual(passPods, defenseCheckPassPods);
        var sameFail := IsPodSummarySliceEqual(failPods, defenseCheckFailPods);
        if samePass && sameFail {
          return;
        }
        defenseCheckPassPods := passPods;
        defenseCheckFailPods := failPods;
        var _ := ValidateSuccessOrSuspend(replicas, finishedPods);
        wrote := true;
      }
    }
  }

  // ---------------------------------------------------------------- listings of a reachable store

  /** A list call returns every ChangePod once, in no particular order. */
  ghost predicate Lists(order: seq<nat>, cps: ChangePods) {
    && (forall i, j :: 0 <= i < j < |order| ==> order[i] != order[j])
    && (forall n :: n in order <==> n in cps)
  }

  function Listing(cps: ChangePods, order: seq<nat>): (r: seq<ChangePod>)
    requires forall n :: n in order ==> n in cps
    ensures |r| == |order| && forall i :: 0 <= i < |r| ==> r[i] == cps[order[i]]
    ensures forall n :: n in order ==> cps[n] in r
    ensures forall cp :: cp in r ==> exists n :: n in order && cps[n] == cp
  {
    var r := seq(|order|, i requires 0 <= i < |order| => cps[order[i]]);
    assert forall i :: 0 <= i < |order| ==> r[i] == cps[order[i]];
    r
  }

  /** A finished ChangePod failed if it ended by PostFinish with a verdict other than "pass". */
  predicate FailedCheck(cp: ChangePod) {
    cp.status.message == PostFinish && exists x :: x in cp.status.podResults && x.verdict != VERDICT_PASS
  }

  /** A pod gets its verdict from the finished ChangePod that records it. */
  ghost predicate Judged(s: State, p: string, pass: bool) {
    exists n :: RecordedIn(s, p, n) && Done(s.cps[n]) && FailedCheck(s.cps[n]) != pass
  }

  lemma ContributionNames(cp: ChangePod, pass: bool)
    requires StatusOk(cp.podInfos, cp.status) && Done(cp) && DistinctNames(cp.podInfos)
    ensures forall x, y :: x in Contribution(cp, pass) && y in Contribution(cp, pass) && x.pod == y.pod ==> x == y
    ensures NamesOf(Contribution(cp, pass)) == if FailedCheck(cp) == pass then {} else NamesOf(cp.podInfos)
  {
    if cp.status.message == PostFinish {
      var v, m :| cp.status.podResults == Stamp(cp.podInfos, v, m);
      StampNames(cp.podInfos, v, m);
      var results := cp.status.podResults;
      assert forall x :: x in results ==> x.verdict == v;
      if pass == (v == VERDICT_PASS) {
        SameElementsSameNames(Contribution(cp, pass), results);
      } else {
        assert forall x :: x !in Contribution(cp, pass);
      }
      if results != [] {
        assert results[0] in results;
      }
    } else {
      DistinctDetermined(cp.podInfos);
    }
  }

  lemma SameElementsSameNames(a: seq<PodSummary>, b: seq<PodSummary>)
    requires forall x :: x in a <==> x in b
    ensures NamesOf(a) == NamesOf(b)
  {
  }

  lemma DistinctDetermined(a: seq<PodSummary>)
    requires DistinctNames(a)
    ensures forall x, y :: x in a && y in a && x.pod == y.pod ==> x == y
  {
  }

  lemma StampNames(infos: seq<PodSummary>, v: string, m: string)
    ensures NamesOf(Stamp(infos, v, m)) == NamesOf(infos)
    ensures DistinctNames(infos) ==> DistinctNames(Stamp(infos, v, m))
    ensures DistinctNames(infos) ==>
              forall x, y :: x in Stamp(infos, v, m) && y in Stamp(infos, v, m) && x.pod == y.pod ==> x == y
    ensures forall x :: x in Stamp(infos, v, m) ==> x.verdict == v
  {
    var r := Stamp(infos, v, m);
    forall p | p in NamesOf(infos) ensures p in NamesOf(r) {
      var i :| 0 <= i < |infos| && infos[i].pod == p;
      assert r[i] in r && r[i].pod == p;
    }
  }

  /** Summaries with the same pod name are equal. */
  ghost predicate Determined(a: seq<PodSummary>) {
    forall x, y :: x in a && y in a && x.pod == y.pod ==> x == y
  }

  lemma RemoveDuplicateMembers(arr: seq<PodSummary>, live: set<string>)
    requires Determined(arr)
    ensures forall x :: x in RemoveDuplicate(arr, live) <==> x in arr && x.pod in live
  {
    forall x | x in arr && x.pod in live ensures x in RemoveDuplicate(arr, live) {
      assert x.pod in NamesOf(RemoveDuplicate(arr, live));
      var y :| y in RemoveDuplicate(arr, live) && y.pod == x.pod;
    }
  }

  lemma NamesIn(x: PodSummary, a: seq<PodSummary>)
    requires x in a
    ensures x.pod in NamesOf(a)
  {
  }

  lemma GatherDetermined(s: State, order: seq<nat>, pass: bool)
    requires Inv(s) && Lists(order, s.cps)
    ensures Determined(Gather(DoneOnly(Listing(s.cps, order)), pass))
  {
    var listing := Listing(s.cps, order);
    var all := Gather(DoneOnly(listing), pass);
    forall x, y | x in all && y in all && x.pod == y.pod ensures x == y {
      var i := Contributor(s, order, pass, x);
      var j := Contributor(s, order, pass, y);
      assert i == j;
      StoredOk(s, i);
      ContributionNames(s.cps[i], pass);
    }
  }

  /** The ChangePod a gathered summary comes from; it records the summary's pod. */
  lemma Contributor(s: State, order: seq<nat>, pass: bool, x: PodSummary) returns (n: nat)
    requires Inv(s) && Lists(order, s.cps)
    requires x in Gather(DoneOnly(Listing(s.cps, order)), pass)
    ensures n in s.cps && Done(s.cps[n]) && x in Contribution(s.cps[n], pass)
    ensures RecordedIn(s, x.pod, n) && FailedCheck(s.cps[n]) != pass
  {
    var cp :| cp in DoneOnly(Listing(s.cps, order)) && x in Contribution(cp, pass);
    n :| n in order && s.cps[n] == cp;
    StoredOk(s, n);
    ContributionNames(cp, pass);
    NamesIn(x, Contribution(cp, pass));
  }

  /** What the lists contain: exactly the live pods of finished ChangePods, split by verdict. */
  lemma VerdictNames(s: State, order: seq<nat>, pass: bool)
    requires Inv(s) && Lists(order, s.cps)
    ensures forall p :: p in NamesOf(Verdict(Listing(s.cps, order), s.pods.Keys, pass)) <==>
                          p in s.pods && Judged(s, p, pass)
  {
    var listing := Listing(s.cps, order);
    var all := Gather(DoneOnly(listing), pass);
    forall p ensures p in NamesOf(all) <==> Judged(s, p, pass) {
      if p in NamesOf(all) {
        var x :| x in all && x.pod == p;
        var n := Contributor(s, order, pass, x);
      }
      if Judged(s, p, pass) {
        var n :| RecordedIn(s, p, n) && Done(s.cps[n]) && FailedCheck(s.cps[n]) != pass;
        StoredOk(s, n);
        ContributionNames(s.cps[n], pass);
        var x :| x in Contribution(s.cps[n], pass) && x.pod == p;
        assert n in order && s.cps[n] in DoneOnly(listing);
        assert x in all;
      }
    }
  }

  lemma HoldsExactly(cp: ChangePod, pass: bool)
    requires StatusOk(cp.podInfos, cp.status) && Done(cp)
    ensures forall x :: Holds(cp, x, pass) <==> x in Contribution(cp, pass)
  {
  }

  /** Which summaries the lists hold: after PostFinish the results, split by their verdict; after the other
      causes the recorded pods, all in the pass list. */
  lemma VerdictSummaries(s: State, order: seq<nat>, pass: bool, x: PodSummary)
    requires Inv(s) && Lists(order, s.cps)
    ensures x in Verdict(Listing(s.cps, order), s.pods.Keys, pass) <==>
              x.pod in s.pods && exists n :: n in s.cps && Done(s.cps[n]) && Holds(s.cps[n], x, pass)
  {
    var listing := Listing(s.cps, order);
    var all := Gather(DoneOnly(listing), pass);
    GatherDetermined(s, order, pass);
    RemoveDuplicateMembers(all, s.pods.Keys);
    if n :| n in s.cps && Done(s.cps[n]) && Holds(s.cps[n], x, pass) {
      StoredOk(s, n);
      HoldsExactly(s.cps[n], pass);
      assert n in order && s.cps[n] in DoneOnly(listing);
      assert x in all;
    }
    if x in all {
      var n := Contributor(s, order, pass, x);
      StoredOk(s, n);
      HoldsExactly(s.cps[n], pass);
    }
  }

  ghost predicate Holds(cp: ChangePod, x: PodSummary, pass: bool) {
    if cp.status.message == PostFinish then x in cp.status.podResults && (x.verdict == "pass") == pass
    else pass && x in cp.podInfos
  }

  // ---------------------------------------------------------------- main results

  /** Conservation: in every reachable state the live pods of all finished ChangePods are the disjoint
      union of the pass and the fail list, each without duplicates; a pod is in the fail list exactly
      when its ChangePod ended by PostFinish with a verdict other than "pass", so timeouts and refused
      notifications count as pass. */
  lemma SyncConservation(s: State, order: seq<nat>)
    requires Reachable(s) && Lists(order, s.cps)
    ensures var pass := Verdict(Listing(s.cps, order), s.pods.Keys, true);
            var fail := Verdict(Listing(s.cps, order), s.pods.Keys, false);
            && DistinctNames(pass) && DistinctNames(fail)
            && NamesOf(pass) !! NamesOf(fail)
            && (forall p :: p in NamesOf(pass) + NamesOf(fail) <==>
                  p in s.pods && exists n :: RecordedIn(s, p, n) && Done(s.cps[n]))
            && (forall p, n :: RecordedIn(s, p, n) && Done(s.cps[n]) && p in s.pods ==>
                  (p in NamesOf(fail) <==> FailedCheck(s.cps[n])))
  {
    ReachableInv(s);
    VerdictNames(s, order, true);
    VerdictNames(s, order, false);
    forall p, n | RecordedIn(s, p, n) && Done(s.cps[n]) ensures Judged(s, p, !FailedCheck(s.cps[n])) {}
    assert forall p :: !(Judged(s, p, true) && Judged(s, p, false));
  }

  lemma SameMembersSameMultiset(a: seq<PodSummary>, b: seq<PodSummary>)
    requires DistinctNames(a) && DistinctNames(b) && forall x :: x in a <==> x in b
    ensures multiset(a) == multiset(b)
  {
    MultisetOfDistinct(a);
    MultisetOfDistinct(b);
    forall x ensures multiset(a)[x] == multiset(b)[x] {
      assert x in a <==> x in multiset(a);
      assert x in b <==> x in multiset(b);
    }
  }

  /** The order in which the ChangePods are listed only permutes the pass and fail lists. */
  lemma SyncOrderIndependent(s: State, a: seq<nat>, b: seq<nat>, pass: bool)
    requires Inv(s) && Lists(a, s.cps) && Lists(b, s.cps)
    ensures multiset(Verdict(Listing(s.cps, a), s.pods.Keys, pass))
            == multiset(Verdict(Listing(s.cps, b), s.pods.Keys, pass))
  {
    var x, y := Listing(s.cps, a), Listing(s.cps, b);
    assert forall cp :: cp in x <==> cp in y;
    var gx, gy := Gather(DoneOnly(x), pass), Gather(DoneOnly(y), pass);
    assert forall e :: e in gx <==> e in gy;
    GatherDetermined(s, a, pass);
    GatherDetermined(s, b, pass);
    RemoveDuplicateMembers(gx, s.pods.Keys);
    RemoveDuplicateMembers(gy, s.pods.Keys);
    SameMembersSameMultiset(Verdict(x, s.pods.Keys, pass), Verdict(y, s.pods.Keys, pass));
  }

  /** Whether a sync writes depends only on the contents of the stored lists: it returns early exactly
      when nothing is finished, or the stored lists are permutations of the recomputed ones. */
  lemma SyncWritesExactly(s: State, order: seq<nat>, wl: Workload, replicas: int, finished: nat)
    requires Inv(s) && Lists(order, s.cps)
    ensures var listing := Listing(s.cps, order);
            Sync(listing, s.pods.Keys, wl, replicas, finished).None? <==>
              DoneOnly(listing) == []
              || (multiset(Verdict(listing, s.pods.Keys, true)) == multiset(wl.pass)
                  && multiset(Verdict(listing, s.pods.Keys, false)) == multiset(wl.fail))
  {
    var listing := Listing(s.cps, order);
    SliceEqualExact(Verdict(listing, s.pods.Keys, true), wl.pass);
    SliceEqualExact(Verdict(listing, s.pods.Keys, false), wl.fail);
  }

  /** What a sync writes are the recomputed lists. */
  lemma SyncStores(listing: seq<ChangePod>, live: set<string>, wl: Workload, replicas: int, finished: nat)
    ensures var next := Sync(listing, live, wl, replicas, finished);
            next.Some? ==>
              next.value.pass == Verdict(listing, live, true) && next.value.fail == Verdict(listing, live, false)
  {
  }

  lemma SyncSettles(s: State, a: seq<nat>, b: seq<nat>, wl: Workload, replicas: int, replicas': int,
        finished: nat, finished': nat)
    requires Inv(s) && Lists(a, s.cps) && Lists(b, s.cps)
    requires Sync(Listing(s.cps, a), s.pods.Keys, wl, replicas, finished).Some?
    ensures var wl' := Sync(Listing(s.cps, a), s.pods.Keys, wl, replicas, finished).value;
            Sync(Listing(s.cps, b), s.pods.Keys, wl', replicas', finished').None?
  {
    var wl' := Sync(Listing(s.cps, a), s.pods.Keys, wl, replicas, finished).value;
    SyncStores(Listing(s.cps, a), s.pods.Keys, wl, replicas, finished);
    SettledLists(s, a, b, wl', replicas', finished');
  }

  lemma SettledLists(s: State, a: seq<nat>, b: seq<nat>, wl: Workload, replicas: int, finished: nat)
    requires Inv(s) && Lists(a, s.cps) && Lists(b, s.cps)
    requires wl.pass == Verdict(Listing(s.cps, a), s.pods.Keys, true)
    requires wl.fail == Verdict(Listing(s.cps, a), s.pods.Keys, false)
    ensures Sync(Listing(s.cps, b), s.pods.Keys, wl, replicas, finished).None?
  {
    SyncOrderIndependent(s, a, b, true);
    SyncOrderIndependent(s, a, b, false);
    SyncWritesExactly(s, b, wl, replicas, finished);
  }

  /** Sync is a fixpoint: after a write, syncing again on the unchanged cluster writes nothing, in
      whatever order the ChangePods are listed and whatever the replica count now is. */
  lemma SyncFixpoint(s: State, a: seq<nat>, b: seq<nat>, wl: Workload, replicas: int, replicas': int,
        finished: nat, finished': nat)
    requires Reachable(s) && Lists(a, s.cps) && Lists(b, s.cps)
    requires Sync(Listing(s.cps, a), s.pods.Keys, wl, replicas, finished).Some?
    ensures var wl' := Sync(Listing(s.cps, a), s.pods.Keys, wl, replicas, finished).value;
            Sync(Listing(s.cps, b), s.pods.Keys, wl', replicas', finished').None?
  {
    ReachableInv(s);
    SyncSettles(s, a, b, wl, replicas, replicas', finished, finished');
  }

  // ---------------------------------------------------------------- Success is sound

  lemma PassPodsAreFinished(s: State, order: seq<nat>, pass: bool)
    requires Inv(s) && Lists(order, s.cps)
    ensures var list := Verdict(Listing(s.cps, order), s.pods.Keys, pass);
            NamesOf(list) <= FinishedSet(s.pods) && |list| <= |FinishedSet(s.pods)|
  {
    var list := Verdict(Listing(s.cps, order), s.pods.Keys, pass);
    VerdictNames(s, order, pass);
    forall p | p in NamesOf(list) ensures p in FinishedSet(s.pods) {
      var n :| RecordedIn(s, p, n) && Done(s.cps[n]) && FailedCheck(s.cps[n]) != pass;
    }
    NamesCount(list);
    SubsetCard(NamesOf(list), FinishedSet(s.pods));
  }

  lemma JudgeExact(wl: Workload, replicas: int, finished: nat)
    requires |wl.pass| == replicas ==> finished >= replicas
    ensures Judge(wl, replicas, finished).pass == wl.pass && Judge(wl, replicas, finished).fail == wl.fail
    ensures Judge(wl, replicas, finished).status == Success <==>
              wl.fail == [] && (|wl.pass| == replicas || wl.status == Success)
  {
  }

  /** When a sync writes, the new status is Success exactly if no pod failed and either all replicas
      passed or it was Success before; the separate test that enough pods are finished is implied.
      On a move to Success the pass list names exactly `replicas` distinct live pods, each recorded
      by a finished ChangePod that did not fail. */
  lemma SuccessIsSound(s: State, order: seq<nat>, wl: Workload, replicas: int, wl': Workload)
    requires Reachable(s) && Lists(order, s.cps)
    requires Sync(Listing(s.cps, order), s.pods.Keys, wl, replicas, |FinishedSet(s.pods)|) == Some(wl')
    ensures wl'.status == Success <==> wl'.fail == [] && (|wl'.pass| == replicas || wl.status == Success)
    ensures wl'.status == Success && wl.status != Success ==> |NamesOf(wl'.pass)| == replicas
    ensures forall p :: p in NamesOf(wl'.pass) ==> p in s.pods && Judged(s, p, true)
  {
    ReachableInv(s);
    var listing := Listing(s.cps, order);
    var pass, fail := Verdict(listing, s.pods.Keys, true), Verdict(listing, s.pods.Keys, false);
    PassPodsAreFinished(s, order, true);
    JudgeExact(wl.(pass := pass, fail := fail), replicas, |FinishedSet(s.pods)|);
    VerdictNames(s, order, true);
    NamesCount(pass);
  }

  /** The edges of the workload's status that a sync can take, and what it leaves behind: a non-empty
      fail list always comes with Suspend. */
  lemma SyncEdges(listing: seq<ChangePod>, live: set<string>, wl: Workload, replicas: int, finished: nat)
    requires Sync(listing, live, wl, replicas, finished).Some?
    ensures var wl' := Sync(listing, live, wl, replicas, finished).value;
            && wl'.status in {wl.status, Success, Suspend}
            && (wl'.fail != [] ==> wl'.status == Suspend)
            && (wl'.fail == [] && wl'.status == Suspend ==> wl.status == Suspend)
            && wl'.preparing == wl.preparing
  {
  }
}
