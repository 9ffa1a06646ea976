/** The rollback runnable: which pods it starts from, which ReplicaSet it rolls back to, and when it
    stops for good. */
module Rollback {
  import opened Options
  import opened Admission

  // ---------------------------------------------------------------- abnormal pods

  datatype PodPhase = Running | Terminating | Other

  /** `replicaSets` are the names of the owner references of kind ReplicaSet. */
  datatype OwnedPod = OwnedPod(
    name: string, versioned: bool, phase: PodPhase, startTime: Option<int>, replicaSets: seq<string>)

  const TIMEOUT := 120

  predicate Abnormal(pod: OwnedPod, now: int) {
    pod.versioned && pod.phase == Other && pod.startTime.Some? && pod.startTime.value < now - TIMEOUT
  }

  /** Some ReplicaSet of an abnormal pod. */
  predicate Affected(pods: seq<OwnedPod>, now: int, owner: string) {
    exists pod :: pod in pods && Abnormal(pod, now) && owner in pod.replicaSets
  }

  method AbnormalByReplicaSet(podList: seq<OwnedPod>, now: int) returns (mapPods: map<string, OwnedPod>)
    ensures forall owner :: owner in mapPods <==> Affected(podList, now, owner)
    ensures forall owner :: owner in mapPods ==>
              mapPods[owner] in podList && Abnormal(mapPods[owner], now) && owner in mapPods[owner].replicaSets
  {
    mapPods := map[];
    for i := 0 to |podList|
      invariant forall owner :: owner in mapPods <==> Affected(podList[..i], now, owner)
      invariant forall owner :: owner in mapPods ==>
                  mapPods[owner] in podList && Abnormal(mapPods[owner], now) && owner in mapPods[owner].replicaSets
    {
      var pod := podList[i];
      assert podList[..i + 1] == podList[..i] + [pod];
      ghost var before := mapPods;
      if pod.versioned && pod.phase != Running && pod.phase != Terminating && pod.startTime.Some?
         && pod.startTime.value < now - TIMEOUT {
        for j := 0 to |pod.replicaSets|
          invariant forall owner :: owner in mapPods <==> owner in before || owner in pod.replicaSets[..j]
          invariant forall owner :: owner in mapPods ==>
                      mapPods[owner] in podList && Abnormal(mapPods[owner], now) && owner in mapPods[owner].replicaSets
        {
          assert pod.replicaSets[..j + 1] == pod.replicaSets[..j] + [pod.replicaSets[j]];
          mapPods := mapPods[pod.replicaSets[j] := pod];
        }
        assert pod.replicaSets[..|pod.replicaSets|] == pod.replicaSets;
      }
      forall owner ensures owner in mapPods <==> Affected(podList[..i + 1], now, owner) {
        assert Affected(podList[..i + 1], now, owner) <==>
                 Affected(podList[..i], now, owner) || (Abnormal(pod, now) && owner in pod.replicaSets);
      }
    }
    assert podList[..|podList|] == podList;
  }

  /** `pods` are abnormal pods of the listing, one for each of the ReplicaSets `owners`. */
  ghost predicate OnePer(podList: seq<OwnedPod>, now: int, pods: seq<OwnedPod>, owners: seq<string>) {
    && |pods| == |owners|
    && (forall i, j :: 0 <= i < j < |owners| ==> owners[i] != owners[j])
    && (forall i :: 0 <= i < |pods| ==>
          pods[i] in podList && Abnormal(pods[i], now) && owners[i] in pods[i].replicaSets)
  }

  /** One abnormal pod for every affected ReplicaSet, in an arbitrary order. */
  method GetNonRunningPods(podList: seq<OwnedPod>, now: int) returns (pods: seq<OwnedPod>)
    ensures exists owners :: OnePer(podList, now, pods, owners)
                             && forall owner :: owner in owners <==> Affected(podList, now, owner)
    ensures forall pod :: pod in pods ==>
              pod in podList && pod.versioned && pod.phase !in {Running, Terminating}
              && pod.startTime.Some? && now - pod.startTime.value > 120
  {
    ghost var owners: seq<string>;
    var mapPods := AbnormalByReplicaSet(podList, now);
    pods, owners := [], [];
    var left := mapPods.Keys;
    while left != {}
      invariant left <= mapPods.Keys && |pods| == |owners|
      invariant forall owner :: owner in owners <==> owner in mapPods && owner !in left
      invariant forall i, j :: 0 <= i < j < |owners| ==> owners[i] != owners[j]
      invariant forall i :: 0 <= i < |pods| ==> owners[i] in mapPods && pods[i] == mapPods[owners[i]]
      decreases |left|
    {
      var owner :| owner in left;
      assert owner !in owners;
      pods, owners := pods + [mapPods[owner]], owners + [owner];
      left := left - {owner};
    }
    assert OnePer(podList, now, pods, owners);
  }

  // ---------------------------------------------------------------- the ReplicaSet to return to

  datatype Counts = Counts(replicas: int, ready: int, available: int, updated: int)

  datatype ReplicaSet = ReplicaSet(name: string, counts: Counts, template: Template)

  predicate DeploymentHealthy(c: Counts) {
    c.replicas == c.ready == c.available == c.updated
  }

  predicate Normal(rs: ReplicaSet, own: string) {
    rs.name != own && rs.counts.replicas != 0 && rs.counts.replicas == rs.counts.ready == rs.counts.available
  }

  /** The first other ReplicaSet that is fully available and not scaled down. */
  method GetNormalReplicaSet(replicaSets: seq<ReplicaSet>, own: string) returns (r: Option<ReplicaSet>)
    ensures r.None? <==> |replicaSets| <= 1 || forall rs :: rs in replicaSets ==> !Normal(rs, own)
    ensures r.Some? ==>
              exists i :: 0 <= i < |replicaSets| && replicaSets[i] == r.value && Normal(r.value, own)
                          && forall k :: 0 <= k < i ==> !Normal(replicaSets[k], own)
  {
    if |replicaSets| <= 1 {
      return None;
    }
    for i := 0 to |replicaSets|
      invariant forall k :: 0 <= k < i ==> !Normal(replicaSets[k], own)
    {
      if Normal(replicaSets[i], own) {
        return Some(replicaSets[i]);
      }
    }
    r := None;
  }

  // ---------------------------------------------------------------- one round

  /** What an abnormal pod leads to: no owning Deployment, or a Deployment with its counts and the
      ReplicaSets that its selector matches. */
  datatype Target = Unowned | Owned(deployment: string, counts: Counts, own: string, replicaSets: seq<ReplicaSet>)

  predicate HasNormal(t: Target) {
    t.Owned? && |t.replicaSets| > 1 && exists rs :: rs in t.replicaSets && Normal(rs, t.own)
  }

  /** A target ends the whole runnable: its Deployment is healthy, or there is nothing to return to. */
  predicate Stops(t: Target) {
    t.Owned? && (DeploymentHealthy(t.counts) || !HasNormal(t))
  }

  datatype WriteBack = WriteBack(deployment: string, template: Template)

  /** The first normal ReplicaSet of a target. */
  predicate FirstNormal(t: Target, i: nat) {
    && t.Owned? && i < |t.replicaSets| && Normal(t.replicaSets[i], t.own)
    && forall k :: 0 <= k < i ==> !Normal(t.replicaSets[k], t.own)
  }

  /** The write-back of a target: its Deployment gets the template of the first normal ReplicaSet. */
  ghost predicate WrittenTo(t: Target, w: WriteBack) {
    && t.Owned? && w.deployment == t.deployment
    && exists i: nat :: FirstNormal(t, i) && w.template == RollbackTemplate(t.replicaSets[i].template)
  }

  /** The write-backs owed to the targets in `ts`. */
  ghost predicate WrittenFor(ts: seq<Target>, writes: seq<WriteBack>)
    decreases |ts|
  {
    if ts == [] then writes == []
    else if ts[|ts| - 1].Unowned? then WrittenFor(ts[..|ts| - 1], writes)
    else
      var t := ts[|ts| - 1];
      && writes != [] && WrittenFor(ts[..|ts| - 1], writes[..|writes| - 1])
      && WrittenTo(t, writes[|writes| - 1])
  }

  lemma OneMoreWritten(ts: seq<Target>, t: Target, writes: seq<WriteBack>, w: WriteBack, rs: ReplicaSet)
    requires WrittenFor(ts, writes) && t.Owned? && exists i: nat :: FirstNormal(t, i) && t.replicaSets[i] == rs
    requires w == WriteBack(t.deployment, RollbackTemplate(rs.template))
    ensures WrittenFor(ts + [t], writes + [w])
  {
    assert (ts + [t])[..|ts|] == ts && (writes + [w])[..|writes|] == writes;
  }

  /** Position of the first target that stops the goroutine, or the number of targets. */
  function FirstStop(targets: seq<Target>): (n: nat)
    ensures n <= |targets| && (n < |targets| ==> Stops(targets[n]))
    ensures forall k :: 0 <= k < n ==> !Stops(targets[k])
  {
    if targets == [] || Stops(targets[0]) then 0 else 1 + FirstStop(targets[1..])
  }

  lemma StopsAt(targets: seq<Target>, i: nat)
    requires i < |targets| && Stops(targets[i]) && forall k :: 0 <= k < i ==> !Stops(targets[k])
    ensures FirstStop(targets) == i
  {
  }

  /** Rolls back the targets in turn.  The first healthy Deployment, or the first without a normal
      ReplicaSet, ends the goroutine: exactly the targets before it are rolled back, and no later one
      ever is. */
  method RollbackRound(targets: seq<Target>) returns (writes: seq<WriteBack>, alive: bool)
    ensures WrittenFor(targets[..FirstStop(targets)], writes)
    ensures alive <==> FirstStop(targets) == |targets|
  {
    writes := [];
    for i := 0 to |targets|
      invariant WrittenFor(targets[..i], writes)
      invariant forall k :: 0 <= k < i ==> !Stops(targets[k])
    {
      var t := targets[i];
      assert targets[..i + 1][..i] == targets[..i];
      if t.Owned? {
        if DeploymentHealthy(t.counts) {
          StopsAt(targets, i);
          return writes, false;
        }
        var normal := GetNormalReplicaSet(t.replicaSets, t.own);
        if normal.None? {
          StopsAt(targets, i);
          return writes, false;
        }
        var w := WriteBack(t.deployment, RollbackTemplate(normal.value.template));
        OneMoreWritten(targets[..i], t, writes, w, normal.value);
        assert targets[..i + 1] == targets[..i] + [t];
        writes := writes + [w];
      }
    }
    alive := true;
  }

  /** `origin` names, in order, the target each write-back belongs to. */
  ghost predicate Origins(targets: seq<Target>, writes: seq<WriteBack>, origin: seq<nat>) {
    && |origin| == |writes|
    && (forall j, k :: 0 <= j < k < |origin| ==> origin[j] < origin[k])
    && (forall k :: 0 <= k < |origin| ==> origin[k] < |targets| && WrittenTo(targets[origin[k]], writes[k]))
  }

  lemma OriginsAppend(targets: seq<Target>, writes: seq<WriteBack>, before: seq<nat>, i: nat)
    requires writes != [] && Origins(targets, writes[..|writes| - 1], before) && i < |targets|
    requires (forall k :: 0 <= k < |before| ==> before[k] < i) && WrittenTo(targets[i], writes[|writes| - 1])
    ensures Origins(targets, writes, before + [i])
  {
  }

  lemma {:induction false} PrefixOrigins(targets: seq<Target>, n: nat, writes: seq<WriteBack>)
    returns (origin: seq<nat>)
    requires n <= |targets| && WrittenFor(targets[..n], writes)
    ensures Origins(targets, writes, origin)
    ensures forall i :: i in origin <==> 0 <= i < n && targets[i].Owned?
    decreases n
  {
    if n == 0 {
      origin := [];
    } else {
      var ts, t := targets[..n], targets[n - 1];
      assert ts[..n - 1] == targets[..n - 1] && ts[n - 1] == t;
      if t.Unowned? {
        origin := PrefixOrigins(targets, n - 1, writes);
      } else {
        var before := PrefixOrigins(targets, n - 1, writes[..|writes| - 1]);
        forall k | 0 <= k < |before| ensures before[k] < n - 1 { assert before[k] in before; }
        OriginsAppend(targets, writes, before, n - 1);
        origin := before + [n - 1];
      }
    }
  }

  /** A Deployment that is not healthy, and another ReplicaSet of it that is fully available and not scaled
      down. */
  ghost predicate Recoverable(t: Target) {
    && t.Owned?
    && !(t.counts.replicas == t.counts.ready == t.counts.available == t.counts.updated)
    && |t.replicaSets| >= 2
    && exists rs :: rs in t.replicaSets && rs.name != t.own
                    && rs.counts.replicas != 0 && rs.counts.replicas == rs.counts.ready == rs.counts.available
  }

  lemma StopsExactly(t: Target)
    ensures t.Owned? ==> (Stops(t) <==> !Recoverable(t))
  {
    if t.Owned? && Recoverable(t) {
      var rs :| rs in t.replicaSets && rs.name != t.own
                && rs.counts.replicas != 0 && rs.counts.replicas == rs.counts.ready == rs.counts.available;
      assert Normal(rs, t.own);
    }
  }

  /** Which targets a round rolls back: the round's write-backs belong, in order, to the recoverable targets
      before which every target with a Deployment is recoverable as well, however broken the later ones are. */
  lemma RolledBackExactly(targets: seq<Target>, writes: seq<WriteBack>) returns (origin: seq<nat>)
    requires WrittenFor(targets[..FirstStop(targets)], writes)
    ensures Origins(targets, writes, origin)
    ensures forall i :: 0 <= i < |targets| ==>
              (i in origin <==> Recoverable(targets[i])
                                && forall k :: 0 <= k < i && targets[k].Owned? ==> Recoverable(targets[k]))
  {
    origin := PrefixOrigins(targets, FirstStop(targets), writes);
    forall i | 0 <= i < |targets|
      ensures i in origin <==> Recoverable(targets[i])
                               && forall k :: 0 <= k < i && targets[k].Owned? ==> Recoverable(targets[k])
    {
      BeforeStop(targets, i);
    }
  }

  lemma BeforeStop(targets: seq<Target>, i: nat)
    requires i < |targets|
    ensures i < FirstStop(targets) && targets[i].Owned? <==>
              Recoverable(targets[i]) && forall k :: 0 <= k < i && targets[k].Owned? ==> Recoverable(targets[k])
  {
    forall k | 0 <= k < |targets| && targets[k].Owned? ensures Stops(targets[k]) <==> !Recoverable(targets[k]) {
      StopsExactly(targets[k]);
    }
    if FirstStop(targets) <= i {
      assert Stops(targets[FirstStop(targets)]);
    }
  }
}
