/** The HTTP callback and the timeout sweep: the two writers of ChangePods besides the reconciler. */
module CallbackAndTimeout {
  import opened Options
  import opened PodSummaries
  import opened Protocol
  import opened Atomic
  import opened Deliveries
  import opened ApiServer

  // ---------------------------------------------------------------- the callback

  /** The callback's copy of a ChangePod.  Slices are references: filling the pod results fills the
      pod infos once both are the same slice. */
  class ChangePodCopy {
    const num: nat
    const rv: nat
    var podInfos: array<PodSummary>
    var podResults: array<PodSummary>
    var rest: Status   // the status without its pod results

    function View(): ChangePod
      reads this, podInfos, podResults
    {
      ChangePod(rv, podInfos[..], rest.(podResults := podResults[..]))
    }

    constructor (num: nat, stored: ChangePod)
      ensures this.num == num && View() == stored && fresh(podInfos) && fresh(podResults)
    {
      this.num, rv, rest := num, stored.rv, stored.status;
      var infos, results := stored.podInfos, stored.status.podResults;
      podInfos := new PodSummary[|infos|](i requires 0 <= i < |infos| => infos[i]);
      podResults := new PodSummary[|results|](i requires 0 <= i < |results| => results[i]);
      new;
      assert podInfos[..] == infos && podResults[..] == results;
    }
  }

  method Fill(results: array<PodSummary>, verdict: string, message: string)
    modifies results
    ensures results[..] == Stamp(old(results[..]), verdict, message)
  {
    for i := 0 to results.Length
      invariant forall k :: 0 <= k < i ==> results[k] == old(results[k]).(verdict := verdict, message := message)
      invariant forall k :: i <= k < results.Length ==> results[k] == old(results[k])
    {
      results[i] := results[i].(verdict := verdict);
      results[i] := results[i].(message := message);
    }
  }

  /** Computes the patch of the status between the copy as read and as changed. */
  method CheckCallBack(copy: ChangePodCopy, stage: Stage, verdict: string, message: string) returns (patch: Option<Op>)
    modifies copy, copy.podInfos
    ensures patch == CallbackPatch(copy.num, old(copy.View()), stage, verdict, message)
    ensures copy.podInfos == old(copy.podInfos)
    ensures stage == Post && patch.Some? ==>
              copy.podResults == copy.podInfos && copy.podInfos[..] == Stamp(old(copy.podInfos[..]), verdict, message)
    ensures stage == Pre || patch.None? ==> copy.podInfos[..] == old(copy.podInfos[..])
    ensures patch.Some? <==> old(copy.rest.phase) == Awaited(stage)
    ensures stage == Post && patch.Some? ==>
              var results := patch.value.results;
              Says(old(copy.podInfos[..]), if results.Some? then results.value else old(copy.podResults[..]),
                   verdict, message)
  {
    ghost var read := copy.View();
    var base := copy.View();
    match stage {
      case Pre =>
        if copy.rest.phase == PreSubmitted {
          copy.rest := copy.rest.(phase := PostWait);
          return Some(PatchOp(copy.num, base, copy.rest.phase, None));
        }
      case Post =>
        if copy.rest.phase == PostSubmitted {
          copy.rest := copy.rest.(phase := PostFinish);
          copy.podResults := copy.podInfos;
          Fill(copy.podResults, verdict, message);
          var results := copy.podResults[..];
          var changed := if results == base.status.podResults then None else Some(results);
          return Some(PatchOp(copy.num, base, copy.rest.phase, changed));
        }
    }
    patch := None;
  }

  /** The whole callback for the first ChangePod found under the node id, if any. */
  method HandleCallBack(api: Server, found: seq<(nat, ChangePod)>, stage: Stage, verdict: string, message: string)
    requires api.Valid()
    modifies api
    ensures api.Valid()
    ensures var patch := if found == [] then None
                         else CallbackPatch(found[0].0, found[0].1, stage, verdict, message);
            api.state == if patch.Some? && old(api.budget) > 0 then Execute(old(api.state), patch.value)
                         else old(api.state)
    ensures found != [] && found[0].0 in old(api.state).cps && old(api.state).cps[found[0].0] == found[0].1 ==>
              if old(api.budget) > 0 && found[0].1.status.phase == Awaited(stage)
              then DeliveredTo(old(api.state), api.state, found[0].0, stage, verdict, message)
              else api.state == old(api.state)
  {
    if found == [] {
      return;
    }
    if found[0].0 in api.state.cps && api.state.cps[found[0].0] == found[0].1 {
      PatchDelivers(api.state, found[0].0, stage, verdict, message);
    }
    var copy := new ChangePodCopy(found[0].0, found[0].1);
    var patch := CheckCallBack(copy, stage, verdict, message);
    if patch.Some? {
      var _ := api.PatchStatus(patch.value.num, patch.value.phase, patch.value.results);
    }
  }

  // ---------------------------------------------------------------- the timeout sweep

  /** A ChangePod as listed from the cache. */
  type Listed = (nat, ChangePod)

  function WithPhase(nodes: seq<Listed>, phase: Phase): (r: seq<Listed>)
    ensures forall x :: x in r <==> x in nodes && x.1.status.phase == phase
  {
    if nodes == [] then []
    else if nodes[0].1.status.phase == phase then [nodes[0]] + WithPhase(nodes[1..], phase)
    else WithPhase(nodes[1..], phase)
  }

  datatype Swept = Swept(state: State, left: nat)

  /** One overdue ChangePod gets one checked write; after `budget` writes every write fails. */
  function SweepOne(s: State, node: Listed, now: int, budget: nat): Swept {
    var next := Expire(node.1.status, now);
    if next.Some? && budget > 0 && Matches(s, node.0, node.1) then
      Swept(ExecStatus(s, node.0, node.1, next.value), budget - 1)
    else Swept(s, budget)
  }

  /** A failing write does not stop the sweep. */
  function SweepAll(s: State, nodes: seq<Listed>, now: int, budget: nat): Swept
    decreases |nodes|
  {
    if nodes == [] then Swept(s, budget)
    else
      var one := SweepOne(s, nodes[0], now, budget);
      SweepAll(one.state, nodes[1..], now, one.left)
  }

  method SweepListed(api: Server, nodes: seq<Listed>, now: int)
    requires api.Valid()
    requires (forall x :: x in nodes ==> x.1.status.phase == PreSubmitted)
             || (forall x :: x in nodes ==> x.1.status.phase == PostSubmitted)
    modifies api
    ensures api.Valid() && Swept(api.state, api.budget) == SweepAll(old(api.state), nodes, now, old(api.budget))
    ensures Copies(old(api.state), nodes) ==>
              SweptBy(old(api.state), api.state, nodes, now, old(api.budget) >= |nodes|)
  {
    ghost var before, budget := api.state, api.budget;
    for i := 0 to |nodes|
      invariant api.Valid()
      invariant SweepAll(old(api.state), nodes, now, old(api.budget))
                == SweepAll(api.state, nodes[i..], now, api.budget)
    {
      assert nodes[i..][0] == nodes[i] && nodes[i..][1..] == nodes[i + 1..];
      assert nodes[i] in nodes;
      var node := new ChangePodObject(nodes[i].0, nodes[i].1);
      if node.status.phase == PreSubmitted && now - node.status.preSubmitUnix > node.status.preTimeoutThreshold {
        node.status := node.status.(phase := PreTimeout);
        var _ := api.UpdateStatus(node);
      } else if node.status.phase == PostSubmitted
                && now - node.status.postSubmitUnix > node.status.postTimeoutThreshold {
        node.status := node.status.(phase := PostTimeout);
        var _ := api.UpdateStatus(node);
      }
    }
    if Copies(before, nodes) {
      SweepActs(before, nodes, now, budget);
    }
  }

  // ---------------------------------------------------------------- what a round achieves

  /** Submitted, with no callback within the timeout; and the phase that the sweep then sets. */
  predicate Overdue(st: Status, now: int) {
    || (st.phase == PreSubmitted && now - st.preSubmitUnix > st.preTimeoutThreshold)
    || (st.phase == PostSubmitted && now - st.postSubmitUnix > st.postTimeoutThreshold)
  }

  ghost predicate TimedOut(cp: ChangePod, cp': ChangePod) {
    && cp'.podInfos == cp.podInfos
    && cp'.status == cp.status.(phase := if cp.status.phase == PreSubmitted then PreTimeout else PostTimeout)
  }

  ghost predicate OfDifferent(nodes: seq<Listed>) {
    forall i, j :: 0 <= i < j < |nodes| ==> nodes[i].0 != nodes[j].0
  }

  /** The copies are of different ChangePods, and those with the stored version are current. */
  ghost predicate Copies(s: State, nodes: seq<Listed>) {
    && OfDifferent(nodes)
    && (forall x :: x in nodes && Matches(s, x.0, x.1) ==> s.cps[x.0] == x.1)
  }

  /** `n` is stored as one of the copies shows it. */
  ghost predicate Shown(s: State, nodes: seq<Listed>, n: nat) {
    n in s.cps && (n, s.cps[n]) in nodes
  }

  /** What a sweep over copies does: of the ChangePods that are stored as listed the overdue ones time out, all
      of them unless the writes ran out, and nothing else changes. */
  ghost predicate SweptBy(s: State, t: State, nodes: seq<Listed>, now: int, all: bool) {
    && t.pods == s.pods && t.cps.Keys == s.cps.Keys
    && forall n :: n in s.cps ==>
         if Shown(s, nodes, n) && Overdue(s.cps[n].status, now)
         then TimedOut(s.cps[n], t.cps[n]) || (!all && t.cps[n] == s.cps[n])
         else t.cps[n] == s.cps[n]
  }

  lemma SweepOneActs(s: State, node: Listed, now: int, budget: nat)
    requires Matches(s, node.0, node.1) ==> s.cps[node.0] == node.1
    ensures var one := SweepOne(s, node, now, budget);
            && SweptBy(s, one.state, [node], now, budget > 0) && budget - 1 <= one.left <= budget
            && forall n :: n in s.cps && n != node.0 ==> one.state.cps[n] == s.cps[n]
  {
    assert forall n :: Shown(s, [node], n) ==> n == node.0 && s.cps[n] == node.1;
    assert node.0 in s.cps && s.cps[node.0] == node.1 ==> node in [node];
  }

  lemma RestCopies(s: State, nodes: seq<Listed>, t: State)
    requires nodes != [] && Copies(s, nodes)
    requires t.cps.Keys == s.cps.Keys && forall n :: n in s.cps && n != nodes[0].0 ==> t.cps[n] == s.cps[n]
    ensures Copies(t, nodes[1..])
    ensures forall n :: n != nodes[0].0 ==> (Shown(t, nodes[1..], n) <==> Shown(s, nodes, n))
    ensures !Shown(t, nodes[1..], nodes[0].0)
    ensures Shown(s, nodes, nodes[0].0) <==> Shown(s, [nodes[0]], nodes[0].0)
  {
    var rest := nodes[1..];
    forall x | x in rest ensures x in nodes && x.0 != nodes[0].0 {
      var i :| 0 <= i < |rest| && rest[i] == x;
      assert nodes[i + 1] == x;
    }
    assert forall x :: x in nodes <==> x == nodes[0] || x in rest;
  }

  lemma {:induction false} SweepActs(s: State, nodes: seq<Listed>, now: int, budget: nat)
    requires Copies(s, nodes)
    ensures SweptBy(s, SweepAll(s, nodes, now, budget).state, nodes, now, budget >= |nodes|)
    decreases |nodes|
  {
    if nodes != [] {
      var one := SweepOne(s, nodes[0], now, budget);
      assert nodes[0] in nodes;
      SweepOneActs(s, nodes[0], now, budget);
      RestCopies(s, nodes, one.state);
      SweepActs(one.state, nodes[1..], now, one.left);
    }
  }

  lemma {:induction false} WithPhaseParts(nodes: seq<Listed>, phase: Phase)
    requires OfDifferent(nodes)
    ensures OfDifferent(WithPhase(nodes, phase))
    ensures phase == PreSubmitted ==> |WithPhase(nodes, PreSubmitted)| + |WithPhase(nodes, PostSubmitted)| <= |nodes|
  {
    if nodes != [] {
      WithPhaseParts(nodes[1..], phase);
      var rest := WithPhase(nodes[1..], phase);
      forall x | x in rest ensures x.0 != nodes[0].0 {
        var i :| 0 <= i < |nodes[1..]| && nodes[1..][i] == x;
        assert nodes[i + 1] == x;
      }
      assert forall j :: 0 <= j < |rest| ==> rest[j] in rest;
    }
  }

  /** The two lists of a round, one after the other, are copies of the same ChangePods. */
  lemma RoundCopies(s: State, nodes: seq<Listed>)
    requires Copies(s, nodes)
    ensures var swept := WithPhase(nodes, PreSubmitted) + WithPhase(nodes, PostSubmitted);
            && Copies(s, swept) && |swept| <= |nodes|
            && forall n :: n in s.cps && s.cps[n].status.phase in {PreSubmitted, PostSubmitted} ==>
                 (Shown(s, swept, n) <==> Shown(s, nodes, n))
  {
    var pre, post := WithPhase(nodes, PreSubmitted), WithPhase(nodes, PostSubmitted);
    WithPhaseParts(nodes, PreSubmitted);
    WithPhaseParts(nodes, PostSubmitted);
    forall x, y | x in pre && y in post ensures x.0 != y.0 {
      var i :| 0 <= i < |nodes| && nodes[i] == x;
      var j :| 0 <= j < |nodes| && nodes[j] == y;
    }
    assert forall x :: x in pre + post <==> x in pre || x in post;
  }

  lemma RoundActs(s: State, nodes: seq<Listed>, now: int, budget: nat)
    requires Copies(s, nodes)
    ensures var swept := WithPhase(nodes, PreSubmitted) + WithPhase(nodes, PostSubmitted);
            SweptBy(s, SweepAll(s, swept, now, budget).state, nodes, now, budget >= |nodes|)
  {
    var swept := WithPhase(nodes, PreSubmitted) + WithPhase(nodes, PostSubmitted);
    RoundCopies(s, nodes);
    SweepActs(s, swept, now, budget);
  }

  /** Every stored ChangePod is listed as it is. */
  ghost predicate ListsAll(s: State, nodes: seq<Listed>) {
    && Copies(s, nodes) && forall n :: n in s.cps ==> (n, s.cps[n]) in nodes
  }

  /** After a round on current copies in which no write fails nothing is overdue any more. */
  lemma NothingOverdue(s: State, t: State, nodes: seq<Listed>, now: int)
    requires ListsAll(s, nodes) && SweptBy(s, t, nodes, now, true)
    ensures forall n :: n in t.cps ==> !Overdue(t.cps[n].status, now)
    ensures forall n :: n in s.cps ==>
              if Overdue(s.cps[n].status, now) then TimedOut(s.cps[n], t.cps[n]) else t.cps[n] == s.cps[n]
  {
  }

  /** One round of the sweep over what the cache lists, first PreSubmitted, then PostSubmitted. */
  method ChangePodTimeoutValidRound(api: Server, nodes: seq<Listed>, now: int)
    requires api.Valid()
    modifies api
    ensures api.Valid()
    ensures var swept := WithPhase(nodes, PreSubmitted) + WithPhase(nodes, PostSubmitted);
            api.state == SweepAll(old(api.state), swept, now, old(api.budget)).state
    ensures Copies(old(api.state), nodes) ==>
              SweptBy(old(api.state), api.state, nodes, now, old(api.budget) >= |nodes|)
  {
    if Copies(api.state, nodes) {
      RoundActs(api.state, nodes, now, api.budget);
    }
    var pre, post := WithPhase(nodes, PreSubmitted), WithPhase(nodes, PostSubmitted);
    SweepAppend(api.state, pre, post, now, api.budget);
    SweepListed(api, pre, now);
    SweepListed(api, post, now);
  }

  lemma {:induction false} SweepAppend(s: State, a: seq<Listed>, b: seq<Listed>, now: int, budget: nat)
    ensures var r := SweepAll(s, a, now, budget); SweepAll(s, a + b, now, budget) == SweepAll(r.state, b, now, r.left)
    decreases |a|
  {
    if a == [] {
      assert a + b == b;
    } else {
      assert (a + b)[0] == a[0] && (a + b)[1..] == a[1..] + b;
      var one := SweepOne(s, a[0], now, budget);
      SweepAppend(one.state, a[1..], b, now, one.left);
    }
  }

  ghost predicate FromCache(s: State, nodes: seq<Listed>) {
    forall x :: x in nodes ==> exists k :: 0 <= k < |s.history| && x.0 in s.history[k] && s.history[k][x.0] == x.1
  }

  lemma SweepOneIsRun(s: State, node: Listed, budget: nat) returns (steps: seq<Step>)
    requires s.pending == multiset{}
    requires exists k :: 0 <= k < |s.history| && node.0 in s.history[k] && s.history[k][node.0] == node.1
    ensures var t := SweepOne(s, node, s.now, budget).state;
            CarefulRun(s, steps, t) && t.pending == s.pending && t.now == s.now && s.history <= t.history
  {
    steps := [];
    var (n, read) := node;
    if SweepOne(s, node, s.now, budget).left != budget {
      var k :| 0 <= k < |s.history| && n in s.history[k] && s.history[k][n] == read;
      steps := WriteIsRun(s, Sweep(k, n), StatusOp(n, read, Expire(read.status, s.now).value));
    }
  }

  /** A round over copies from any past states of the store, whatever writes fail, is a run of the
      protocol. */
  lemma {:induction false} SweepIsRun(s: State, nodes: seq<Listed>, budget: nat) returns (steps: seq<Step>)
    requires s.pending == multiset{} && FromCache(s, nodes)
    ensures CarefulRun(s, steps, SweepAll(s, nodes, s.now, budget).state)
    decreases |nodes|
  {
    steps := [];
    if nodes != [] {
      assert nodes[0] in nodes;
      var one := SweepOne(s, nodes[0], s.now, budget);
      steps := SweepOneIsRun(s, nodes[0], budget);
      HistoryKept(s, one.state, nodes);
      assert forall x :: x in nodes[1..] ==> x in nodes;
      var rest := SweepIsRun(one.state, nodes[1..], one.left);
      steps := RunJoin(s, steps, one.state, rest, SweepAll(s, nodes, s.now, budget).state);
    }
  }

  /** A callback acting on a copy from any past state is a run of the protocol. */
  lemma CallBackIsRun(s: State, k: nat, num: nat, stage: Stage, verdict: string, message: string)
    returns (steps: seq<Step>)
    requires s.pending == multiset{} && ReadsFrom(s, k, num)
    ensures var patch := CallbackPatch(num, s.history[k][num], stage, verdict, message);
            CarefulRun(s, steps, if patch.Some? then Execute(s, patch.value) else s)
  {
    var patch := CallbackPatch(num, s.history[k][num], stage, verdict, message);
    if patch.Some? {
      steps := WriteIsRun(s, Receive(k, num, stage, verdict, message), patch.value);
    } else {
      steps := [];
    }
  }

  lemma HistoryKept(s: State, t: State, nodes: seq<Listed>)
    requires s.history <= t.history && FromCache(s, nodes)
    ensures FromCache(t, nodes)
  {
    forall x | x in nodes
      ensures exists k :: 0 <= k < |t.history| && x.0 in t.history[k] && t.history[k][x.0] == x.1
    {
      var k :| 0 <= k < |s.history| && x.0 in s.history[k] && s.history[k][x.0] == x.1;
      assert t.history[k] == s.history[k];
    }
  }
}
