/** The ChangePod reconciler as it is written: it fetches an object, changes its fields in place and
    sends it back, call by call.  Each handler is proved against the function the protocol uses. */
module ChangePodHandlers {
  import opened Options
  import opened PodSummaries
  import opened Protocol
  import opened Safety
  import opened Atomic
  import opened InitTurns
  import opened Lifecycle
  import opened ApiServer

  /** The defence label of one pod, given a copy of it. */
  method DefenseProcessedPod(api: Server, item: PodItem) returns (ok: bool)
    requires api.Valid()
    modifies api
    ensures api.Valid() && ok == (item.pod.defensed || (old(api.budget) > 0 && item.name in old(api.state).pods))
    ensures ok && !item.pod.defensed ==>
              api.budget == old(api.budget) - 1
              && api.state == old(api.state).(pods := LabelPod(old(api.state).pods, item.name))
    ensures !ok || item.pod.defensed ==> api.state == old(api.state) && api.budget == old(api.budget)
  {
    if item.pod.defensed {
      return true;
    }
    ok := api.PatchPodLabel(item.name);
  }

  /** Labels the recorded pods again, reading each pod first. */
  method MarkDefensedPods(api: Server, podInfos: seq<PodSummary>) returns (ok: bool)
    requires api.Valid()
    modifies api
    ensures api.Valid()
    ensures var r := LabelRun(old(api.state).pods, PodNames(podInfos), old(api.budget));
            ok == r.ok && api.state == old(api.state).(pods := r.pods)
  {
    ghost var todo := PodNames(podInfos);
    for i := 0 to |podInfos|
      invariant api.Valid() && api.state == old(api.state).(pods := api.pods)
      invariant LabelRun(old(api.state).pods, todo, old(api.budget)) == LabelRun(api.pods, todo[i..], api.budget)
    {
      var name := podInfos[i].pod;
      assert todo[i..][0] == name && todo[i..][1..] == todo[i + 1..];
      if name !in api.pods {
        return false;
      }
      var done := DefenseProcessedPod(api, PodItem(name, api.pods[name]));
      if !done {
        return false;
      }
    }
    ok := true;
  }

  lemma FilterNext(order: seq<string>, pods: map<string, Pod>, names: seq<string>, i: nat)
    requires i < |order|
    ensures order[i] in order
    ensures names + FilterUndefensed(order[i..], pods)
         == (if Undefensed(pods, order[i]) then names + [order[i]] else names) + FilterUndefensed(order[i + 1..], pods)
  {
    assert order[i..][0] == order[i] && order[i..][1..] == order[i + 1..];
  }

  /** Finished pods without the defence label, in the order of the listing. */
  method FilterPods(items: seq<PodItem>, ghost order: seq<string>, ghost pods: map<string, Pod>)
    returns (kept: seq<PodItem>)
    requires |items| == |order| && forall p :: p in order ==> p in pods
    requires forall i :: 0 <= i < |items| ==> items[i] == PodItem(order[i], pods[order[i]])
    ensures |kept| == |FilterUndefensed(order, pods)|
    ensures forall i :: 0 <= i < |kept| ==>
              && kept[i].name == FilterUndefensed(order, pods)[i]
              && kept[i].name in pods && kept[i].pod == pods[kept[i].name]
  {
    kept := [];
    ghost var names: seq<string> := [];
    for i := 0 to |items|
      invariant |kept| == |names| && FilterUndefensed(order, pods) == names + FilterUndefensed(order[i..], pods)
      invariant forall k :: 0 <= k < |kept| ==>
                  kept[k].name == names[k] && kept[k].name in pods && kept[k].pod == pods[kept[k].name]
    {
      FilterNext(order, pods, names, i);
      if items[i].pod.finished && !items[i].pod.defensed {
        kept, names := kept + [items[i]], names + [order[i]];
      }
    }
  }

  function ItemNames(items: seq<PodItem>): (r: seq<string>)
    ensures |r| == |items| && forall i :: 0 <= i < |r| ==> r[i] == items[i].name
  {
    seq(|items|, i requires 0 <= i < |items| => items[i].name)
  }

  /** The pod summaries of a batch, appended one by one. */
  method SummariesOf(cfg: Config, podArray: seq<PodItem>, ghost pods: map<string, Pod>) returns (infos: seq<PodSummary>)
    requires forall i :: 0 <= i < |podArray| ==> podArray[i].name in pods && podArray[i].pod == pods[podArray[i].name]
    ensures infos == Summaries(cfg, ItemNames(podArray), pods)
  {
    infos := [];
    for j := 0 to |podArray|
      invariant |infos| == j
      invariant forall k :: 0 <= k < j ==> infos[k] == Summary(cfg, podArray[k].name, podArray[k].pod.ip)
    {
      infos := infos + [Summary(cfg, podArray[j].name, podArray[j].pod.ip)];
    }
  }

  /** Labels a fresh batch from the copies of the listing, without reading the pods again. */
  method LabelBatch(api: Server, podArray: seq<PodItem>) returns (ok: bool)
    requires api.Valid() && Distinct(ItemNames(podArray))
    requires forall i :: 0 <= i < |podArray| ==>
               podArray[i].name in api.state.pods && podArray[i].pod == api.state.pods[podArray[i].name]
    modifies api
    ensures api.Valid()
    ensures var r := LabelRun(old(api.state).pods, ItemNames(podArray), old(api.budget));
            ok == r.ok && api.state == old(api.state).(pods := r.pods) && (ok ==> api.budget == r.left)
  {
    ghost var todo := ItemNames(podArray);
    for i := 0 to |podArray|
      invariant api.Valid() && api.state == old(api.state).(pods := api.pods)
      invariant forall k :: i <= k < |podArray| ==>
                  podArray[k].name in api.state.pods && podArray[k].pod == api.state.pods[podArray[k].name]
      invariant LabelRun(old(api.state).pods, todo, old(api.budget)) == LabelRun(api.state.pods, todo[i..], api.budget)
    {
      assert todo[i..][0] == podArray[i].name && todo[i..][1..] == todo[i + 1..];
      assert forall k :: i < k < |podArray| ==> todo[k] != todo[i];
      var done := DefenseProcessedPod(api, podArray[i]);
      if !done {
        return false;
      }
    }
    ok := true;
  }

  /** The finished pods without the label; when there are none the ChangePod is deleted, which is
      reported as an error as well. */
  method GetFinishedPodsOrDelete(api: Server, obj: ChangePodObject, order: seq<string>) returns (podArray: seq<PodItem>)
    requires api.Valid() && Enumerates(order, api.state.pods.Keys) && obj.num in api.state.cps
    modifies api
    ensures api.Valid()
    ensures ItemNames(podArray) == FilterUndefensed(order, old(api.state).pods)
    ensures forall i :: 0 <= i < |podArray| ==>
              podArray[i].name in old(api.state).pods && podArray[i].pod == old(api.state).pods[podArray[i].name]
    ensures podArray != [] ==> api.state == old(api.state) && api.budget == old(api.budget)
    ensures podArray == [] ==>
              api.state == if old(api.budget) == 0 then old(api.state) else ExecDelete(old(api.state), obj.num)
  {
    var items := api.ListPods(order);
    podArray := FilterPods(items, order, api.state.pods);
    if podArray == [] {
      var _ := api.Delete(obj.num);
    }
  }

  lemma {:induction false} FilterKeepsDistinct(order: seq<string>, pods: map<string, Pod>, n: nat)
    requires Distinct(order)
    ensures Distinct(Take(FilterUndefensed(order, pods), n))
  {
    FilterDistinct(order, pods);
  }

  /** Records the batch, labels its pods and moves on to PreWait. */
  method RecordBatch(api: Server, obj: ChangePodObject, podArray: seq<PodItem>)
    requires api.Valid() && obj.num in api.state.cps && obj.View() == api.state.cps[obj.num]
    requires Distinct(ItemNames(podArray))
    requires forall i :: 0 <= i < |podArray| ==>
               podArray[i].name in api.state.pods && podArray[i].pod == api.state.pods[podArray[i].name]
    modifies api, obj
    ensures api.Valid()
    ensures api.state == if old(api.budget) == 0 then old(api.state)
                         else RecordAndLabel(old(api.state), obj.num,
                                             Summaries(api.cfg, ItemNames(podArray), old(api.state).pods),
                                             old(api.budget) - 1)
  {
    obj.podInfos := SummariesOf(api.cfg, podArray, api.state.pods);
    ghost var batch := obj.podInfos;
    assert PodNames(batch) == ItemNames(podArray);
    var recorded := api.Update(obj);
    if !recorded {
      return;
    }
    var labelled := LabelBatch(api, podArray);
    if !labelled {
      return;
    }
    obj.status := obj.status.(phase := PreWait);
    var _ := api.UpdateStatus(obj);
  }

  /** The turn for a ChangePod that has no batch yet. */
  method StartBatch(api: Server, obj: ChangePodObject, order: seq<string>)
    requires api.Valid() && Enumerates(order, api.state.pods.Keys) && obj.podInfos == []
    requires obj.num in api.state.cps && obj.View() == api.state.cps[obj.num]
    modifies api, obj
    ensures api.Valid() && api.state == InitOutcome(old(api.state), obj.num, order, old(api.budget))
  {
    var podArray := GetFinishedPodsOrDelete(api, obj, order);
    if podArray == [] {
      return;
    }
    FilterKeepsDistinct(order, api.state.pods, api.cfg.threshold);
    assert ItemNames(podArray[..Min(|podArray|, api.cfg.threshold)])
        == Take(FilterUndefensed(order, api.state.pods), api.cfg.threshold);
    if |podArray| > api.cfg.threshold {
      podArray := podArray[..api.cfg.threshold];
    }
    RecordBatch(api, obj, podArray);
  }

  /** One turn for a ChangePod in ExecuteInit.  A batch that is recorded already is labelled again. */
  method ExecuteInitChangePodHandle(api: Server, obj: ChangePodObject, order: seq<string>)
    requires api.Valid() && Enumerates(order, api.state.pods.Keys)
    requires obj.num in api.state.cps && obj.View() == api.state.cps[obj.num]
    modifies api, obj
    ensures api.Valid() && api.state == InitOutcome(old(api.state), obj.num, order, old(api.budget))
    ensures old(obj.podInfos) != [] ==>
              Relabelled(old(api.state), api.state, old(obj.podInfos), old(api.budget))
  {
    if obj.podInfos != [] {
      RecoveryCompletesExactly(api.state, obj.num, order, api.budget);
      var _ := MarkDefensedPods(api, obj.podInfos);
    } else {
      StartBatch(api, obj, order);
    }
  }

  function Min(a: nat, b: nat): nat { if a < b then a else b }

  // ---------------------------------------------------------------- past ExecuteInit

  /** The stored state after a reconciler's checked write on a copy read at any time. */
  function WriteOutcome(s: State, n: nat, read: ChangePod, next: Option<Status>, budget: nat): State {
    if next.Some? && budget > 0 then ExecStatus(s, n, read, next.value) else s
  }

  /** The handlers of all other phases.  The object may be out of date; the write then fails. */
  method AdvanceChangePod(api: Server, obj: ChangePodObject, reply: Reply, now: int)
    requires api.Valid() && !obj.View().Init()
    modifies api, obj
    ensures api.Valid()
    ensures api.state == WriteOutcome(old(api.state), obj.num, old(obj.View()),
                                      Advance(old(obj.status), reply, now), old(api.budget))
    ensures Acts(old(obj.status).phase) && old(api.budget) > 0 && Matches(old(api.state), obj.num, old(obj.View())) ==>
              && obj.num in api.state.cps
              && Answered(old(obj.status), api.state.cps[obj.num].status, reply, now)
  {
    AdvanceAnswers(obj.status, reply, now);
    match obj.status.phase {
      case PreWait =>
        if reply.Refused? {
          obj.status := obj.status.(phase := PreFailed);
        } else {
          obj.status := obj.status.(nodeId := reply.nodeId);
          obj.status := obj.status.(phase := PreSubmitted);
          obj.status := obj.status.(preTimeoutThreshold := TIMEOUT_THRESHOLD);
          obj.status := obj.status.(preSubmitUnix := now);
        }
      case PostWait =>
        if reply.Refused? {
          obj.status := obj.status.(phase := PostFailed);
        } else {
          obj.status := obj.status.(phase := PostSubmitted);
          obj.status := obj.status.(postTimeoutThreshold := TIMEOUT_THRESHOLD);
          obj.status := obj.status.(postSubmitUnix := now);
        }
      case PostFinish | PreTimeout | PostTimeout | PreFailed | PostFailed =>
        obj.status := obj.status.(message := obj.status.phase);
        obj.status := obj.status.(phase := ExecuteDone);
      case _ =>
        return;
    }
    var _ := api.UpdateStatus(obj);
  }

  /** One reconciliation on current reads. */
  method Reconcile(api: Server, n: nat, order: seq<string>, reply: Reply, now: int)
    requires api.Valid() && Enumerates(order, api.state.pods.Keys)
    modifies api
    ensures api.Valid()
    ensures var s := old(api.state);
            api.state ==
              if n !in s.cps then s
              else if s.cps[n].Init() then InitOutcome(s, n, order, old(api.budget))
              else WriteOutcome(s, n, s.cps[n], Advance(s.cps[n].status, reply, now), old(api.budget))
  {
    var obj := api.GetChangePod(n);
    if obj == null {
      return;
    }
    if obj.status.phase == ExecuteInit {
      ExecuteInitChangePodHandle(api, obj, order);
    } else {
      AdvanceChangePod(api, obj, reply, now);
    }
  }

  /** Hence one reconciliation, cut short by any failing call, is a run of the protocol. */
  lemma ReconcileIsRun(s: State, n: nat, order: seq<string>, reply: Reply, budget: nat) returns (steps: seq<Step>)
    requires Versions(s) && s.pending == multiset{} && n in s.cps && Enumerates(order, s.pods.Keys)
    ensures CarefulRun(s, steps,
                       if s.cps[n].Init() then InitOutcome(s, n, order, budget)
                       else WriteOutcome(s, n, s.cps[n], Advance(s.cps[n].status, reply, s.now), budget))
  {
    var next := Advance(s.cps[n].status, reply, s.now);
    if s.cps[n].Init() {
      steps := InitOutcomeIsRun(s, n, order, budget);
    } else if next.Some? && budget > 0 {
      steps := WriteIsRun(s, Turn(|s.history| - 1, n, reply), StatusOp(n, s.cps[n], next.value));
    } else {
      steps := [];
    }
  }
}
