/** The API server as the handlers see it.  Its mutable content is the stored state of the protocol;
    a limited number of writes succeeds, after which every write fails. */
module ApiServer {
  import opened Options
  import opened PodSummaries
  import opened Protocol

  /** An object fetched from the server: its ChangePod number, resourceVersion and fields. */
  class ChangePodObject {
    const num: nat
    var rv: nat
    var podInfos: seq<PodSummary>
    var status: Status

    function View(): ChangePod
      reads this
    {
      ChangePod(rv, podInfos, status)
    }

    constructor (num: nat, stored: ChangePod)
      ensures this.num == num && View() == stored
    {
      this.num, rv, podInfos, status := num, stored.rv, stored.podInfos, stored.status;
    }
  }

  datatype PodItem = PodItem(name: string, pod: Pod)

  class Server {
    const cfg: Config
    var pods: map<string, Pod>
    var changePods: ChangePods
    var nextRv: nat
    var budget: nat
    ghost var state: State

    ghost predicate Valid()
      reads this
    {
      state.cfg == cfg && state.pods == pods && state.cps == changePods && state.nextRv == nextRv
    }

    constructor (cfg: Config, pods: map<string, Pod>, budget: nat, ghost state: State)
      requires state.cfg == cfg && state.pods == pods && state.cps == map[]
      ensures Valid() && this.state == state.(nextRv := 0) && this.budget == budget
    {
      this.cfg, this.pods, this.changePods, this.nextRv, this.budget := cfg, pods, map[], 0, budget;
      this.state := state.(nextRv := 0);
    }

    // ------------------------------------------------------------------ reads

    method GetChangePod(n: nat) returns (obj: ChangePodObject?)
      requires Valid()
      ensures obj == null <==> n !in state.cps
      ensures obj != null ==> fresh(obj) && obj.num == n && obj.View() == state.cps[n]
    {
      obj := null;
      if n in changePods {
        obj := new ChangePodObject(n, changePods[n]);
      }
    }

    /** All pods of the version, in the order the server happens to return them. */
    method ListPods(order: seq<string>) returns (items: seq<PodItem>)
      requires Valid() && forall p :: p in order ==> p in state.pods
      ensures |items| == |order|
      ensures forall i :: 0 <= i < |items| ==> items[i] == PodItem(order[i], state.pods[order[i]])
    {
      var stored := pods;
      items := seq(|order|, i requires 0 <= i < |order| => PodItem(order[i], stored[order[i]]));
    }

    method ListChangePods(order: seq<nat>) returns (items: seq<ChangePod>)
      requires Valid() && forall n :: n in order ==> n in state.cps
      ensures |items| == |order|
      ensures forall i :: 0 <= i < |items| ==> items[i] == state.cps[order[i]]
    {
      var stored := changePods;
      items := seq(|order|, i requires 0 <= i < |order| => stored[order[i]]);
    }

    // ------------------------------------------------------------------ writes

    method Create(num: nat, ghost byThreshold: bool) returns (ok: bool)
      requires Valid() && num > 0
      modifies this
      ensures Valid() && ok == (old(budget) > 0 && num !in old(state).cps)
      ensures state == if ok then ExecCreate(old(state), num - 1, byThreshold) else old(state)
      ensures budget == if ok then old(budget) - 1 else old(budget)
    {
      ok := budget > 0 && num !in changePods;
      if ok {
        changePods := changePods[num := ChangePod(nextRv, [], NEW_STATUS)];
        nextRv, budget := nextRv + 1, budget - 1;
        state := ExecCreate(state, num - 1, byThreshold);
      }
    }

    /** Update of the spec, refused when the resourceVersion is not the stored one. */
    method Update(obj: ChangePodObject) returns (ok: bool)
      requires Valid()
      modifies this, obj
      ensures Valid() && ok == (old(budget) > 0 && Matches(old(state), obj.num, old(obj.View())))
      ensures ok ==> state == Put(old(state), obj.num, old(state).cps[obj.num].(podInfos := old(obj.podInfos)))
                     && budget == old(budget) - 1 && obj.View() == state.cps[obj.num]
      ensures !ok ==> state == old(state) && budget == old(budget) && obj.View() == old(obj.View())
    {
      ok := budget > 0 && obj.num in changePods && changePods[obj.num].rv == obj.rv;
      if ok {
        state := Put(state, obj.num, state.cps[obj.num].(podInfos := obj.podInfos));
        var stored := changePods[obj.num].(rv := nextRv, podInfos := obj.podInfos);
        changePods := changePods[obj.num := stored];
        nextRv, budget := nextRv + 1, budget - 1;
        obj.rv, obj.status := stored.rv, stored.status;
      }
    }

    /** Update of the status subresource, refused when the resourceVersion is not the stored one. */
    method UpdateStatus(obj: ChangePodObject) returns (ok: bool)
      requires Valid()
      modifies this
      ensures Valid() && ok == (old(budget) > 0 && Matches(old(state), obj.num, obj.View()))
      ensures ok ==> state == Put(old(state), obj.num, old(state).cps[obj.num].(status := obj.status))
                     && budget == old(budget) - 1
      ensures !ok ==> state == old(state) && budget == old(budget)
    {
      ok := budget > 0 && obj.num in changePods && changePods[obj.num].rv == obj.rv;
      if ok {
        state := Put(state, obj.num, state.cps[obj.num].(status := obj.status));
        changePods := changePods[obj.num := changePods[obj.num].(rv := nextRv, status := obj.status)];
        nextRv, budget := nextRv + 1, budget - 1;
      }
    }

    /** Merge patch of the status subresource: no version check. */
    method PatchStatus(num: nat, phase: Phase, results: Option<seq<PodSummary>>) returns (ok: bool)
      requires Valid()
      modifies this
      ensures Valid() && ok == (old(budget) > 0 && num in old(state).cps)
      ensures state == if ok then ExecPatch(old(state), num, phase, results) else old(state)
      ensures budget == if ok then old(budget) - 1 else old(budget)
    {
      ok := budget > 0 && num in changePods;
      if ok {
        state := ExecPatch(state, num, phase, results);
        var stored := changePods[num];
        changePods := changePods[num := stored.(rv := nextRv, status := Patched(stored.status, phase, results))];
        nextRv, budget := nextRv + 1, budget - 1;
      }
    }

    method Delete(num: nat) returns (ok: bool)
      requires Valid()
      modifies this
      ensures Valid() && ok == (old(budget) > 0 && num in old(state).cps)
      ensures state == if ok then ExecDelete(old(state), num) else old(state)
      ensures budget == if ok then old(budget) - 1 else old(budget)
    {
      ok := budget > 0 && num in changePods;
      if ok {
        state := ExecDelete(state, num);
        changePods := changePods - {num};
        budget := budget - 1;
      }
    }

    /** Merge patch that sets the defence label of a pod. */
    method PatchPodLabel(name: string) returns (ok: bool)
      requires Valid()
      modifies this
      ensures Valid() && ok == (old(budget) > 0 && name in old(state).pods)
      ensures state == if ok then old(state).(pods := LabelPod(old(state).pods, name)) else old(state)
      ensures budget == if ok then old(budget) - 1 else old(budget)
    {
      ok := budget > 0 && name in pods;
      if ok {
        state := state.(pods := LabelPod(state.pods, name));
        pods := pods[name := pods[name].(defensed := true)];
        budget := budget - 1;
      }
    }
  }
}
