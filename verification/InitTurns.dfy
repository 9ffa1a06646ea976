/** What a turn of the init handler leaves behind, stated on the stored objects: which pods it labels and what
    it records, after every failing call, and with everything else interleaved. */
module InitTurns {
  import opened PodSummaries
  import opened Protocol
  import opened Safety
  import opened Arithmetic
  import opened Atomic
  import opened Batches

  // ---------------------------------------------------------------- labelling

  /** Exactly the named pods carry the label that they may not have had before. */
  ghost predicate LabelledOnly(before: map<string, Pod>, after: map<string, Pod>, names: seq<string>) {
    && after.Keys == before.Keys
    && forall p :: p in before ==> after[p] == if p in names then before[p].(defensed := true) else before[p]
  }

  /** The named pods whose label is still missing. */
  function Unlabelled(pods: map<string, Pod>, names: seq<string>): set<string> {
    set p | p in names && p in pods && !pods[p].defensed
  }

  /** How far a labelling gets: one pod after the other, up to the first that is gone, or that needs a write
      when none is left.  Every pod that lacks the label costs exactly one write. */
  lemma {:induction false} LabelRunExactly(pods: map<string, Pod>, todo: seq<string>, budget: nat) returns (done: nat)
    ensures var r := LabelRun(pods, todo, budget);
            && done <= |todo| && LabelledOnly(pods, r.pods, todo[..done])
            && (r.ok <==> done == |todo|) && r.left + |Unlabelled(pods, todo[..done])| == budget
            && (forall i :: 0 <= i < done ==> todo[i] in pods)
            && (done < |todo| && todo[done] in pods ==>
                  r.left == 0 && !pods[todo[done]].defensed && todo[done] !in todo[..done])
    decreases |todo|
  {
    if todo == [] || todo[0] !in pods || (!pods[todo[0]].defensed && budget == 0) {
      done := 0;
      assert Unlabelled(pods, todo[..0]) == {};
    } else {
      var p := todo[0];
      var first := if pods[p].defensed then pods else LabelPod(pods, p);
      var left := if pods[p].defensed then budget else budget - 1;
      var rest := LabelRunExactly(first, todo[1..], left);
      done := rest + 1;
      assert todo[..done] == [p] + todo[1..][..rest];
      FirstLabelled(pods, first, p, todo[1..][..rest]);
    }
  }

  lemma FirstLabelled(pods: map<string, Pod>, first: map<string, Pod>, p: string, rest: seq<string>)
    requires p in pods && first == if pods[p].defensed then pods else LabelPod(pods, p)
    ensures |Unlabelled(pods, [p] + rest)| == |Unlabelled(first, rest)| + if pods[p].defensed then 0 else 1
  {
    if pods[p].defensed {
      assert Unlabelled(pods, [p] + rest) == Unlabelled(first, rest);
    } else {
      assert Unlabelled(pods, [p] + rest) == Unlabelled(first, rest) + {p};
    }
  }

  lemma UnlabelledGrows(pods: map<string, Pod>, names: seq<string>, k: nat)
    requires k < |names| && names[k] in pods && !pods[names[k]].defensed && names[k] !in names[..k]
    ensures |Unlabelled(pods, names[..k])| < |Unlabelled(pods, names)|
  {
    SubsetCard(Unlabelled(pods, names[..k]), Unlabelled(pods, names) - {names[k]});
  }

  // ---------------------------------------------------------------- a turn on a recorded batch

  /** A turn on a ChangePod that has its batch labels the recorded pods, in order, up to the first that is gone
      or that needs a write when none is left.  It changes nothing else. */
  lemma RecoveryTurn(s: State, n: nat, order: seq<string>, budget: nat) returns (done: nat)
    requires n in s.cps && s.cps[n].podInfos != []
    ensures var infos, t := s.cps[n].podInfos, InitOutcome(s, n, order, budget);
            && t == s.(pods := t.pods) && done <= |infos|
            && LabelledOnly(s.pods, t.pods, PodNames(infos[..done]))
            && (forall i :: 0 <= i < done ==> infos[i].pod in s.pods)
            && |Unlabelled(s.pods, PodNames(infos[..done]))| <= budget
            && (done < |infos| && infos[done].pod in s.pods ==>
                  |Unlabelled(s.pods, PodNames(infos[..done]))| == budget
                  && infos[done].pod in Unlabelled(s.pods, PodNames(infos)))
  {
    var todo := PodNames(s.cps[n].podInfos);
    done := LabelRunExactly(s.pods, todo, budget);
    assert todo[..done] == PodNames(s.cps[n].podInfos[..done]);
    assert done < |todo| ==> todo[done] in todo;
  }

  /** Only pods changed, and all recorded pods are labelled exactly if all are still there and as many writes
      succeed as labels are missing. */
  ghost predicate Relabelled(s: State, t: State, infos: seq<PodSummary>, budget: nat) {
    && t == s.(pods := t.pods)
    && ((forall p :: p in NamesOf(infos) ==> p in t.pods && t.pods[p].defensed) <==>
          NamesOf(infos) <= s.pods.Keys && |Unlabelled(s.pods, PodNames(infos))| <= budget)
  }

  lemma RecoveryCompletesExactly(s: State, n: nat, order: seq<string>, budget: nat)
    requires n in s.cps && s.cps[n].podInfos != []
    ensures Relabelled(s, InitOutcome(s, n, order, budget), s.cps[n].podInfos, budget)
  {
    var infos, t := s.cps[n].podInfos, InitOutcome(s, n, order, budget);
    var todo := PodNames(infos);
    var done := LabelRunExactly(s.pods, todo, budget);
    if done == |infos| {
      assert todo[..done] == todo;
      assert forall p :: p in NamesOf(infos) ==> p in todo;
    } else {
      assert todo[done] in todo && todo[done] in NamesOf(infos);
      if todo[done] in s.pods {
        UnlabelledGrows(s.pods, todo, done);
      }
    }
  }

  // ---------------------------------------------------------------- a turn on a ChangePod without a batch

  /** Without an undefended pod the turn deletes its ChangePod, if the call succeeds, and nothing else. */
  lemma EmptyTurnDeletes(s: State, n: nat, order: seq<string>, budget: nat)
    requires n in s.cps && s.cps[n].podInfos == [] && Enumerates(order, s.pods.Keys) && UndefensedSet(s.pods) == {}
    ensures var t := InitOutcome(s, n, order, budget);
            && t.pods == s.pods && t.cps == if budget == 0 then s.cps else s.cps - {n}
  {
    FilterCount(order, s.pods);
  }

  /** The batch recorded for a listing: as many of the undefended pods as the threshold allows, in the order of
      the listing, each once, described as it is. */
  ghost predicate FrontOf(cfg: Config, pods: map<string, Pod>, order: seq<string>, batch: seq<PodSummary>) {
    && |batch| == (if |UndefensedSet(pods)| > cfg.threshold then cfg.threshold else |UndefensedSet(pods)|)
    && DistinctNames(batch) && NamesOf(batch) <= UndefensedSet(pods)
    && (forall i, j :: 0 <= i < j < |order| && order[j] in NamesOf(batch) && order[i] in UndefensedSet(pods) ==>
          order[i] in NamesOf(batch))
    && (forall x :: x in batch ==>
          && x.pod in pods && x.ip == pods[x.pod].ip && x.hostname == x.pod
          && x.app == cfg.deployment && x.ns == cfg.ns && x.workspace == "default"
          && x.verdict == "" && x.message == "")
  }

  /** What is kept of a listing, element by element. */
  lemma FilterFront(order: seq<string>, pods: map<string, Pod>, n: nat)
    requires order != []
    ensures var f, g := Take(FilterUndefensed(order, pods), n), FilterUndefensed(order[1..], pods);
            if Undefensed(pods, order[0]) then
              forall y :: y in f <==> n > 0 && (y == order[0] || y in Take(g, n - 1))
            else f == Take(g, n)
  {
    TakeTail(order[0], FilterUndefensed(order[1..], pods), n);
  }

  /** The filtered listing keeps the order of the listing. */
  lemma {:induction false} FilterOrder(order: seq<string>, pods: map<string, Pod>, n: nat, i: nat, j: nat)
    requires Distinct(order) && i < j < |order| && order[i] in UndefensedSet(pods)
    requires order[j] in Take(FilterUndefensed(order, pods), n)
    ensures order[i] in Take(FilterUndefensed(order, pods), n)
    decreases |order|
  {
    var tail := order[1..];
    assert tail[j - 1] == order[j] && order[j] != order[0];
    assert i > 0 ==> tail[i - 1] == order[i];
    FilterFront(order, pods, n);
    if i > 0 {
      FilterOrder(tail, pods, if Undefensed(pods, order[0]) then n - 1 else n, i - 1, j - 1);
    }
  }

  lemma TakeTail(x: string, rest: seq<string>, n: nat)
    ensures Take([x] + rest, n) == if n == 0 then [] else [x] + Take(rest, n - 1)
    ensures forall y :: y in Take([x] + rest, n) <==> n > 0 && (y == x || y in Take(rest, n - 1))
  {
  }

  lemma BatchIsFront(cfg: Config, pods: map<string, Pod>, order: seq<string>)
    requires Enumerates(order, pods.Keys)
    ensures FrontOf(cfg, pods, order, Batch(cfg, pods, order))
  {
    var batch := Batch(cfg, pods, order);
    var names := Take(FilterUndefensed(order, pods), cfg.threshold);
    BatchProperties(cfg, pods, order);
    FilterCount(order, pods);
    NamesOfBatch(cfg, names, pods);
    forall i, j | 0 <= i < j < |order| && order[j] in NamesOf(batch) && order[i] in UndefensedSet(pods)
      ensures order[i] in NamesOf(batch)
    {
      FilterOrder(order, pods, cfg.threshold, i, j);
    }
  }

  lemma NamesOfBatch(cfg: Config, names: seq<string>, pods: map<string, Pod>)
    requires forall p :: p in names ==> p in pods
    ensures forall p :: p in NamesOf(Summaries(cfg, names, pods)) <==> p in names
    ensures forall x :: x in Summaries(cfg, names, pods) ==> x == Summary(cfg, x.pod, pods[x.pod].ip)
  {
    var batch := Summaries(cfg, names, pods);
    forall p | p in names ensures p in NamesOf(batch) {
      var i :| 0 <= i < |names| && names[i] == p;
      assert batch[i] in batch && batch[i].pod == p;
    }
  }

  /** What `budget` writes of a recording turn amount to: the batch is recorded, its pods are labelled one by
      one, and only after the last of them does the ChangePod move on to PreWait. */
  ghost predicate Recording(s: State, t: State, n: nat, order: seq<string>, budget: nat)
    requires n in s.cps && budget > 0
  {
    && t.cps.Keys == s.cps.Keys && (forall m :: m in s.cps && m != n ==> t.cps[m] == s.cps[m])
    && var batch := t.cps[n].podInfos;
       var done := if budget - 1 < |batch| then budget - 1 else |batch|;
       && FrontOf(s.cfg, s.pods, order, batch) && LabelledOnly(s.pods, t.pods, PodNames(batch[..done]))
       && t.cps[n].status == if budget < |batch| + 2 then s.cps[n].status else s.cps[n].status.(phase := PreWait)
  }

  /** A turn on a ChangePod without its batch, cut short after any call. */
  lemma RecordingTurn(s: State, n: nat, order: seq<string>, budget: nat)
    requires n in s.cps && s.cps[n].podInfos == []
    requires Enumerates(order, s.pods.Keys) && UndefensedSet(s.pods) != {}
    ensures var t := InitOutcome(s, n, order, budget);
            if budget == 0 then t == s else Recording(s, t, n, order, budget)
  {
    var batch := Batch(s.cfg, s.pods, order);
    PlansBatch(s, n, order, budget);
    if budget > 0 {
      BatchIsFront(s.cfg, s.pods, order);
      RecordsFront(s, n, order, batch, budget);
    }
  }

  lemma RecordsFront(s: State, n: nat, order: seq<string>, batch: seq<PodSummary>, budget: nat)
    requires n in s.cps && budget > 0 && FrontOf(s.cfg, s.pods, order, batch)
    ensures Recording(s, RecordAndLabel(s, n, batch, budget - 1), n, order, budget)
  {
    FreshLabels(s.pods, batch, budget - 1);
    RecordShape(s, n, batch, budget - 1);
    var r := LabelRun(s.pods, PodNames(batch), budget - 1);
    RecordedSoFar(s, RecordAndLabel(s, n, batch, budget - 1), n, order, batch, budget, r);
  }

  lemma RecordedSoFar(s: State, t: State, n: nat, order: seq<string>, batch: seq<PodSummary>, budget: nat, r: Labelling)
    requires n in s.cps && budget > 0 && FrontOf(s.cfg, s.pods, order, batch)
    requires t.cps.Keys == s.cps.Keys && (forall m :: m in s.cps && m != n ==> t.cps[m] == s.cps[m])
    requires t.cps[n].podInfos == batch && t.pods == r.pods
    requires t.cps[n].status == if r.ok && r.left > 0 then s.cps[n].status.(phase := PreWait) else s.cps[n].status
    requires var done := if budget - 1 < |batch| then budget - 1 else |batch|;
             && LabelledOnly(s.pods, r.pods, PodNames(batch[..done]))
             && (r.ok <==> done == |batch|) && r.left == budget - 1 - done
    ensures Recording(s, t, n, order, budget)
  {
  }

  lemma PlansBatch(s: State, n: nat, order: seq<string>, budget: nat)
    requires n in s.cps && s.cps[n].podInfos == []
    requires Enumerates(order, s.pods.Keys) && UndefensedSet(s.pods) != {}
    ensures InitOutcome(s, n, order, budget)
         == if budget == 0 then s else RecordAndLabel(s, n, Batch(s.cfg, s.pods, order), budget - 1)
  {
    FilterCount(order, s.pods);
  }

  lemma RecordShape(s: State, n: nat, batch: seq<PodSummary>, budget: nat)
    requires n in s.cps
    ensures var t, r := RecordAndLabel(s, n, batch, budget), LabelRun(s.pods, PodNames(batch), budget);
            && t.cps.Keys == s.cps.Keys && (forall m :: m in s.cps && m != n ==> t.cps[m] == s.cps[m])
            && t.cps[n].podInfos == batch && t.pods == r.pods
            && t.cps[n].status == if r.ok && r.left > 0 then s.cps[n].status.(phase := PreWait) else s.cps[n].status
  {
  }

  /** Labelling a batch of undefended pods costs one write for each of them. */
  lemma FreshLabels(pods: map<string, Pod>, batch: seq<PodSummary>, budget: nat)
    requires DistinctNames(batch) && NamesOf(batch) <= UndefensedSet(pods)
    ensures var r := LabelRun(pods, PodNames(batch), budget);
            var done := if budget < |batch| then budget else |batch|;
            && LabelledOnly(pods, r.pods, PodNames(batch[..done]))
            && (r.ok <==> done == |batch|) && r.left == budget - done
  {
    var todo := PodNames(batch);
    var done := LabelRunExactly(pods, todo, budget);
    forall i | 0 <= i < |todo| ensures todo[i] in UndefensedSet(pods) {
      assert batch[i] in batch;
    }
    assert Unlabelled(pods, todo[..done]) == NamesOf(batch[..done]);
    NamesCount(batch[..done]);
    assert todo[..done] == PodNames(batch[..done]);
  }

  // ---------------------------------------------------------------- the same, interleaved with everything else

  ghost predicate OnlyLabels(steps: seq<Step>) {
    forall i :: 0 <= i < |steps| ==> steps[i].Exec? && steps[i].op.LabelOp?
  }

  lemma RunCons(s: State, step: Step, rest: seq<Step>, t: State)
    requires Enabled(s, step) && CarefulStep(s, step) && CarefulRun(Apply(s, step), rest, t)
    ensures CarefulRun(s, [step] + rest, t)
  {
    assert ([step] + rest)[1..] == rest;
  }

  lemma LabelledNext(pods: map<string, Pod>, p: string, after: map<string, Pod>, rest: seq<string>)
    requires p in pods && LabelledOnly(LabelPod(pods, p), after, rest)
    ensures LabelledOnly(pods, after, [p] + rest)
  {
  }

  /** What a label write leaves when it runs to its end: it gives up at a pod that is gone. */
  function AllSet(pods: map<string, Pod>, todo: seq<string>): map<string, Pod> {
    if todo == [] || todo[0] !in pods then pods else AllSet(LabelPod(pods, todo[0]), todo[1..])
  }

  lemma {:induction false} AllSetExactly(pods: map<string, Pod>, todo: seq<string>) returns (done: nat)
    ensures done <= |todo| && LabelledOnly(pods, AllSet(pods, todo), todo[..done])
    ensures forall i :: 0 <= i < done ==> todo[i] in pods
    ensures done < |todo| ==> todo[done] !in pods
  {
    done := 0;
    if todo != [] && todo[0] in pods {
      var rest := AllSetExactly(LabelPod(pods, todo[0]), todo[1..]);
      LabelledNext(pods, todo[0], AllSet(pods, todo), todo[1..][..rest]);
      done := rest + 1;
      assert todo[..done] == [todo[0]] + todo[1..][..rest];
    }
  }

  lemma {:induction false} LabelWriteRuns(s: State, n: nat, read: ChangePod, todo: seq<string>)
    returns (steps: seq<Step>)
    requires LabelOp(n, read, todo, false) in s.pending
    ensures OnlyLabels(steps)
    ensures CarefulRun(s, steps, s.(pods := AllSet(s.pods, todo),
                                    pending := s.pending - multiset{LabelOp(n, read, todo, false)}))
    decreases |todo|
  {
    var op := LabelOp(n, read, todo, false);
    var u := Apply(s, Exec(op));
    var t := s.(pods := AllSet(s.pods, todo), pending := s.pending - multiset{op});
    var rest := [];
    if todo != [] && todo[0] in s.pods {
      rest := LabelWriteRuns(u, n, read, todo[1..]);
      assert u.pending - multiset{LabelOp(n, read, todo[1..], false)} == s.pending - multiset{op};
    }
    RunCons(s, Exec(op), rest, t);
    steps := [Exec(op)] + rest;
  }

  /** In the protocol, however old the read and whatever else is in flight: once a turn has read a recorded
      batch, its label writes can run to their end, and then the recorded pods before the first that is gone
      have their label, and nothing else has changed. */
  lemma RecoveryRun(s: State, k: nat, n: nat, order: seq<string>) returns (steps: seq<Step>, t: State, done: nat)
    requires Enabled(s, InitTurn(k, n, order)) && s.history[k][n].podInfos != []
    ensures CarefulRun(s, [InitTurn(k, n, order)] + steps, t) && OnlyLabels(steps)
    ensures var infos := s.history[k][n].podInfos;
            && t == s.(pods := t.pods) && done <= |infos|
            && LabelledOnly(s.pods, t.pods, PodNames(infos[..done]))
            && (forall i :: 0 <= i < done ==> infos[i].pod in s.pods)
            && (done < |infos| ==> infos[done].pod !in s.pods)
  {
    var read := s.history[k][n];
    var todo := PodNames(read.podInfos);
    t := s.(pods := AllSet(s.pods, todo));
    done := AllSetExactly(s.pods, todo);
    assert todo[..done] == PodNames(read.podInfos[..done]);
    steps := RecoverySteps(s, k, n, order, t);
  }

  lemma RecoverySteps(s: State, k: nat, n: nat, order: seq<string>, t: State) returns (steps: seq<Step>)
    requires Enabled(s, InitTurn(k, n, order)) && s.history[k][n].podInfos != []
    requires t == s.(pods := AllSet(s.pods, PodNames(s.history[k][n].podInfos)))
    ensures CarefulRun(s, [InitTurn(k, n, order)] + steps, t) && OnlyLabels(steps)
  {
    var u := Apply(s, InitTurn(k, n, order));
    var op := LabelOp(n, s.history[k][n], PodNames(s.history[k][n].podInfos), false);
    assert u == Issue(s, op) && u.pending - multiset{op} == s.pending;
    steps := LabelWriteRuns(u, n, op.read, op.todo);
    RunCons(s, InitTurn(k, n, order), steps, t);
  }

  /** A label write for `n` is in flight that still has every missing label of its batch to set. */
  ghost predicate Promised(s: State, n: nat) {
    exists op :: op in s.pending && Promises(s, n, op)
  }

  ghost predicate Promises(s: State, n: nat, op: Op) {
    && op.LabelOp? && op.num == n && n in s.cps
    && forall p :: p in NamesOf(s.cps[n].podInfos) ==> p in op.todo || (p in s.pods && s.pods[p].defensed)
  }

  ghost predicate AllLabelled(s: State, n: nat) {
    n in s.cps && forall p :: p in NamesOf(s.cps[n].podInfos) ==> p in s.pods && s.pods[p].defensed
  }

  /** No label write for `n` is lost, and none of the named pods is deleted. */
  ghost predicate Undisturbed(step: Step, n: nat, names: set<string>) {
    match step
    case Drop(op) => !(op.LabelOp? && op.num == n)
    case RemovePod(p) => p !in names
    case _ => true
  }

  ghost predicate AllUndisturbed(steps: seq<Step>, n: nat, names: set<string>) {
    forall i :: 0 <= i < |steps| ==> Undisturbed(steps[i], n, names)
  }

  /** The batch of `n` is recorded for good, its pods are there, and their labels are set or on their way. */
  ghost predicate OnTheWay(s: State, n: nat, names: set<string>) {
    && n in s.cps && s.cps[n].Settled() && NamesOf(s.cps[n].podInfos) == names && names <= s.pods.Keys
    && (Promised(s, n) || AllLabelled(s, n))
  }

  /** Labels stay, and so do the named pods. */
  lemma LabelsStay(s: State, step: Step, n: nat, names: set<string>)
    requires Inv(s) && Enabled(s, step) && Undisturbed(step, n, names) && names <= s.pods.Keys
    ensures names <= Apply(s, step).pods.Keys
    ensures forall p :: p in names && s.pods[p].defensed ==> Apply(s, step).pods[p].defensed
  {
    if step.Exec? {
      PodsKept(Consume(s, step.op), step.op);
    }
  }

  lemma PodsKept(s: State, op: Op)
    ensures Execute(s, op).pods.Keys == s.pods.Keys
    ensures forall p :: p in s.pods && s.pods[p].defensed ==> Execute(s, op).pods[p].defensed
  {
  }

  /** The write that promises the labels goes on with the rest of them. */
  lemma PromiseGoesOn(s: State, n: nat, op: Op, names: set<string>)
    requires Inv(s) && op in s.pending && Promises(s, n, op) && OnTheWay(s, n, names)
    requires s.cps[n].podInfos == op.read.podInfos
    ensures Promised(Apply(s, Exec(op)), n) || AllLabelled(Apply(s, Exec(op)), n)
  {
    var t := Apply(s, Exec(op));
    assert t.cps == s.cps && OpOk(s, op);
    if op.todo != [] {
      assert op.todo[0] in op.todo && op.todo[0] in names;
      var next := LabelOp(op.num, op.read, op.todo[1..], op.finish);
      assert next in t.pending;
      forall p | p in names ensures p in next.todo || t.pods[p].defensed {
        assert p in op.todo ==> p == op.todo[0] || p in op.todo[1..];
      }
      assert Promises(t, n, next);
    }
  }

  lemma StepOnTheWay(s: State, step: Step, n: nat, names: set<string>)
    requires Inv(s) && Enabled(s, step) && CarefulStep(s, step) && Undisturbed(step, n, names)
    requires OnTheWay(s, n, names)
    ensures OnTheWay(Apply(s, step), n, names)
  {
    var t := Apply(s, step);
    StepKeepsInv(s, step);
    BatchStays(s, step, n);
    LabelsStay(s, step, n, names);
    if !AllLabelled(s, n) {
      var op :| op in s.pending && Promises(s, n, op);
      if step == Exec(op) {
        assert OpOk(s, op);
        PromiseGoesOn(s, n, op, names);
      } else {
        StillPending(s, step, op);
        assert Promises(t, n, op);
      }
    }
  }

  lemma BatchStays(s: State, step: Step, n: nat)
    requires Inv(s) && Enabled(s, step) && CarefulStep(s, step) && n in s.cps && s.cps[n].Settled()
    ensures var t := Apply(s, step); n in t.cps && t.cps[n].Settled() && t.cps[n].podInfos == s.cps[n].podInfos
  {
    var run := OneStep(s, step);
    PastIsSeen(s, run, Apply(s, step), n);
  }

  lemma StillPending(s: State, step: Step, op: Op)
    requires Enabled(s, step) && op in s.pending && step != Exec(op) && step != Drop(op)
    ensures op in Apply(s, step).pending
  {
    if step.Exec? {
      PendingGrows(Consume(s, step.op), step.op);
    }
  }

  lemma PendingGrows(s: State, op: Op)
    ensures s.pending <= Execute(s, op).pending
  {
  }

  lemma {:induction false} RunOnTheWay(s: State, steps: seq<Step>, t: State, n: nat, names: set<string>)
    requires Inv(s) && OnTheWay(s, n, names) && CarefulRun(s, steps, t) && AllUndisturbed(steps, n, names)
    ensures OnTheWay(t, n, names)
    decreases |steps|
  {
    if steps != [] {
      StepOnTheWay(s, steps[0], n, names);
      StepKeepsInv(s, steps[0]);
      RunOnTheWay(Apply(s, steps[0]), steps[1..], t, n, names);
    }
  }

  /** Recovery reaches every pod: after a turn has read a recorded batch all of whose pods are there, along
      every run in which no label write for it is lost and none of its pods is deleted, however everything
      interleaves, all pods have their label as soon as no label write for it is in flight. */
  lemma RecoveryReachesAll(s: State, k: nat, n: nat, order: seq<string>, steps: seq<Step>, t: State)
    requires Inv(s) && Enabled(s, InitTurn(k, n, order)) && s.history[k][n].podInfos != []
    requires NamesOf(s.history[k][n].podInfos) <= s.pods.Keys
    requires CarefulRun(Apply(s, InitTurn(k, n, order)), steps, t)
    requires AllUndisturbed(steps, n, NamesOf(s.history[k][n].podInfos))
    ensures n in t.cps && t.cps[n].podInfos == s.history[k][n].podInfos
    ensures (forall op :: op in t.pending && op.LabelOp? ==> op.num != n) ==>
              forall p :: p in NamesOf(t.cps[n].podInfos) ==> p in t.pods && t.pods[p].defensed
  {
    var read := s.history[k][n];
    var u := Apply(s, InitTurn(k, n, order));
    ReadIsSeen(s, k, n);
    var op := LabelOp(n, read, PodNames(read.podInfos), false);
    assert op in u.pending && Promises(u, n, op);
    StepKeepsInv(s, InitTurn(k, n, order));
    RunOnTheWay(u, steps, t, n, NamesOf(read.podInfos));
    PastIsSeen(u, steps, t, n);
  }
}
