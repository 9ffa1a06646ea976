/** Inputs and runs on which the code does less than its intent: what the conditions of the theorems
    exclude does happen. */
module Counterexamples {
  import opened Options
  import opened PodSummaries
  import opened Protocol
  import opened Safety
  import opened Atomic
  import opened Batches
  import opened Verdicts
  import opened Scheduling
  import opened Wakeups
  import opened Concurrency
  import opened ConcurrentWakeups

  /** A read of the last recorded content is a read of the store. */
  ghost predicate Current(s: State) {
    |s.history| > 0 && s.history[|s.history| - 1] == s.cps
  }

  // ---------------------------------------------------------------- a delete on a stale read

  lemma {:induction false} RunThen(s: State, steps: seq<Step>, t: State, step: Step)
    requires RunsTo(s, steps, t) && Enabled(t, step)
    ensures RunsTo(s, steps + [step], Apply(t, step))
    decreases |steps|
  {
    var all := steps + [step];
    if steps == [] {
      assert all[1..] == [];
    } else {
      assert all[0] == steps[0] && all[1..] == steps[1..] + [step];
      RunThen(Apply(s, steps[0]), steps[1..], t, step);
    }
  }

  lemma FinishOnePod(s: State, p: string, ip: string) returns (steps: seq<Step>, t: State)
    requires Initial(s) && s.pods == map[] && p !in s.used
    ensures CarefulRun(s, steps, t) && t == s.(pods := map[p := Pod(ip, true, false)], used := s.used + {p})
  {
    var a := Apply(s, AddPod(p, ip));
    t := Apply(a, FinishPod(p));
    var first := OneStep(s, AddPod(p, ip));
    var second := OneStep(a, FinishPod(p));
    steps := RunJoin(s, first, a, second, t);
  }

  lemma CreateFirst(s: State, p: string, ip: string) returns (t: State)
    requires s.pods == map[p := Pod(ip, true, false)] && s.cps == map[] && s.cfg.threshold == 1
    requires s.history == [map[]]
    ensures t == CreateOutcome(s, true) && t.cfg == s.cfg && t.pending == s.pending && t.pods == s.pods
    ensures t.cps == map[1 := ChangePod(s.nextRv, [], NEW_STATUS)] && t.history == [map[], t.cps]
  {
    assert UndefensedSet(s.pods) == {p};
    t := CreateOutcome(s, true);
  }

  lemma TwoMore(s: State, steps: seq<Step>, t: State, plan: Step, op: Op) returns (all: seq<Step>)
    requires RunsTo(s, steps, t) && Enabled(t, plan) && Apply(t, plan) == Issue(t, op)
    ensures Enabled(Issue(t, op), Exec(op)) && RunsTo(s, all, Apply(Issue(t, op), Exec(op)))
  {
    RunThen(s, steps, t, plan);
    RunThen(s, steps + [plan], Issue(t, op), Exec(op));
    all := steps + [plan] + [Exec(op)];
  }

  /** The only pod finishes and the first ChangePod is created for it. */
  lemma CreateForOnePod(s: State, p: string, ip: string) returns (steps: seq<Step>, t: State)
    requires Initial(s) && s.pods == map[] && s.cfg.threshold == 1 && p !in s.used
    ensures CarefulRun(s, steps, t) && t.cfg == s.cfg && t.pending == multiset{} && Inv(t)
    ensures t.pods == map[p := Pod(ip, true, false)] && t.cps == map[1 := ChangePod(s.nextRv, [], NEW_STATUS)]
    ensures t.history == [map[], t.cps]
  {
    var b: State;
    steps, b := FinishOnePod(s, p, ip);
    InitialInv(s);
    RunKeepsInv(s, steps, b);
    t := CreateFirst(b, p, ip);
    var rest := CreateOutcomeIsRun(b, true);
    RunKeepsInv(b, rest, t);
    steps := RunJoin(s, steps, b, rest, t);
  }

  lemma InitOnePod(s: State, p: string, ip: string) returns (t: State)
    requires s.pods == map[p := Pod(ip, true, false)] && s.cfg.threshold == 1
    requires 1 in s.cps && s.cps[1].podInfos == []
    ensures t == InitOutcome(s, 1, [p], 3)
    ensures t.pods == map[p := Pod(ip, true, true)] && t.cps.Keys == s.cps.Keys && RecordedIn(t, p, 1)
    ensures t.cps[1].status.phase == PreWait && s.history <= t.history && t.pending == s.pending && t.cfg == s.cfg
  {
    var order := [p];
    assert order[1..] == [];
    assert FilterUndefensed(order, s.pods) == [p];
    var batch := Batch(s.cfg, s.pods, order);
    assert PodNames(batch) == [p] && PodNames(batch)[1..] == [];
    t := InitOutcome(s, 1, order, 3);
    assert t == RecordAndLabel(s, 1, batch, 2);
    assert LabelRun(s.pods, [p], 2) == Labelling(LabelPod(s.pods, p), 1, true);
    assert batch[0].pod == p && t.cps[1].podInfos == batch;
  }

  /** A crash between recording the batch and labelling its pod interrupts the initialisation. */
  lemma InterruptOnePod(s: State, p: string, ip: string) returns (t: State)
    requires s.pods == map[p := Pod(ip, true, false)] && s.cfg.threshold == 1 && s.pending == multiset{}
    requires 1 in s.cps && s.cps[1] == ChangePod(s.cps[1].rv, [], NEW_STATUS)
    ensures t == InitOutcome(s, 1, [p], 1) && Interrupted(t, 1) && t.cps.Keys == s.cps.Keys
  {
    var order := [p];
    assert order[1..] == [];
    assert FilterUndefensed(order, s.pods) == [p];
    var batch := Batch(s.cfg, s.pods, order);
    assert PodNames(batch) == [p];
    t := InitOutcome(s, 1, order, 1);
    assert t == RecordAndLabel(s, 1, batch, 0);
    assert LabelRun(s.pods, [p], 0) == Labelling(s.pods, 0, false);
  }

  lemma CrashRun(s: State, p: string, ip: string) returns (steps: seq<Step>, t: State)
    requires Initial(s) && s.pods == map[] && s.cfg.threshold == 1 && p !in s.used
    ensures CarefulRun(s, steps, t) && Interrupted(t, 1) && Inv(t) && t.cps.Keys == {1}
  {
    var first, a := CreateForOnePod(s, p, ip);
    t := InterruptOnePod(a, p, ip);
    var second := InitOutcomeIsRun(a, 1, [p], 1);
    steps := RunJoin(s, first, a, second, t);
    RunKeepsInv(a, second, t);
  }

  /** Such an interruption is reachable; from then on no ChangePod is ever created again. */
  lemma CrashInterruptsForGood(s: State, p: string, ip: string) returns (steps: seq<Step>, t: State)
    requires Initial(s) && s.pods == map[] && s.cfg.threshold == 1 && p !in s.used
    ensures CarefulRun(s, steps, t) && Interrupted(t, 1) && Inv(t)
    ensures forall more, end :: CarefulRun(t, more, end) ==> end.cps.Keys == {1} && end.cps[1] == t.cps[1]
  {
    steps, t := CrashRun(s, p, ip);
    forall more, end | CarefulRun(t, more, end)
      ensures end.cps.Keys == {1} && end.cps[1] == t.cps[1]
    {
      InterruptedInitBlocksForever(t, more, end, 1);
    }
  }

  /** The pod is deleted between the recording of the batch and its label. */
  lemma DeletePodInBatch(s: State, p: string, ip: string) returns (a: Step, b: Op, c: Step, t: State)
    requires s.pods == map[p := Pod(ip, true, false)] && s.cfg.threshold == 1 && s.pending == multiset{}
    requires Current(s) && 1 in s.cps && s.cps.Keys == {1} && s.cps[1] == ChangePod(s.cps[1].rv, [], NEW_STATUS)
    ensures Enabled(s, a) && Apply(s, a) == Issue(s, b) && b.SpecOp?
    ensures Enabled(Execute(s, b), c) && c.RemovePod? && t == Apply(Execute(s, b), c) && Interrupted(t, 1)
  {
    var order := [p];
    assert order[1..] == [];
    assert FilterUndefensed(order, s.pods) == [p];
    var batch := Batch(s.cfg, s.pods, order);
    assert PodNames(batch) == [p] && batch != [];
    a := InitTurn(|s.history| - 1, 1, order);
    b := SpecOp(1, s.cps[1], batch);
    c := RemovePod(p);
    t := Apply(Execute(s, b), c);
    assert t.pending == multiset{LabelOp(1, t.cps[1], [p], true)};
    assert p in [p];
  }

  /** No write has to be lost for that: if a pod of a batch is deleted before it is labelled, the ChangePod
      stays in ExecuteInit and no other is ever created. */
  lemma PodDeletionInterruptsForGood(s: State, p: string, ip: string) returns (steps: seq<Step>, t: State)
    requires Initial(s) && s.pods == map[] && s.cfg.threshold == 1 && p !in s.used
    ensures CarefulRun(s, steps, t) && Interrupted(t, 1) && Inv(t)
    ensures forall more, end :: CarefulRun(t, more, end) ==> end.cps.Keys == {1} && end.cps[1] == t.cps[1]
  {
    steps, t := DeletionRun(s, p, ip);
    forall more, end | CarefulRun(t, more, end)
      ensures end.cps.Keys == {1} && end.cps[1] == t.cps[1]
    {
      InterruptedInitBlocksForever(t, more, end, 1);
    }
  }

  lemma DeletionRun(s: State, p: string, ip: string) returns (steps: seq<Step>, t: State)
    requires Initial(s) && s.pods == map[] && s.cfg.threshold == 1 && p !in s.used
    ensures CarefulRun(s, steps, t) && Interrupted(t, 1) && Inv(t) && t.cps.Keys == {1}
  {
    var first, a := CreateForOnePod(s, p, ip);
    var second, end := DeletionAfter(a, p, ip);
    t := end;
    RunKeepsInv(a, second, t);
    steps := RunJoin(s, first, a, second, t);
  }

  lemma DeletionAfter(s: State, p: string, ip: string) returns (steps: seq<Step>, t: State)
    requires s.pods == map[p := Pod(ip, true, false)] && s.cfg.threshold == 1 && s.pending == multiset{}
    requires Current(s) && 1 in s.cps && s.cps.Keys == {1} && s.cps[1] == ChangePod(s.cps[1].rv, [], NEW_STATUS)
    ensures CarefulRun(s, steps, t) && Interrupted(t, 1) && t.cps.Keys == {1}
  {
    var x, y, z, end := DeletePodInBatch(s, p, ip);
    t := end;
    var second := WriteIsRun(s, x, y);
    var third := OneStep(Execute(s, y), z);
    steps := RunJoin(s, second, Execute(s, y), third, t);
    InitRunKeys(s, y, z);
  }

  lemma InitRunKeys(s: State, op: Op, step: Step)
    requires s.cps.Keys == {1} && op.SpecOp? && Enabled(Execute(s, op), step) && step.RemovePod?
    ensures Apply(Execute(s, op), step).cps.Keys == {1}
  {
  }

  /** An init turn that reads the ChangePod as it was before it got its batch deletes it. */
  lemma LateTurn(s: State, p: string, ip: string, read: ChangePod) returns (late: Step, end: State)
    requires s.pods == map[p := Pod(ip, true, true)] && s.cps.Keys == {1}
    requires |s.history| > 1 && s.history[1] == map[1 := read] && read.Init() && read.podInfos == []
    ensures Enabled(s, late) && Apply(s, late) == Issue(s, DeleteOp(1, read))
    ensures end == Apply(Issue(s, DeleteOp(1, read)), Exec(DeleteOp(1, read))) && end.cps == map[] && Orphan(end, p)
  {
    late := InitTurn(1, 1, [p]);
    assert [p][1..] == [];
    assert FilterUndefensed([p], s.pods) == [];
    end := Apply(Issue(s, DeleteOp(1, read)), Exec(DeleteOp(1, read)));
    assert end.cps.Keys == {};
    assert forall i :: !RecordedIn(end, p, i);
  }

  lemma RecordedRun(s: State, p: string, ip: string) returns (steps: seq<Step>, a: State, b: State)
    requires Initial(s) && s.pods == map[] && s.cfg.threshold == 1 && p !in s.used
    ensures RunsTo(s, steps, b) && b.pods == map[p := Pod(ip, true, true)] && b.cps.Keys == {1}
    ensures a.cps == map[1 := ChangePod(s.nextRv, [], NEW_STATUS)] && |b.history| > 1 && b.history[1] == a.cps
  {
    var first;
    first, a := CreateForOnePod(s, p, ip);
    b := InitOnePod(a, p, ip);
    var second := InitOutcomeIsRun(a, 1, [p], 3);
    steps := JoinedRun(s, first, a, second, b);
  }

  lemma JoinedRun(s: State, first: seq<Step>, a: State, second: seq<Step>, b: State) returns (steps: seq<Step>)
    requires CarefulRun(s, first, a) && CarefulRun(a, second, b)
    ensures RunsTo(s, steps, b)
  {
    steps := RunJoin(s, first, a, second, b);
    CarefulRunIsRun(s, steps, b);
  }

  /** A delete planned on a stale read of the ChangePod orphans a labelled pod: the pod carries the
      defence label, but no ChangePod records it, so it will never be checked. */
  lemma StaleDeleteOrphansAPod(s: State, p: string, ip: string) returns (steps: seq<Step>, end: State)
    requires Initial(s) && s.pods == map[] && s.cfg.threshold == 1 && p !in s.used
    ensures RunsTo(s, steps, end) && end.cps == map[] && Orphan(end, p)
  {
    var a, b: State;
    steps, a, b := RecordedRun(s, p, ip);
    var late: Step;
    late, end := LateTurn(b, p, ip, a.cps[1]);
    steps := TwoMore(s, steps, b, late, DeleteOp(1, a.cps[1]));
  }

  // ---------------------------------------------------------------- a callback on a stale read

  ghost predicate At(s: State, n: nat, phase: Phase) {
    Current(s) && n in s.cps && s.cps[n].status.phase == phase
  }

  lemma Delivery(s: State, n: nat, read: ChangePod) returns (receive: Step)
    requires Current(s) && n in s.cps && s.cps[n] == read && read.status.phase == PreSubmitted
    ensures Enabled(s, receive) && !receive.Exec? && Apply(s, receive) == Issue(s, PatchOp(n, read, PostWait, None))
  {
    receive := Receive(|s.history| - 1, n, Pre, "", "");
  }

  lemma PatchLands(s: State, n: nat, patch: Op)
    requires n in s.cps && patch in s.pending && patch.PatchOp? && patch.num == n
    ensures At(Execute(s, patch), n, patch.phase) && Execute(s, patch).pending == s.pending
  {
  }

  /** The callback is delivered twice; one patch lands at once, the other is still under way. */
  lemma DeliveredTwice(s: State, n: nat) returns (steps: seq<Step>, t: State, patch: Op)
    requires At(s, n, PreSubmitted)
    ensures CarefulRun(s, steps, t) && At(t, n, PostWait) && patch in t.pending
    ensures patch == PatchOp(n, s.cps[n], PostWait, None)
  {
    patch := PatchOp(n, s.cps[n], PostWait, None);
    var s1 := Issue(s, patch);
    var first := Delivery(s, n, s.cps[n]);
    var second := Delivery(s1, n, s.cps[n]);
    var delayed := OneStep(s, first);
    var prompt := WriteIsRun(s1, second, patch);
    t := Execute(s1, patch);
    PatchLands(s1, n, patch);
    steps := RunJoin(s, delayed, s1, prompt, t);
  }

  /** The notification after the change is refused, and the ChangePod is finished. */
  lemma Finished(s: State, n: nat) returns (steps: seq<Step>, t: State)
    requires At(s, n, PostWait)
    ensures CarefulRun(s, steps, t) && At(t, n, ExecuteDone) && t.pending == s.pending
  {
    var a, mid := TurnRun(s, n, Refused);
    var b, end := TurnRun(mid, n, Refused);
    t := end;
    steps := RunJoin(s, a, mid, b, t);
  }

  lemma Reopens(s: State, n: nat) returns (a: seq<Step>, mid: State, b: seq<Step>, end: State)
    requires At(s, n, PreSubmitted)
    ensures CarefulRun(s, a, mid) && At(mid, n, ExecuteDone)
    ensures CarefulRun(mid, b, end) && At(end, n, PostWait)
  {
    var first, s1, patch := DeliveredTwice(s, n);
    var second, s2 := Finished(s1, n);
    mid := s2;
    a := RunJoin(s, first, s1, second, mid);
    b, end := LandsLate(mid, n, patch);
  }

  lemma LandsLate(s: State, n: nat, patch: Op) returns (steps: seq<Step>, t: State)
    requires n in s.cps && patch in s.pending && patch.PatchOp? && patch.num == n
    ensures CarefulRun(s, steps, t) && At(t, n, patch.phase)
  {
    steps := OneStep(s, Exec(patch));
    t := Apply(s, Exec(patch));
  }

  /** From every reachable state with a ChangePod in PreSubmitted, two deliveries of the same callback
      can finish the ChangePod and then reopen it. */
  lemma StaleCallbackReopens(s: State, n: nat) returns (a: seq<Step>, mid: State, b: seq<Step>, end: State)
    requires Reachable(s) && n in s.cps && s.cps[n].status.phase == PreSubmitted
    ensures CarefulRun(s, a, mid) && n in mid.cps && mid.cps[n].status.phase == ExecuteDone
    ensures CarefulRun(mid, b, end) && n in end.cps && end.cps[n].status.phase == PostWait
  {
    ReachableInv(s);
    a, mid, b, end := Reopens(s, n);
  }

  lemma TurnRun(s: State, n: nat, reply: Reply) returns (steps: seq<Step>, t: State)
    requires Current(s) && n in s.cps
    requires Advance(s.cps[n].status, reply, s.now).Some?
    ensures CarefulRun(s, steps, t) && At(t, n, Advance(s.cps[n].status, reply, s.now).value.phase)
    ensures t.pending == s.pending
  {
    var op := StatusOp(n, s.cps[n], Advance(s.cps[n].status, reply, s.now).value);
    steps := WriteIsRun(s, Turn(|s.history| - 1, n, reply), op);
    t := Execute(s, op);
  }

  // ---------------------------------------------------------------- runs of the queue system

  lemma {:induction false} SystemThen(sys: System, actions: seq<Action>, mid: System, a: Action)
    requires SystemRun(sys, actions, mid) && Can(mid, a)
    ensures SystemRun(sys, actions + [a], Act(mid, a))
    decreases |actions|
  {
    var all := actions + [a];
    if actions == [] {
      assert all[1..] == [];
    } else {
      assert all[0] == actions[0] && all[1..] == actions[1..] + [a];
      SystemThen(Act(sys, actions[0]), actions[1..], mid, a);
    }
  }

  // ---------------------------------------------------------------- a threshold of zero

  /** Running with a threshold of zero: a finished pod, k ChangePods with empty batches. */
  ghost predicate SpinShape(sys: System, k: nat) {
    && sys.core.cfg.threshold == 0
    && sys.wl == Workload(Running, [], [], []) && WorkloadKey in sys.queue
    && UndefensedSet(sys.core.pods) != {}
    && |sys.core.cps| == k
    && (forall n :: n in sys.core.cps ==> sys.core.cps[n].status.phase == PreWait)
  }

  function UpTo(k: nat): seq<nat> { seq(k, i => i + 1) }

  lemma UpToLists(k: nat, cps: ChangePods)
    requires Contiguous(cps) && |cps| == k
    ensures Lists(UpTo(k), cps)
  {
    forall n ensures n in UpTo(k) <==> n in cps {
      if n in cps { assert UpTo(k)[n - 1] == n; }
    }
  }

  lemma {:induction false} NothingDone(listing: seq<ChangePod>)
    requires forall cp :: cp in listing ==> !Done(cp)
    ensures DoneOnly(listing) == []
    decreases |listing|
  {
    if listing != [] {
      assert listing[|listing| - 1] in listing;
      NothingDone(listing[..|listing| - 1]);
    }
  }

  lemma SpinStores(s: State, k: nat)
    requires Contiguous(s.cps) && |s.cps| == k && NoInit(s.cps) && s.cfg.threshold == 0
    ensures k + 1 !in s.cps && CreateOutcome(s, true) == ExecCreate(s, k, true)
    ensures ExecCreate(s, k, true).cps == s.cps[k + 1 := ChangePod(s.nextRv, [], NEW_STATUS)]
  {
    assert k + 1 !in s.cps;
  }

  lemma OneMoreLists(cps: ChangePods, k: nat, cp: ChangePod)
    requires Contiguous(cps) && |cps| == k && cp.Init() && NoInit(cps)
    ensures |cps[k + 1 := cp]| == k + 1 && Lists(UpTo(k + 1), cps[k + 1 := cp])
  {
    CreateNumbers(cps, k + 1, cp);
    UpToLists(k + 1, cps[k + 1 := cp]);
  }

  lemma SpinCreated(sys: System, k: nat)
    requires Contiguous(sys.core.cps) && SpinShape(sys, k)
    ensures Created(sys) == ExecCreate(sys.core, k, true) && Created(sys) != sys.core
    ensures Lists(UpTo(k + 1), Created(sys).cps)
    ensures forall n :: n in Created(sys).cps ==> !Done(Created(sys).cps[n])
  {
    SpinStores(sys.core, k);
    OneMoreLists(sys.core.cps, k, ChangePod(sys.core.nextRv, [], NEW_STATUS));
    assert k + 1 in Created(sys).cps;
  }

  /** Serving a request creates one more ChangePod. */
  lemma ServeSpins(sys: System, k: nat)
    requires Contiguous(sys.core.cps) && SpinShape(sys, k)
    ensures Created(sys) == ExecCreate(sys.core, k, true)
    ensures Lists(UpTo(k + 1), Created(sys).cps)
    ensures var t := Serve(sys, WorkloadKey, UpTo(k + 1), 0);
            t.wl == sys.wl && WorkloadKey in t.queue && t.core == ExecCreate(sys.core, k, true)
  {
    SpinCreated(sys, k);
    NothingDone(Listing(Created(sys).cps, UpTo(k + 1)));
  }

  lemma SpinCreates(sys: System, k: nat) returns (a: Action)
    requires Contiguous(sys.core.cps) && SpinShape(sys, k)
    ensures a.Served? && Can(sys, a)
    ensures var t := Act(sys, a);
            t.wl == sys.wl && WorkloadKey in t.queue && t.core == ExecCreate(sys.core, k, true)
  {
    ServeSpins(sys, k);
    a := Served(WorkloadKey, UpTo(k + 1), 0);
  }

  lemma Enumerate(names: set<string>) returns (order: seq<string>)
    ensures Enumerates(order, names)
  {
    order := [];
    if names != {} {
      var p :| p in names;
      var rest := Enumerate(names - {p});
      order := rest + [p];
    }
  }

  // The init turn with a threshold of zero, call by call.

  /** ChangePod `n` has the given fields, the other ChangePods and the pods are as in `s`. */
  ghost predicate Touched(s: State, t: State, n: nat, phase: Phase) {
    && t.pods == s.pods && t.cfg == s.cfg && Current(t)
    && t.cps.Keys == s.cps.Keys && n in t.cps && t.cps[n].status.phase == phase && t.cps[n].podInfos == []
    && (forall m :: m in s.cps && m != n ==> t.cps[m] == s.cps[m])
  }

  lemma PlanEmpty(s: State, n: nat) returns (step: Step)
    requires Current(s) && n in s.cps && s.cps[n].Init() && s.cps[n].podInfos == []
    requires s.cfg.threshold == 0 && UndefensedSet(s.pods) != {}
    ensures Reads(step) && Enabled(s, step) && Apply(s, step) == Issue(s, SpecOp(n, s.cps[n], []))
  {
    var order := Enumerate(s.pods.Keys);
    var p :| p in UndefensedSet(s.pods);
    assert p in FilterUndefensed(order, s.pods);
    assert Batch(s.cfg, s.pods, order) == [];
    step := InitTurn(|s.history| - 1, n, order);
  }

  lemma RecordEmpty(s: State, n: nat, read: ChangePod) returns (next: Op)
    requires n in s.cps && s.cps[n] == read && read.Init() && s.pending == multiset{SpecOp(n, read, [])}
    ensures var t := Apply(s, Exec(SpecOp(n, read, [])));
            && Touched(s, t, n, ExecuteInit) && next == LabelOp(n, t.cps[n], [], true) && t.pending == multiset{next}
  {
    assert PodNames([]) == [];
    assert s.pending - multiset{SpecOp(n, read, [])} == multiset{};
    var t := Apply(s, Exec(SpecOp(n, read, [])));
    next := LabelOp(n, t.cps[n], [], true);
  }

  lemma LabelNothing(s: State, n: nat, mark: Op) returns (last: Op)
    requires mark.LabelOp? && mark.num == n && mark.todo == [] && mark.finish && s.pending == multiset{mark}
    ensures last == StatusOp(n, mark.read, mark.read.status.(phase := PreWait))
    ensures Apply(s, Exec(mark)) == s.(pending := multiset{last})
  {
    last := StatusOp(n, mark.read, mark.read.status.(phase := PreWait));
    assert s.pending - multiset{mark} == multiset{};
  }

  lemma FinishEmpty(s: State, n: nat, last: Op)
    requires n in s.cps && last == StatusOp(n, s.cps[n], s.cps[n].status.(phase := PreWait)) && s.cps[n].podInfos == []
    requires s.pending == multiset{last}
    ensures var t := Apply(s, Exec(last)); Touched(s, t, n, PreWait) && t.pending == multiset{}
  {
    assert s.pending - multiset{last} == multiset{};
  }

  predicate OperatorOnly(actions: seq<Action>) {
    forall a :: a in actions ==> a.Served? || a.Planned? || a.Executed?
  }

  /** One more action of the operator. */
  lemma Then(sys: System, actions: seq<Action>, mid: System, a: Action) returns (more: seq<Action>)
    requires SystemRun(sys, actions, mid) && OperatorOnly(actions) && Can(mid, a)
    requires a.Served? || a.Planned? || a.Executed?
    ensures SystemRun(sys, more, Act(mid, a)) && OperatorOnly(more)
  {
    SystemThen(sys, actions, mid, a);
    more := actions + [a];
  }

  lemma ExecThen(sys: System, actions: seq<Action>, mid: System, op: Op) returns (more: seq<Action>, end: System)
    requires SystemRun(sys, actions, mid) && OperatorOnly(actions)
    requires op in mid.core.pending && !op.CreateOp? && !op.DeleteOp?
    ensures SystemRun(sys, more, end) && OperatorOnly(more)
    ensures end.core == Apply(mid.core, Exec(op)) && end.wl == mid.wl && mid.queue <= end.queue
  {
    more := Then(sys, actions, mid, Executed(op));
    end := Act(mid, Executed(op));
  }

  lemma PlanThen(sys: System, actions: seq<Action>, mid: System, step: Step) returns (more: seq<Action>, end: System)
    requires SystemRun(sys, actions, mid) && OperatorOnly(actions) && Reads(step) && Enabled(mid.core, step)
    ensures SystemRun(sys, more, end) && OperatorOnly(more)
    ensures end == mid.(core := Apply(mid.core, step))
  {
    more := Then(sys, actions, mid, Planned(step));
    end := Act(mid, Planned(step));
  }

  /** The init turn finds the pod, takes none of it, and moves on to PreWait. */
  lemma EmptyTurn(sys: System, actions: seq<Action>, mid: System, n: nat) returns (more: seq<Action>, end: System)
    requires SystemRun(sys, actions, mid) && OperatorOnly(actions)
    requires Current(mid.core) && mid.core.pending == multiset{} && n in mid.core.cps && mid.core.cps[n].Init()
    requires mid.core.cps[n].podInfos == [] && mid.core.cfg.threshold == 0 && UndefensedSet(mid.core.pods) != {}
    ensures SystemRun(sys, more, end) && OperatorOnly(more)
    ensures Touched(mid.core, end.core, n, PreWait) && end.core.pending == multiset{}
    ensures end.wl == mid.wl && mid.queue <= end.queue
  {
    var step := PlanEmpty(mid.core, n);
    var m1, m2, m3: System;
    more, m1 := PlanThen(sys, actions, mid, step);
    var spec := SpecOp(n, mid.core.cps[n], []);
    more, m2 := ExecThen(sys, more, m1, spec);
    var mark := RecordEmpty(m1.core, n, mid.core.cps[n]);
    more, m3 := ExecThen(sys, more, m2, mark);
    var last := LabelNothing(m2.core, n, mark);
    more, end := ExecThen(sys, more, m3, last);
    FinishEmpty(m3.core, n, last);
  }

  lemma ShapeAgain(sys: System, mid: System, t: System, k: nat)
    requires Contiguous(sys.core.cps) && SpinShape(sys, k)
    requires mid.core == ExecCreate(sys.core, k, true) && mid.wl == sys.wl && WorkloadKey in mid.queue
    requires t.wl == mid.wl && mid.queue <= t.queue && Touched(mid.core, t.core, k + 1, PreWait)
    ensures SpinShape(t, k + 1)
  {
    SpinStores(sys.core, k);
    OneMoreLists(sys.core.cps, k, ChangePod(sys.core.nextRv, [], NEW_STATUS));
    assert |t.core.cps| == |t.core.cps.Keys| == |mid.core.cps.Keys| == k + 1;
  }

  lemma SpinThen(sys: System, actions: seq<Action>, mid: System, k: nat) returns (more: seq<Action>, m: System)
    requires SystemRun(sys, actions, mid) && OperatorOnly(actions) && SpinShape(mid, k) && Contiguous(mid.core.cps)
    ensures SystemRun(sys, more, m) && OperatorOnly(more) && m.core == ExecCreate(mid.core, k, true)
    ensures m.wl == mid.wl && WorkloadKey in m.queue && Current(m.core) && m.core.pending == mid.core.pending
    ensures k + 1 in m.core.cps && m.core.cps[k + 1].Init() && m.core.cps[k + 1].podInfos == []
    ensures m.core.pods == mid.core.pods && m.core.cfg == mid.core.cfg
  {
    var a := SpinCreates(mid, k);
    SpinStores(mid.core, k);
    more := Then(sys, actions, mid, a);
    m := Act(mid, a);
  }

  lemma Spin(sys: System, actions: seq<Action>, mid: System, k: nat) returns (more: seq<Action>, end: System)
    requires SystemRun(sys, actions, mid) && OperatorOnly(actions) && SpinShape(mid, k)
    requires Contiguous(mid.core.cps) && mid.core.pending == multiset{}
    ensures SystemRun(sys, more, end) && OperatorOnly(more) && SpinShape(end, k + 1) && end.core.pending == multiset{}
  {
    var m: System;
    more, m := SpinThen(sys, actions, mid, k);
    more, end := EmptyTurn(sys, more, m, k + 1);
    ShapeAgain(mid, m, end, k);
  }

  lemma {:induction false} SystemKeepsInv(sys: System, actions: seq<Action>, end: System)
    requires Inv(sys.core) && SystemRun(sys, actions, end)
    ensures Inv(end.core)
    decreases |actions|
  {
    if actions != [] {
      ActKeepsInv(sys, actions[0]);
      SystemKeepsInv(Act(sys, actions[0]), actions[1..], end);
    }
  }

  /** The first pod finishes; its request takes the workload out of Init. */
  lemma FirstRequest(sys: System, p: string) returns (a: Action, m: System)
    requires Starts(sys) && sys.queue == {} && p in sys.core.pods && !sys.core.pods[p].finished
    ensures m == Act(sys, PodFinished(p)) && a.Served? && Can(m, a)
    ensures Act(m, a) == System(Apply(sys.core, FinishPod(p)), Workload(Running, [], [], []), {WorkloadKey})
  {
    m := Act(sys, PodFinished(p));
    a := Served(PodKey(p), [], 0);
  }

  lemma StartSpinning(sys: System, p: string) returns (actions: seq<Action>, end: System)
    requires Starts(sys) && sys.queue == {} && sys.core.cfg.threshold == 0
    requires p in sys.core.pods && !sys.core.pods[p].finished
    ensures SystemRun(Act(sys, PodFinished(p)), actions, end) && OperatorOnly(actions)
    ensures SpinShape(end, 0) && end.core.pending == multiset{} && Inv(Act(sys, PodFinished(p)).core)
  {
    InitialInv(sys.core);
    ActKeepsInv(sys, PodFinished(p));
    var a, m := FirstRequest(sys, p);
    actions := Then(m, [], m, a);
    end := Act(m, a);
    assert p in UndefensedSet(end.core.pods);
  }

  /** With a threshold of zero, as soon as the first pod has finished, the operator never comes to rest: for
      every k there is a run without any outside event after which there are k ChangePods. */
  lemma {:induction false} ZeroThresholdNeverRests(sys: System, p: string, k: nat)
    returns (actions: seq<Action>, end: System)
    requires Starts(sys) && sys.queue == {} && sys.core.cfg.threshold == 0
    requires p in sys.core.pods && !sys.core.pods[p].finished
    ensures SystemRun(Act(sys, PodFinished(p)), actions, end) && OperatorOnly(actions)
    ensures SpinShape(end, k) && end.core.pending == multiset{} && Inv(Act(sys, PodFinished(p)).core)
    decreases k
  {
    if k == 0 {
      actions, end := StartSpinning(sys, p);
    } else {
      var before, mid := ZeroThresholdNeverRests(sys, p, k - 1);
      SystemKeepsInv(Act(sys, PodFinished(p)), before, mid);
      actions, end := Spin(Act(sys, PodFinished(p)), before, mid, k - 1);
    }
  }

  // ---------------------------------------------------------------- lost wake-ups

  /** A Running workload whose ChangePods, all in ExecuteInit and without pods, are listed by `listing`. */
  ghost predicate Idle(sys: System, listing: seq<nat>, queue: set<Request>) {
    && sys.wl == Workload(Running, [], [], []) && sys.queue == queue
    && Lists(listing, sys.core.cps)
    && (forall n :: n in sys.core.cps ==> sys.core.cps[n] == ChangePod(sys.core.cps[n].rv, [], NEW_STATUS))
  }

  /** Serving a request that is alone in the queue, when no batch is due, empties the queue. */
  lemma ServeIdle(sys: System, listing: seq<nat>, r: Request) returns (a: Action)
    requires Idle(sys, listing, {r}) && !Due(sys)
    ensures a.Served? && Can(sys, a) && Act(sys, a).core == sys.core && Idle(Act(sys, a), listing, {})
  {
    a := Served(r, listing, 0);
    NothingDone(Listing(sys.core.cps, listing));
    assert Created(sys) == sys.core;
  }

  lemma FirstCreated(sys: System)
    requires Due(sys) && sys.core.cps == map[] && sys.wl.status == Running
    ensures Created(sys) == ExecCreate(sys.core, 0, true) && Created(sys) != sys.core
    ensures Created(sys).cps == map[1 := ChangePod(sys.core.nextRv, [], NEW_STATUS)]
    ensures Lists([1], Created(sys).cps)
  {
    assert 1 in Created(sys).cps;
  }

  /** Serving the first due batch. */
  lemma ServeFirst(sys: System, r: Request) returns (a: Action)
    requires Idle(sys, [], {r}) && Due(sys) && Effective(sys, r) && sys.core.cps == map[]
    ensures a.Served? && Can(sys, a) && Idle(Act(sys, a), [1], {WorkloadKey})
    ensures Act(sys, a).core == ExecCreate(sys.core, 0, true)
  {
    FirstCreated(sys);
    a := Served(r, [1], 0);
    NothingDone(Listing(Created(sys).cps, [1]));
    assert NextWorkload(sys, [1], 0).None?;
  }

  lemma TwoActions(sys: System, actions: seq<Action>, mid: System, a: Action, b: Action) returns (more: seq<Action>)
    requires SystemRun(sys, actions, mid) && Can(mid, a) && Can(Act(mid, a), b)
    ensures SystemRun(sys, more, Act(Act(mid, a), b))
  {
    SystemThen(sys, actions, mid, a);
    SystemThen(sys, actions + [a], Act(mid, a), b);
    more := actions + [a] + [b];
  }

  lemma ServeFirstTwo(sys: System, r: Request) returns (a: Action, b: Action)
    requires Idle(sys, [], {r}) && Due(sys) && Effective(sys, r) && sys.core.cps == map[]
    ensures a.Served? && Can(sys, a) && b.Served? && Can(Act(sys, a), b)
    ensures var end := Act(Act(sys, a), b); Idle(end, [1], {}) && end.core == ExecCreate(sys.core, 0, true)
  {
    a := ServeFirst(sys, r);
    assert Act(sys, a).core.cps[1].Init();
    b := ServeIdle(Act(sys, a), [1], WorkloadKey);
  }

  /** A batch is due, is started, and the queue runs empty while ChangePod 1 is still in ExecuteInit. */
  lemma FirstBatchStarted(sys: System, actions: seq<Action>, mid: System, r: Request)
    returns (more: seq<Action>, end: System)
    requires SystemRun(sys, actions, mid) && Idle(mid, [], {r}) && Due(mid) && Effective(mid, r)
    requires mid.core.cps == map[]
    ensures SystemRun(sys, more, end) && Idle(end, [1], {}) && end.core == ExecCreate(mid.core, 0, true)
  {
    var a, b := ServeFirstTwo(mid, r);
    end := Act(Act(mid, a), b);
    more := TwoActions(sys, actions, mid, a, b);
  }

  /** An outside event that queues one request. */
  lemma PodEventIdle(sys: System, listing: seq<nat>, a: Action, p: string)
    requires Idle(sys, listing, {}) && Can(sys, a) && p in sys.core.pods && !sys.core.pods[p].defensed
    requires a == PodFinished(p) || (a == PodRemoved(p) && sys.core.pods[p].finished)
    ensures Idle(Act(sys, a), listing, {PodKey(p)}) && Act(sys, a).core.cps == sys.core.cps
  {
  }

  /** From an empty queue: pod `q` finishes, and its request takes the workload to Running. */
  lemma RunningAfterFirst(sys: System, q: string) returns (actions: seq<Action>, end: System)
    requires Starts(sys) && sys.queue == {} && q in sys.core.pods && !sys.core.pods[q].finished
    ensures SystemRun(sys, actions, end) && Idle(end, [], {WorkloadKey}) && end.core == Apply(sys.core, FinishPod(q))
  {
    var a, m := FirstRequest(sys, q);
    actions := TwoActions(sys, [], sys, PodFinished(q), a);
    end := Act(m, a);
  }

  /** The pod of the first batch leaves before the batch is recorded. */
  lemma PodLeaves(sys: System, actions: seq<Action>, mid: System, listing: seq<nat>, q: string)
    returns (more: seq<Action>, end: System)
    requires SystemRun(sys, actions, mid) && Idle(mid, listing, {}) && listing == [1]
    requires q in mid.core.pods && mid.core.pods[q].finished && !mid.core.pods[q].defensed
    ensures SystemRun(sys, more, end) && Idle(end, [1], {})
    ensures end.core == Apply(mid.core, RemovePod(q))
  {
    var a := PodRemoved(q);
    PodEventIdle(mid, [1], a, q);
    var m := Act(mid, a);
    assert 1 in [1] && m.core.cps[1].Init();
    var b := ServeIdle(m, [1], PodKey(q));
    more := TwoActions(sys, actions, mid, a, b);
    end := Act(m, b);
  }

  /** From an empty queue: `q` finishes, ChangePod 1 is created for it, `q` leaves; the queue is empty. */
  lemma EmptyInit(sys: System, q: string) returns (actions: seq<Action>, end: System)
    requires Starts(sys) && sys.queue == {} && sys.core.cfg.threshold <= 1
    requires q in sys.core.pods && !sys.core.pods[q].finished
    ensures SystemRun(sys, actions, end) && Idle(end, [1], {}) && end.core.pods == sys.core.pods - {q}
    ensures end.core.cfg == sys.core.cfg && Current(end.core) && end.core.pending == sys.core.pending
  {
    var m1, m2: System;
    actions, m1 := RunningAfterFirst(sys, q);
    assert q in UndefensedSet(m1.core.pods);
    SubsetCard({q}, UndefensedSet(m1.core.pods));
    actions, m2 := FirstBatchStarted(sys, actions, m1, WorkloadKey);
    actions, end := PodLeaves(sys, actions, m2, [1], q);
    assert end.core.pods == sys.core.pods - {q};
  }

  lemma {:induction false} NoneFiltered(order: seq<string>, pods: map<string, Pod>)
    requires UndefensedSet(pods) == {}
    ensures FilterUndefensed(order, pods) == []
    decreases |order|
  {
    if order != [] {
      assert order[0] !in UndefensedSet(pods);
      NoneFiltered(order[1..], pods);
    }
  }

  lemma PlanDelete(sys: System, order: seq<string>) returns (plan: Step, op: Op)
    requires Idle(sys, [1], {}) && Current(sys.core) && Enumerates(order, sys.core.pods.Keys)
    requires UndefensedSet(sys.core.pods) == {}
    ensures Reads(plan) && Enabled(sys.core, plan) && Apply(sys.core, plan) == Issue(sys.core, op)
    ensures op.DeleteOp? && op.num == 1 && !NoInit(sys.core.cps)
  {
    assert 1 in [1] && 1 in sys.core.cps && sys.core.cps[1].Init();
    NoneFiltered(order, sys.core.pods);
    plan := InitTurn(|sys.core.history| - 1, 1, order);
    op := DeleteOp(1, sys.core.cps[1]);
  }

  lemma DeletePlanned(sys: System, actions: seq<Action>, mid: System, order: seq<string>)
    returns (more: seq<Action>, m: System, op: Op)
    requires SystemRun(sys, actions, mid) && Idle(mid, [1], {}) && Current(mid.core)
    requires Enumerates(order, mid.core.pods.Keys) && UndefensedSet(mid.core.pods) == {}
    ensures SystemRun(sys, more, m) && m == mid.(core := Issue(mid.core, op))
    ensures op.DeleteOp? && op.num == 1 && !NoInit(m.core.cps) && Idle(m, [1], {})
  {
    var plan: Step;
    plan, op := PlanDelete(mid, order);
    SystemThen(sys, actions, mid, Planned(plan));
    more, m := actions + [Planned(plan)], Act(mid, Planned(plan));
  }

  lemma DeleteLands(sys: System, op: Op) returns (a: Action)
    requires Idle(sys, [1], {}) && op in sys.core.pending && op.DeleteOp? && op.num == 1
    requires ReachesThreshold(sys.core.cfg, sys.core.pods, true)
    ensures Can(sys, a) && Lost(Act(sys, a)) && Act(sys, a).queue == {} && Act(sys, a).core.pods == sys.core.pods
  {
    a := Executed(op);
    assert forall n :: n in sys.core.cps <==> n in [1];
    assert Act(sys, a).core.cps.Keys == {};
  }

  /** With a threshold of zero every delete is too late: an init turn that finds no pods deletes its
      ChangePod, nothing is queued, and yet the guard for a new one holds. */
  lemma ZeroThresholdLosesWakeup(sys: System, q: string, ip: string) returns (actions: seq<Action>, end: System)
    requires Starts(sys) && sys.queue == {} && sys.core.cfg.threshold == 0
    requires sys.core.pods == map[q := Pod(ip, false, false)]
    ensures SystemRun(sys, actions, end) && Lost(end) && UndefensedSet(end.core.pods) == {}
  {
    var m: System;
    actions, m := EmptyInit(sys, q);
    actions, end := DeleteAtOnce(sys, actions, m);
  }

  lemma DeleteAtOnce(sys: System, actions: seq<Action>, mid: System) returns (more: seq<Action>, end: System)
    requires SystemRun(sys, actions, mid) && Idle(mid, [1], {}) && Current(mid.core)
    requires mid.core.cfg.threshold == 0 && mid.core.pods.Keys == {}
    ensures SystemRun(sys, more, end) && Lost(end) && UndefensedSet(end.core.pods) == {}
  {
    var m, op;
    more, m, op := DeletePlanned(sys, actions, mid, []);
    var a := DeleteLands(m, op);
    SystemThen(sys, more, m, a);
    more, end := more + [a], Act(m, a);
  }

  lemma FinishBehind(sys: System, p: string, ip: string) returns (served: Action)
    requires Idle(sys, [1], {}) && !NoInit(sys.core.cps) && sys.core.pods == map[p := Pod(ip, false, false)]
    ensures Can(sys, PodFinished(p)) && served.Served? && Can(Act(sys, PodFinished(p)), served)
    ensures var m := Act(Act(sys, PodFinished(p)), served);
            Idle(m, [1], {}) && p in UndefensedSet(m.core.pods)
            && m.core.pending == sys.core.pending && m.core.cfg == sys.core.cfg
  {
    PodEventIdle(sys, [1], PodFinished(p), p);
    served := ServeIdle(Act(sys, PodFinished(p)), [1], PodKey(p));
  }

  /** Behind a planned delete, pod `p` finishes and its request is served in vain; then the delete lands. */
  lemma DeleteRace(sys: System, actions: seq<Action>, mid: System, p: string, ip: string)
    returns (more: seq<Action>, end: System)
    requires SystemRun(sys, actions, mid) && Idle(mid, [1], {}) && Current(mid.core) && mid.core.cfg.threshold == 1
    requires mid.core.pods == map[p := Pod(ip, false, false)]
    ensures SystemRun(sys, more, end) && Lost(end) && end.queue == {}
  {
    assert UndefensedSet(mid.core.pods) == {};
    var m, op;
    more, m, op := DeletePlanned(sys, actions, mid, [p]);
    var served := FinishBehind(m, p, ip);
    more := TwoActions(sys, more, m, PodFinished(p), served);
    var m' := Act(Act(m, PodFinished(p)), served);
    SubsetCard({p}, UndefensedSet(m'.core.pods));
    var a := DeleteLands(m', op);
    SystemThen(sys, more, m', a);
    more, end := more + [a], Act(m', a);
  }

  /** Deletes have to be timely: with a threshold of one, from an empty queue, an init turn that decides to
      delete its ChangePod while a pod finishes leaves a due batch behind an empty queue. */
  lemma DeleteRaceLosesWakeup(sys: System, p: string, q: string, ip: string) returns (actions: seq<Action>, end: System)
    requires Starts(sys) && sys.core.cfg.threshold == 1 && sys.queue == {} && p != q
    requires sys.core.pods == map[p := Pod(ip, false, false), q := Pod(ip, false, false)]
    ensures SystemRun(sys, actions, end) && Lost(end) && end.queue == {}
  {
    var mid: System;
    actions, mid := EmptyInit(sys, q);
    assert mid.core.pods == map[p := Pod(ip, false, false)];
    actions, end := DeleteRace(sys, actions, mid, p, ip);
  }

  // ---------------------------------------------------------------- a failed listing

  lemma LeaveInit(c: Cluster, moves: seq<Move>, mid: Cluster, r: Request) returns (more: seq<Move>, end: Cluster)
    requires Moves(c, moves, mid) && mid.turns == map[] && mid.sys.queue == {r} && Effective(mid.sys, r)
    requires mid.sys.wl.status == WInit
    ensures Moves(c, more, end) && end.turns == map[] && end.sys.queue == {WorkloadKey}
    ensures end.sys.core == mid.sys.core && end.sys.wl == mid.sys.wl.(status := Running)
  {
    var taken := Next(mid, Take(r));
    MovesThen(c, moves, mid, Take(r));
    var begun := Next(taken, Open(r));
    MovesThen(c, moves + [Take(r)], taken, Open(r));
    end := Next(begun, Write(r));
    MovesThen(c, moves + [Take(r)] + [Open(r)], begun, Write(r));
    more := moves + [Take(r)] + [Open(r)] + [Write(r)];
  }

  /** A turn of a Running workload without ChangePods whose listing of pods fails. */
  lemma MissTurn(c: Cluster, moves: seq<Move>, mid: Cluster) returns (more: seq<Move>, end: Cluster)
    requires Moves(c, moves, mid) && mid.turns == map[] && mid.sys.queue == {WorkloadKey}
    requires mid.sys.wl.status == Running && mid.sys.core.cps == map[] && |mid.sys.core.history| > 0
    ensures Moves(c, more, end) && end == mid.(sys := mid.sys.(queue := {}))
  {
    var r := WorkloadKey;
    var taken := Next(mid, Take(r));
    MovesThen(c, moves, mid, Take(r));
    var begun := Next(taken, Open(r));
    MovesThen(c, moves + [Take(r)], taken, Open(r));
    more := moves + [Take(r)] + [Open(r)];
    more, end := MissRest(c, more, begun);
  }

  lemma MissRest(c: Cluster, moves: seq<Move>, mid: Cluster) returns (more: seq<Move>, end: Cluster)
    requires Moves(c, moves, mid) && mid.turns == map[WorkloadKey := Opened(mid.sys.wl, mid.version)]
    requires mid.sys.core.cps == map[] && |mid.sys.core.history| > 0
    ensures Moves(c, more, end) && end == mid.(turns := map[])
  {
    var r := WorkloadKey;
    var checked := Next(mid, Check(r));
    MovesThen(c, moves, mid, Check(r));
    var missed := Next(checked, GuardMissed(r));
    MovesThen(c, moves + [Check(r)], checked, GuardMissed(r));
    var listed := Next(missed, ListAgain(r));
    MovesThen(c, moves + [Check(r)] + [GuardMissed(r)], missed, ListAgain(r));
    end := Next(listed, Compute(r, [], 0));
    MovesThen(c, moves + [Check(r)] + [GuardMissed(r)] + [ListAgain(r)], listed, Compute(r, [], 0));
    more := moves + [Check(r)] + [GuardMissed(r)] + [ListAgain(r)] + [Compute(r, [], 0)];
  }

  /** The failed listing is not an error to the queue: with a threshold of one, from an empty queue, a due
      batch is left behind an empty queue and no turn in service. */
  lemma MissedListingLosesWakeup(c: Cluster, p: string, ip: string) returns (moves: seq<Move>, end: Cluster)
    requires ClusterStarts(c) && c.sys.core.cfg.threshold == 1 && c.sys.queue == {}
    requires c.sys.core.pods == map[p := Pod(ip, false, false)]
    ensures Moves(c, moves, end) && Due(end.sys) && end.sys.queue == {} && end.turns == map[]
  {
    var finished := Next(c, Other(PodFinished(p)));
    moves := [Other(PodFinished(p))];
    assert moves[1..] == [] && Moves(finished, moves[1..], finished);
    var running: Cluster;
    moves, running := LeaveInit(c, moves, finished, PodKey(p));
    moves, end := MissTurn(c, moves, running);
    assert UndefensedSet(end.sys.core.pods) == {p};
  }
}
