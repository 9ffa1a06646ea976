/** The inductive invariant of the protocol, and its preservation by every step. */
module Safety {
  import opened PodSummaries
  import opened Protocol

  // ---------------------------------------------------------------- invariant on stored objects

  /** Phases a ChangePod never returns to once it has passed them. */
  function Level(ph: Phase): nat {
    match ph
    case ExecuteInit => 0
    case PreWait => 1
    case PreSubmitted => 2
    case _ => 3
  }

  /** The order in which a ChangePod passes its phases when nothing overtakes a callback. */
  function Rank(ph: Phase): nat {
    match ph
    case ExecuteInit => 0
    case PreWait => 1
    case PreSubmitted => 2
    case PreTimeout | PreFailed | PostWait => 3
    case PostSubmitted => 4
    case PostFinish | PostTimeout | PostFailed => 5
    case ExecuteDone => 6
  }

  /** The numbers are exactly 1..n. */
  ghost predicate Contiguous(cps: ChangePods) {
    forall i :: i in cps <==> 1 <= i <= |cps|
  }

  /** Only the highest number may be in ExecuteInit. */
  ghost predicate OnlyTopInit(cps: ChangePods) {
    forall i :: i in cps && cps[i].Init() ==> i == |cps|
  }

  ghost predicate RecordedIn(s: State, p: string, i: nat) {
    i in s.cps && p in NamesOf(s.cps[i].podInfos)
  }

  ghost predicate Recorded(s: State, p: string) {
    exists i :: RecordedIn(s, p, i)
  }

  /** No pod is recorded in two ChangePods, nor twice in one. */
  ghost predicate Exclusive(s: State) {
    && (forall p, i, j :: RecordedIn(s, p, i) && RecordedIn(s, p, j) ==> i == j)
    && (forall i :: i in s.cps ==> DistinctNames(s.cps[i].podInfos) && |s.cps[i].podInfos| <= s.cfg.threshold)
  }

  ghost predicate Labels(s: State) {
    && s.pods.Keys <= s.used
    && (forall p, i :: RecordedIn(s, p, i) ==> p in s.used)
    && (forall p, i :: RecordedIn(s, p, i) && p in s.pods ==>
          s.pods[p].finished && (!s.cps[i].Init() ==> s.pods[p].defensed))
    && (forall p :: p in s.pods && s.pods[p].defensed ==> Recorded(s, p))
  }

  ghost predicate IsStamp(infos: seq<PodSummary>, results: seq<PodSummary>) {
    exists v, m :: results == Stamp(infos, v, m)
  }

  predicate Terminal(ph: Phase) {
    ph in {PostFinish, PreTimeout, PostTimeout, PreFailed, PostFailed}
  }

  /** What a stored status says about its ChangePod. */
  ghost predicate StatusOk(infos: seq<PodSummary>, st: Status) {
    && (st.phase == ExecuteInit ==> st == NEW_STATUS)
    && (st.phase == ExecuteDone ==> Terminal(st.message))
    && (st.podResults == [] || IsStamp(infos, st.podResults))
    && (st.phase == PostFinish || st.message == PostFinish ==> IsStamp(infos, st.podResults))
  }

  // ---------------------------------------------------------------- invariant on reads in flight

  /** A ChangePod read at some time is still consistent with the store. */
  ghost predicate Seen(s: State, n: nat, read: ChangePod) {
    && read.rv < s.nextRv
    && (Matches(s, n, read) ==> s.cps[n] == read)
    && (read.Settled() ==> n in s.cps && s.cps[n].podInfos == read.podInfos)
    && (!read.Init() ==>
          Level(s.cps[n].status.phase) >= Level(read.status.phase)
          && (read.status.podResults != [] ==> s.cps[n].status.podResults != []))
    && StatusOk(read.podInfos, read.status)
  }

  ghost predicate Versions(s: State) {
    && |s.history| > 0 && s.history[|s.history| - 1] == s.cps
    && (forall k :: 0 <= k < |s.history| ==> Contiguous(s.history[k]))
    && (forall k, n :: 0 <= k < |s.history| && n in s.history[k] ==> Seen(s, n, s.history[k][n]))
  }

  /** The first `count` ChangePods exist and are past ExecuteInit. */
  ghost predicate Passed(s: State, count: nat) {
    forall i :: 1 <= i <= count ==> i in s.cps && !s.cps[i].Init()
  }

  ghost predicate AllDefensed(s: State, names: set<string>) {
    forall p :: p in names && p in s.pods ==> s.pods[p].defensed
  }

  ghost predicate OpOk(s: State, op: Op) {
    match op
    case CreateOp(count, _) => Passed(s, count)
    case SpecOp(n, read, batch) =>
      && Seen(s, n, read) && !read.Settled()
      && DistinctNames(batch) && |batch| <= s.cfg.threshold
      && NamesOf(batch) <= s.used
      && (forall p :: p in NamesOf(batch) && p in s.pods ==> s.pods[p].finished)
      && (Matches(s, n, read) ==> forall p, i :: RecordedIn(s, p, i) ==> p !in NamesOf(batch))
    case LabelOp(n, read, todo, finish) =>
      && Seen(s, n, read) && read.Init()
      && (forall p :: p in todo ==> p in NamesOf(read.podInfos))
      && (finish ==> AllDefensed(s, set p | p in NamesOf(read.podInfos) && p !in todo))
    case StatusOp(n, read, st) =>
      && Seen(s, n, read)
      && StatusOk(read.podInfos, st) && Rank(st.phase) > Rank(read.status.phase)
      && st.podResults == read.status.podResults
      && (read.Init() ==> AllDefensed(s, NamesOf(read.podInfos)))
    case DeleteOp(n, read) => Seen(s, n, read) && !read.Settled()
    case PatchOp(n, read, phase, results) =>
      && Seen(s, n, read)
      && (phase, read.status.phase) in {(PostWait, PreSubmitted), (PostFinish, PostSubmitted)}
      && (results.Some? ==> IsStamp(read.podInfos, results.value)
                            && (results.value != [] || read.status.podResults == []))
      && (phase == PostFinish && results.None? ==> IsStamp(read.podInfos, read.status.podResults))
  }

  ghost predicate Inv(s: State) {
    && Contiguous(s.cps) && OnlyTopInit(s.cps)
    && Exclusive(s) && Labels(s) && Versions(s)
    && PendingOk(s)
  }

  ghost predicate PendingOk(s: State) {
    forall op :: op in s.pending ==> OpOk(s, op)
  }

  // ---------------------------------------------------------------- how one step changes the store

  ghost predicate Carried(a: State, b: State, n: nat)
    requires n in b.cps
  {
    var new_ := b.cps[n];
    if n !in a.cps then new_.rv >= a.nextRv && new_.podInfos == [] && new_.Init()
    else
      var old_ := a.cps[n];
      new_ == old_ || (
        && new_.rv >= a.nextRv
        && Level(new_.status.phase) >= Level(old_.status.phase)
        && (old_.status.podResults != [] ==> new_.status.podResults != [])
        && (new_.podInfos != old_.podInfos ==> !old_.Settled() && new_.Init()))
  }

  /** Every change to the ChangePods in one step is of this shape. */
  ghost predicate Evolves(a: State, b: State) {
    && a.nextRv <= b.nextRv
    && (forall n :: n in a.cps && n !in b.cps ==> !a.cps[n].Settled())
    && (forall n :: n in b.cps ==> Carried(a, b, n))
  }

  /** Every change to the Pods in one step is of this shape. */
  ghost predicate PodsEvolve(a: State, b: State) {
    && a.cfg == b.cfg && a.used <= b.used
    && (forall p :: p in b.pods && p in a.used ==>
          && p in a.pods
          && (a.pods[p].finished ==> b.pods[p].finished)
          && (a.pods[p].defensed ==> b.pods[p].defensed))
  }

  lemma SeenStable(a: State, b: State, n: nat, read: ChangePod)
    requires Seen(a, n, read) && Evolves(a, b)
    ensures Seen(b, n, read)
  {
    if n in b.cps {
      assert Carried(a, b, n);
    }
  }

  /** The conditions on writes in flight survive every step. */
  lemma OpStable(a: State, b: State, op: Op)
    requires OpOk(a, op) && Evolves(a, b) && PodsEvolve(a, b) && OnlyTopInit(b.cps)
    requires Labels(a)
    ensures OpOk(b, op)
  {
    match op
    case CreateOp(count, _) =>
      forall i | 1 <= i <= count ensures i in b.cps && !b.cps[i].Init() {
        assert i in a.cps && a.cps[i].Settled();
        assert Carried(a, b, i);
      }
    case SpecOp(n, read, batch) =>
      SeenStable(a, b, n, read);
      if Matches(b, n, read) {
        assert Carried(a, b, n);
        forall p, i | RecordedIn(b, p, i) ensures p !in NamesOf(batch) {
          assert Carried(a, b, i);
          if i in a.cps && b.cps[i].podInfos == a.cps[i].podInfos {
            assert RecordedIn(a, p, i);
          }
        }
      }
    case LabelOp(n, read, _, _) =>
      SeenStable(a, b, n, read);
      RecordStable(a, n, read);
    case StatusOp(n, read, _) =>
      SeenStable(a, b, n, read);
      RecordStable(a, n, read);
    case DeleteOp(n, read) => SeenStable(a, b, n, read);
    case PatchOp(n, read, _, _) => SeenStable(a, b, n, read);
  }

  lemma RecordStable(a: State, n: nat, read: ChangePod)
    requires Seen(a, n, read) && Labels(a)
    ensures NamesOf(read.podInfos) <= a.used
  {
    forall p | p in NamesOf(read.podInfos) ensures p in a.used {
      assert RecordedIn(a, p, n);
    }
  }

  lemma VersionsStable(a: State, b: State)
    requires Versions(a) && Evolves(a, b) && Contiguous(b.cps)
    requires b.history == a.history + [b.cps]
    requires StoredAll(b)
    ensures Versions(b)
  {
    forall k, n | 0 <= k < |b.history| && n in b.history[k] ensures Seen(b, n, b.history[k][n]) {
      if k < |a.history| {
        SeenStable(a, b, n, a.history[k][n]);
      }
    }
  }

  lemma VersionsKept(a: State, b: State)
    requires Versions(a) && b.cps == a.cps && b.history == a.history && b.nextRv == a.nextRv
    ensures Versions(b)
  {
    forall k, n | 0 <= k < |b.history| && n in b.history[k] ensures Seen(b, n, b.history[k][n]) {
      assert Seen(a, n, a.history[k][n]);
    }
  }

  ghost predicate StoredAll(s: State) {
    forall n :: n in s.cps ==> s.cps[n].rv < s.nextRv && StatusOk(s.cps[n].podInfos, s.cps[n].status)
  }

  /** The writes that were not in flight before satisfy their conditions. */
  ghost predicate NewOpsOk(a: State, b: State) {
    forall op :: op in b.pending && op !in a.pending ==> OpOk(b, op)
  }

  lemma OpsStable(a: State, b: State)
    requires Inv(a) && Evolves(a, b) && PodsEvolve(a, b) && OnlyTopInit(b.cps) && NewOpsOk(a, b)
    ensures PendingOk(b)
  {
    forall op | op in b.pending ensures OpOk(b, op) {
      if op in a.pending {
        OpStable(a, b, op);
      }
    }
  }

  /** It is enough to show the invariant on the stored objects, and the conditions of the writes
      that were not in flight before. */
  lemma InvFrom(a: State, b: State)
    requires Inv(a) && Evolves(a, b) && PodsEvolve(a, b)
    requires Contiguous(b.cps) && OnlyTopInit(b.cps) && Exclusive(b) && Labels(b)
    requires b.history == a.history + [b.cps] && StoredAll(b) && NewOpsOk(a, b)
    ensures Inv(b)
  {
    VersionsStable(a, b);
    OpsStable(a, b);
  }

  lemma InvFromSame(a: State, b: State)
    requires Inv(a) && PodsEvolve(a, b)
    requires b.cps == a.cps && b.history == a.history && b.nextRv == a.nextRv
    requires Labels(b) && NewOpsOk(a, b)
    ensures Inv(b)
  {
    forall n | n in b.cps ensures Carried(a, b, n) {}
    assert forall p, i :: RecordedIn(b, p, i) <==> RecordedIn(a, p, i);
    VersionsKept(a, b);
    OpsStable(a, b);
  }

  lemma StoredOk(s: State, n: nat)
    requires Inv(s) && n in s.cps
    ensures Seen(s, n, s.cps[n])
  {
    assert s.history[|s.history| - 1] == s.cps;
  }

  lemma StoredAllOk(s: State)
    requires Inv(s)
    ensures StoredAll(s)
  {
    forall n | n in s.cps ensures s.cps[n].rv < s.nextRv && StatusOk(s.cps[n].podInfos, s.cps[n].status) {
      StoredOk(s, n);
    }
  }

  // ---------------------------------------------------------------- the steps

  lemma PodStep(s: State, step: Step)
    requires Inv(s) && Enabled(s, step) && (step.AddPod? || step.FinishPod? || step.RemovePod? || step.Tick?)
    ensures Inv(Apply(s, step))
  {
    var t := Apply(s, step);
    forall p, i | RecordedIn(t, p, i) ensures RecordedIn(s, p, i) {}
    forall p | p in t.pods && t.pods[p].defensed ensures Recorded(t, p) {
      assert Recorded(s, p);
      var i :| RecordedIn(s, p, i);
      assert RecordedIn(t, p, i);
    }
    InvFromSame(s, t);
  }

  /** Adding or losing a write in flight. */
  lemma PendingStep(s: State, t: State)
    requires Inv(s) && t == s.(pending := t.pending)
    requires forall op :: op in t.pending && op !in s.pending ==> OpOk(t, op)
    ensures Inv(t)
  {
    assert forall p, i :: RecordedIn(t, p, i) <==> RecordedIn(s, p, i);
    KeepRecorded(s, t);
    InvFromSame(s, t);
  }

  lemma ReadIsSeen(s: State, k: nat, n: nat)
    requires Versions(s) && ReadsFrom(s, k, n)
    ensures Seen(s, n, s.history[k][n])
  {
  }

  lemma DecideOk(s: State, k: nat)
    requires Versions(s) && k < |s.history| && NoInit(s.history[k])
    ensures Passed(s, |s.history[k]|)
  {
    var h := s.history[k];
    assert Contiguous(h);
    forall i | 1 <= i <= |h| ensures i in s.cps && !s.cps[i].Init() {
      assert i in h;
      ReadIsSeen(s, k, i);
    }
  }

  lemma {:induction false} FilterDistinct(order: seq<string>, pods: map<string, Pod>)
    requires Distinct(order)
    ensures Distinct(FilterUndefensed(order, pods))
  {
    if order != [] {
      FilterDistinct(order[1..], pods);
      assert order[0] !in order[1..];
      assert order[0] !in FilterUndefensed(order[1..], pods);
    }
  }

  /** A planned batch names distinct undefended pods, at most the threshold of them. */
  lemma BatchProperties(cfg: Config, pods: map<string, Pod>, order: seq<string>)
    requires Enumerates(order, pods.Keys)
    ensures DistinctNames(Batch(cfg, pods, order)) && |Batch(cfg, pods, order)| <= cfg.threshold
    ensures forall p :: p in NamesOf(Batch(cfg, pods, order)) ==> Undefensed(pods, p)
  {
    FilterDistinct(order, pods);
    var names := Take(FilterUndefensed(order, pods), cfg.threshold);
    var batch := Batch(cfg, pods, order);
    assert batch == Summaries(cfg, names, pods);
    forall i, j | 0 <= i < j < |batch| ensures batch[i].pod != batch[j].pod {
      assert batch[i].pod == names[i] && batch[j].pod == names[j];
    }
    forall p | p in NamesOf(batch) ensures Undefensed(pods, p) {
      var x :| x in batch && x.pod == p;
      assert p in names;
    }
  }

  lemma InitTurnOk(s: State, n: nat, read: ChangePod, order: seq<string>)
    requires Labels(s) && OnlyTopInit(s.cps) && Seen(s, n, read) && read.Init()
    requires Enumerates(order, s.pods.Keys)
    ensures OpOk(s, InitPlan(s.cfg, s.pods, n, read, order))
  {
    if read.podInfos == [] && FilterUndefensed(order, s.pods) != [] {
      BatchProperties(s.cfg, s.pods, order);
      var batch := Batch(s.cfg, s.pods, order);
      if Matches(s, n, read) {
        forall p, i | RecordedIn(s, p, i) ensures p !in NamesOf(batch) {
          assert i != n ==> !s.cps[i].Init();
        }
      }
    }
  }

  lemma TurnOk(s: State, n: nat, read: ChangePod, reply: Reply)
    requires Seen(s, n, read) && Advance(read.status, reply, s.now).Some?
    ensures OpOk(s, StatusOp(n, read, Advance(read.status, reply, s.now).value))
  {
  }

  lemma SweepOk(s: State, n: nat, read: ChangePod)
    requires Seen(s, n, read) && Expire(read.status, s.now).Some?
    ensures OpOk(s, StatusOp(n, read, Expire(read.status, s.now).value))
  {
  }

  lemma ReceiveOk(s: State, n: nat, read: ChangePod, stage: Stage, v: string, m: string)
    requires Seen(s, n, read) && CallbackPatch(n, read, stage, v, m).Some?
    ensures OpOk(s, CallbackPatch(n, read, stage, v, m).value)
  {
  }

  /** Replacing one stored ChangePod by a new version of it. */
  lemma PutEvolves(s: State, t: State, n: nat)
    requires StoredAll(s) && Contiguous(s.cps) && OnlyTopInit(s.cps)
    requires n in s.cps && n in t.cps && t.cfg == s.cfg
    requires t.pods == s.pods && t.used == s.used
    requires t.cps == s.cps[n := t.cps[n]] && t.nextRv == s.nextRv + 1
    requires Carried(s, t, n) && t.cps[n].rv == s.nextRv && StatusOk(t.cps[n].podInfos, t.cps[n].status)
    requires t.cps[n].Init() ==> s.cps[n].Init()
    ensures Evolves(s, t) && PodsEvolve(s, t) && Contiguous(t.cps) && OnlyTopInit(t.cps) && StoredAll(t)
  {
    assert |t.cps| == |s.cps|;
    forall i | i in t.cps ensures Carried(s, t, i) {}
  }

  /** A Create decided on an arbitrarily old list succeeds if and only if nothing was created
      since: the number derived from the old count is a compare-and-swap.  When it succeeds no
      ChangePod is in ExecuteInit. */
  lemma CreateIsCompareAndSwap(s: State, op: Op)
    requires Inv(s) && op in s.pending && op.CreateOp?
    ensures op.count + 1 !in s.cps <==> op.count == |s.cps|
    ensures op.count <= |s.cps|
    ensures op.count + 1 !in s.cps ==> NoInit(s.cps) && Passed(s, |s.cps|)
  {
    assert OpOk(s, op);
    assert op.count >= 1 ==> op.count in s.cps;
  }

  lemma ConsumeStep(s: State, op: Op)
    requires Inv(s)
    ensures Inv(Consume(s, op))
  {
    PendingStep(s, Consume(s, op));
  }

  lemma FewerOps(s: State, t: State)
    requires t.pending <= s.pending
    ensures NewOpsOk(s, t)
  {
  }

  lemma OneNewOp(s: State, t: State, op: Op, next: Op)
    requires t.pending == s.pending - multiset{op} + multiset{next} && OpOk(t, next)
    ensures NewOpsOk(s, t)
  {
  }

  lemma CreateStep(s: State, op: Op)
    requires Inv(s) && op in s.pending && op.CreateOp?
    ensures Inv(ExecCreate(Consume(s, op), op.count, op.byThreshold))
  {
    CreateIsCompareAndSwap(s, op);
    if op.count + 1 in s.cps {
      ConsumeStep(s, op);
    } else {
      CreateSucceeds(s, Consume(s, op), op.byThreshold);
    }
  }

  lemma CreateSucceeds(s: State, s': State, byThreshold: bool)
    requires Inv(s) && NoInit(s.cps) && s' == s.(pending := s'.pending) && s'.pending <= s.pending
    ensures Inv(ExecCreate(s', |s.cps|, byThreshold))
  {
    var n := |s.cps| + 1;
    assert n !in s.cps;
    var t := ExecCreate(s', |s.cps|, byThreshold);
    StoredAllOk(s);
    CreateEvolves(s, t, n);
    CreateRecords(s, t, n);
    FewerOps(s, t);
    InvFrom(s, t);
  }

  lemma CreateEvolves(s: State, t: State, n: nat)
    requires StoredAll(s) && Contiguous(s.cps) && NoInit(s.cps) && n == |s.cps| + 1
    requires t == Put(s, n, ChangePod(0, [], NEW_STATUS)).(origin := t.origin, pending := t.pending)
    ensures Evolves(s, t) && PodsEvolve(s, t) && Contiguous(t.cps) && OnlyTopInit(t.cps) && StoredAll(t)
    ensures t.cps == s.cps[n := t.cps[n]] && n !in s.cps && t.cps[n].podInfos == []
  {
    assert n !in s.cps;
    CreateNumbers(s.cps, n, t.cps[n]);
    forall i | i in t.cps ensures Carried(s, t, i) {}
  }

  lemma CreateRecords(s: State, t: State, n: nat)
    requires Exclusive(s) && Labels(s) && n !in s.cps && n in t.cps
    requires t.cfg == s.cfg && t.pods == s.pods && t.used == s.used
    requires t.cps == s.cps[n := t.cps[n]] && t.cps[n].podInfos == []
    ensures Exclusive(t) && Labels(t)
  {
    assert forall p, i :: RecordedIn(t, p, i) <==> RecordedIn(s, p, i);
    KeepRecorded(s, t);
  }

  lemma CreateNumbers(cps: ChangePods, n: nat, cp: ChangePod)
    requires Contiguous(cps) && n == |cps| + 1 && NoInit(cps)
    ensures Contiguous(cps[n := cp]) && OnlyTopInit(cps[n := cp])
  {
    assert n !in cps;
    assert |cps[n := cp]| == n;
  }

  lemma KeepRecorded(s: State, t: State)
    requires Labels(s) && s.pods == t.pods
    requires forall p, i :: RecordedIn(s, p, i) ==> RecordedIn(t, p, i)
    ensures forall p :: p in t.pods && t.pods[p].defensed ==> Recorded(t, p)
  {
    forall p | p in t.pods && t.pods[p].defensed ensures Recorded(t, p) {
      assert Recorded(s, p);
      var i :| RecordedIn(s, p, i);
      assert RecordedIn(t, p, i);
    }
  }

  lemma SpecStep(s: State, op: Op)
    requires Inv(s) && op in s.pending && op.SpecOp?
    ensures Inv(ExecSpec(Consume(s, op), op.num, op.read, op.batch))
  {
    if Matches(s, op.num, op.read) {
      SpecSucceeds(s, op);
    } else {
      ConsumeStep(s, op);
    }
  }

  lemma SpecSucceeds(s: State, op: Op)
    requires Inv(s) && op in s.pending && op.SpecOp? && Matches(s, op.num, op.read)
    ensures Inv(ExecSpec(Consume(s, op), op.num, op.read, op.batch))
  {
    var n := op.num;
    var t := ExecSpec(Consume(s, op), n, op.read, op.batch);
    assert OpOk(s, op);
    assert s.cps[n] == op.read;
    StoredAllOk(s);
    PutEvolves(s, t, n);
    SpecRecords(s, t, n, op.batch);
    assert Seen(t, n, t.cps[n]);
    OneNewOp(s, t, op, LabelOp(n, t.cps[n], PodNames(op.batch), true));
    InvFrom(s, t);
  }

  /** Recording a batch of unrecorded pods keeps the records exclusive. */
  lemma SpecRecords(s: State, t: State, n: nat, batch: seq<PodSummary>)
    requires Inv(s) && n in s.cps && !s.cps[n].Settled()
    requires t.cfg == s.cfg && t.pods == s.pods && t.used == s.used
    requires n in t.cps && t.cps[n].podInfos == batch && t.cps[n].Init() && t.cps == s.cps[n := t.cps[n]]
    requires DistinctNames(batch) && |batch| <= s.cfg.threshold && NamesOf(batch) <= s.used
    requires forall p :: p in NamesOf(batch) && p in s.pods ==> s.pods[p].finished
    requires forall p, i :: RecordedIn(s, p, i) ==> p !in NamesOf(batch)
    ensures Exclusive(t) && Labels(t)
  {
    forall p, i | RecordedIn(s, p, i) ensures RecordedIn(t, p, i) && i != n {}
    forall p, i | RecordedIn(t, p, i) ensures (i == n && p in NamesOf(batch)) || (i != n && RecordedIn(s, p, i)) {}
    KeepRecorded(s, t);
  }

  lemma LabelStep(s: State, op: Op)
    requires Inv(s) && op in s.pending && op.LabelOp?
    ensures Inv(ExecLabel(Consume(s, op), op.num, op.read, op.todo, op.finish))
  {
    if op.todo != [] && op.todo[0] in s.pods {
      LabelOne(s, op);
    } else {
      ConsumeStep(s, op);
      if op.todo == [] && op.finish {
        LabelsDone(s, op);
      }
    }
  }

  lemma LabelsDone(s: State, op: Op)
    requires Inv(s) && op in s.pending && op.LabelOp? && op.todo == [] && op.finish
    ensures Inv(Issue(Consume(s, op), StatusOp(op.num, op.read, op.read.status.(phase := PreWait))))
  {
    assert OpOk(s, op);
    assert (set p | p in NamesOf(op.read.podInfos) && p !in op.todo) == NamesOf(op.read.podInfos);
    ConsumeStep(s, op);
    IssueStep(Consume(s, op), StatusOp(op.num, op.read, op.read.status.(phase := PreWait)));
  }

  lemma LabelOne(s: State, op: Op)
    requires Inv(s) && op in s.pending && op.LabelOp? && op.todo != [] && op.todo[0] in s.pods
    ensures Inv(ExecLabel(Consume(s, op), op.num, op.read, op.todo, op.finish))
  {
    var t := ExecLabel(Consume(s, op), op.num, op.read, op.todo, op.finish);
    var LabelOp(n, read, todo, finish) := op;
    var next := LabelOp(n, read, todo[1..], finish);
    var q := todo[0];
    assert OpOk(s, op);
    assert q in todo && RecordedIn(s, q, n);
    LabelLabels(s, t, q, n);
    assert OpOk(t, next) by {
      assert Seen(t, n, read);
      assert forall p :: p in todo ==> p == q || p in todo[1..];
    }
    OneNewOp(s, t, op, next);
    InvFromSame(s, t);
  }

  /** Labelling a recorded pod. */
  lemma LabelLabels(s: State, t: State, q: string, n: nat)
    requires Labels(s) && q in s.pods && RecordedIn(s, q, n)
    requires t == s.(pods := s.pods[q := s.pods[q].(defensed := true)], pending := t.pending)
    ensures Labels(t) && PodsEvolve(s, t)
  {
    assert forall p, i :: RecordedIn(t, p, i) <==> RecordedIn(s, p, i);
    assert RecordedIn(t, q, n);
    forall p | p in t.pods && t.pods[p].defensed ensures Recorded(t, p) {
      if p != q {
        assert Recorded(s, p);
        var i :| RecordedIn(s, p, i);
        assert RecordedIn(t, p, i);
      }
    }
  }

  /** Rewriting the status of one ChangePod. */
  lemma StatusPut(s: State, t: State, n: nat, st: Status)
    requires Inv(s) && n in s.cps
    requires t.pending <= s.pending
    requires t == Put(s, n, s.cps[n].(status := st)).(pending := t.pending)
    requires StatusOk(s.cps[n].podInfos, st) && Level(st.phase) > 0
    requires Level(st.phase) >= Level(s.cps[n].status.phase)
    requires s.cps[n].status.podResults != [] ==> st.podResults != []
    requires s.cps[n].Init() ==> AllDefensed(s, NamesOf(s.cps[n].podInfos))
    ensures Inv(t)
  {
    StoredAllOk(s);
    PutEvolves(s, t, n);
    StatusRecords(s, t, n);
    FewerOps(s, t);
    InvFrom(s, t);
  }

  lemma StatusRecords(s: State, t: State, n: nat)
    requires Exclusive(s) && Labels(s) && n in s.cps && n in t.cps
    requires t.cfg == s.cfg && t.pods == s.pods && t.used == s.used
    requires t.cps == s.cps[n := t.cps[n]] && t.cps[n].podInfos == s.cps[n].podInfos
    requires s.cps[n].Init() ==> AllDefensed(s, NamesOf(s.cps[n].podInfos))
    ensures Exclusive(t) && Labels(t)
  {
    assert forall p, i :: RecordedIn(t, p, i) <==> RecordedIn(s, p, i);
    KeepRecorded(s, t);
  }

  lemma RankRaisesLevel(a: Phase, b: Phase)
    requires Rank(a) > Rank(b)
    ensures Level(a) >= Level(b) && Level(a) > 0
  {
  }

  lemma StatusStep(s: State, op: Op)
    requires Inv(s) && op in s.pending && op.StatusOp?
    ensures Inv(ExecStatus(Consume(s, op), op.num, op.read, op.status))
  {
    if Matches(s, op.num, op.read) {
      StatusSucceeds(s, Consume(s, op), op);
    } else {
      ConsumeStep(s, op);
    }
  }

  lemma StatusSucceeds(s: State, s': State, op: Op)
    requires Inv(s) && op.StatusOp? && OpOk(s, op) && Matches(s, op.num, op.read)
    requires s' == s.(pending := s'.pending) && s'.pending <= s.pending
    ensures Inv(ExecStatus(s', op.num, op.read, op.status))
  {
    assert s.cps[op.num] == op.read;
    RankRaisesLevel(op.status.phase, op.read.status.phase);
    StatusPut(s, ExecStatus(s', op.num, op.read, op.status), op.num, op.status);
  }

  lemma PatchStep(s: State, op: Op)
    requires Inv(s) && op in s.pending && op.PatchOp?
    ensures Inv(ExecPatch(Consume(s, op), op.num, op.phase, op.results))
  {
    var t := ExecPatch(Consume(s, op), op.num, op.phase, op.results);
    assert OpOk(s, op);
    var PatchOp(n, read, phase, results) := op;
    StoredOk(s, n);
    PatchedOk(s, op);
    StatusPut(s, t, n, Patched(s.cps[n].status, phase, results));
  }

  lemma PatchedOk(s: State, op: Op)
    requires op.PatchOp? && OpOk(s, op) && Seen(s, op.num, s.cps[op.num])
    ensures StatusOk(s.cps[op.num].podInfos, Patched(s.cps[op.num].status, op.phase, op.results))
    ensures s.cps[op.num].status.podResults != [] ==>
              Patched(s.cps[op.num].status, op.phase, op.results).podResults != []
  {
    var stored := s.cps[op.num];
    assert IsStamp(op.read.podInfos, op.read.status.podResults) && op.read.status.podResults == []
      ==> op.read.podInfos == [];
    StampEmpty(op.read.podInfos, stored.status.podResults);
  }

  lemma StampEmpty(infos: seq<PodSummary>, results: seq<PodSummary>)
    requires results == [] || IsStamp(infos, results)
    ensures infos == [] ==> results == [] && results == Stamp(infos, "", "")
  {
  }

  lemma DeleteEvolves(s: State, t: State, n: nat)
    requires StoredAll(s) && Contiguous(s.cps) && OnlyTopInit(s.cps)
    requires n in s.cps && n == |s.cps| && !s.cps[n].Settled()
    requires t == s.(cps := s.cps - {n}, history := s.history + [s.cps - {n}], pending := t.pending)
    ensures Evolves(s, t) && PodsEvolve(s, t) && Contiguous(t.cps) && OnlyTopInit(t.cps) && StoredAll(t)
    ensures forall p, i :: RecordedIn(t, p, i) <==> RecordedIn(s, p, i)
  {
    assert t.cps.Keys == s.cps.Keys - {n};
    assert |t.cps| == |t.cps.Keys| == |s.cps| - 1;
    forall i | i in t.cps ensures Carried(s, t, i) {}
  }

  lemma DeleteStep(s: State, op: Op)
    requires Inv(s) && op in s.pending && op.DeleteOp? && CarefulStep(s, Exec(op))
    ensures Inv(ExecDelete(Consume(s, op), op.num))
  {
    assert OpOk(s, op);
    if op.num in s.cps {
      DeleteSucceeds(s, Consume(s, op), op.num);
    } else {
      ConsumeStep(s, op);
    }
  }

  lemma DeleteSucceeds(s: State, s': State, n: nat)
    requires Inv(s) && n in s.cps && !s.cps[n].Settled()
    requires s' == s.(pending := s'.pending) && s'.pending <= s.pending
    ensures Inv(ExecDelete(s', n))
  {
    var t := ExecDelete(s', n);
    StoredAllOk(s);
    DeleteEvolves(s, t, n);
    forall p, i | RecordedIn(s, p, i) ensures RecordedIn(t, p, i) {}
    KeepRecorded(s, t);
    FewerOps(s, t);
    InvFrom(s, t);
  }

  lemma StepKeepsInv(s: State, step: Step)
    requires Inv(s) && Enabled(s, step) && CarefulStep(s, step)
    ensures Inv(Apply(s, step))
  {
    var t := Apply(s, step);
    match step
    case AddPod(_, _) => PodStep(s, step);
    case FinishPod(_) => PodStep(s, step);
    case RemovePod(_) => PodStep(s, step);
    case Tick => PodStep(s, step);
    case Decide(k, b) =>
      DecideOk(s, k);
      IssueStep(s, CreateOp(|s.history[k]|, b));
    case InitTurn(k, n, order) =>
      ReadIsSeen(s, k, n);
      InitTurnOk(s, n, s.history[k][n], order);
      IssueStep(s, InitPlan(s.cfg, s.pods, n, s.history[k][n], order));
    case Turn(k, n, reply) =>
      ReadIsSeen(s, k, n);
      TurnOk(s, n, s.history[k][n], reply);
      IssueStep(s, StatusOp(n, s.history[k][n], Advance(s.history[k][n].status, reply, s.now).value));
    case Sweep(k, n) =>
      ReadIsSeen(s, k, n);
      SweepOk(s, n, s.history[k][n]);
      IssueStep(s, StatusOp(n, s.history[k][n], Expire(s.history[k][n].status, s.now).value));
    case Receive(k, n, stage, v, m) =>
      ReadIsSeen(s, k, n);
      ReceiveOk(s, n, s.history[k][n], stage, v, m);
      IssueStep(s, CallbackPatch(n, s.history[k][n], stage, v, m).value);
    case Drop(op) => PendingStep(s, t);
    case Exec(op) =>
      match op {
        case CreateOp(_, _) => CreateStep(s, op);
        case SpecOp(_, _, _) => SpecStep(s, op);
        case LabelOp(_, _, _, _) => LabelStep(s, op);
        case StatusOp(_, _, _) => StatusStep(s, op);
        case DeleteOp(_, _) => DeleteStep(s, op);
        case PatchOp(_, _, _, _) => PatchStep(s, op);
      }
  }

  lemma IssueStep(s: State, op: Op)
    requires Inv(s) && OpOk(s, op)
    ensures Inv(Issue(s, op))
  {
    var t := Issue(s, op);
    OpSame(s, t, op);
    PendingStep(s, t);
  }

  lemma OpSame(s: State, t: State, op: Op)
    requires Inv(s) && OpOk(s, op) && t == s.(pending := t.pending)
    ensures OpOk(t, op)
  {
    forall n | n in s.cps ensures s.cps[n].rv < s.nextRv { StoredOk(s, n); }
    OpStable(s, t, op);
  }

  lemma InitialInv(s: State)
    requires Initial(s)
    ensures Inv(s)
  {
  }

  /** Every state of every careful run satisfies the invariant. */
  lemma {:induction false} RunKeepsInv(s: State, steps: seq<Step>, t: State)
    requires Inv(s) && CarefulRun(s, steps, t)
    ensures Inv(t)
    decreases |steps|
  {
    if steps != [] {
      StepKeepsInv(s, steps[0]);
      RunKeepsInv(Apply(s, steps[0]), steps[1..], t);
    }
  }

  /** What a careful run can lead to from a workload without ChangePods. */
  ghost predicate Reachable(t: State) {
    exists s, steps :: Initial(s) && CarefulRun(s, steps, t)
  }

  lemma ReachableInv(t: State)
    requires Reachable(t)
    ensures Inv(t)
  {
    var s, steps :| Initial(s) && CarefulRun(s, steps, t);
    InitialInv(s);
    RunKeepsInv(s, steps, t);
  }

  // ---------------------------------------------------------------- deletes that are not careful

  /** A delete that lands on the very version its handler read is careful. */
  lemma DeleteOfReadVersion(s: State, op: Op)
    requires Inv(s) && op in s.pending && op.DeleteOp? && (op.num in s.cps ==> Matches(s, op.num, op.read))
    ensures CarefulStep(s, Exec(op))
  {
    assert OpOk(s, op);
  }

  /** Carefulness is exactly what the invariant needs of a delete. */
  lemma CarefulDeleteExactly(s: State, op: Op)
    requires Inv(s) && op in s.pending && op.DeleteOp?
    ensures Inv(Apply(s, Exec(op))) <==> CarefulStep(s, Exec(op))
  {
    if CarefulStep(s, Exec(op)) {
      DeleteStep(s, op);
    } else {
      var t := Apply(s, Exec(op));
      var k := |s.history| - 1;
      assert t.history[k] == s.cps && op.num in t.history[k];
      assert !Seen(t, op.num, t.history[k][op.num]);
    }
  }

  /** A delete breaks the numbering exactly when it hits a ChangePod below the highest number; the next
      count-derived name is then taken. */
  lemma DeleteBreaksNumberingExactly(s: State, op: Op)
    requires Inv(s) && op in s.pending && op.DeleteOp?
    ensures var cps := Apply(s, Exec(op)).cps;
            && (!Contiguous(cps) <==> op.num in s.cps && op.num < |s.cps|)
            && (!Contiguous(cps) <==> |cps| + 1 in cps)
  {
    var cps := Apply(s, Exec(op)).cps;
    if op.num in s.cps {
      assert cps.Keys == s.cps.Keys - {op.num};
      assert |cps| == |cps.Keys| == |s.cps| - 1;
    }
  }

  /** A pod that carries the defence label although no ChangePod records it. */
  ghost predicate Orphan(s: State, p: string) {
    p in s.pods && s.pods[p].defensed && !Recorded(s, p)
  }

  /** The pods a delete orphans are exactly the labelled live pods of the ChangePod it hits. */
  lemma DeleteOrphansExactly(s: State, op: Op, p: string)
    requires Inv(s) && op in s.pending && op.DeleteOp?
    ensures Orphan(Apply(s, Exec(op)), p) <==>
              p in s.pods && s.pods[p].defensed && RecordedIn(s, p, op.num)
  {
    var t := Apply(s, Exec(op));
    if i :| RecordedIn(s, p, i) {
      assert i != op.num ==> RecordedIn(t, p, i);
    }
    if RecordedIn(s, p, op.num) {
      assert forall i :: RecordedIn(t, p, i) ==> RecordedIn(s, p, i);
    }
  }
}
