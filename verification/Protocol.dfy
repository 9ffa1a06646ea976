/** The change-defence protocol of one ChangeWorkload, at the granularity of single API calls.

    A handler first reads and then writes.  Its writes wait in `pending` until the API server
    executes them, in any order and interleaved with everything else; a write may also be lost,
    because the call failed or the operator crashed.  ChangePods are read from a cache, so a read
    may see any past state of them (`history`); Pods are read as they are.
 */
module Protocol {
  import opened Options
  import opened PodSummaries

  // ---------------------------------------------------------------- stored objects

  datatype Phase =
    | ExecuteInit | PreWait | PreSubmitted | PreTimeout | PreFailed
    | PostWait | PostSubmitted | PostFinish | PostTimeout | PostFailed | ExecuteDone

  /** Status of a ChangePod.  `message` holds the phase it finished from; ExecuteInit is the
      empty string both as a phase and as a message. */
  datatype Status = Status(
    phase: Phase, message: Phase, podResults: seq<PodSummary>, nodeId: string,
    preSubmitUnix: int, preTimeoutThreshold: int, postSubmitUnix: int, postTimeoutThreshold: int)

  const NEW_STATUS := Status(ExecuteInit, ExecuteInit, [], "", 0, 0, 0, 0)

  /** `rv` is the resourceVersion; the ChangePod's number is its key in the store. */
  datatype ChangePod = ChangePod(rv: nat, podInfos: seq<PodSummary>, status: Status) {
    predicate Init() { status.phase == ExecuteInit }

    /** Once settled, its record of pods never changes and it is never deleted. */
    predicate Settled() { !Init() || podInfos != [] }
  }

  /** A live pod of this version with its operate-finished and defense-status labels. */
  datatype Pod = Pod(ip: string, finished: bool, defensed: bool)

  type ChangePods = map<nat, ChangePod>

  datatype Config = Config(threshold: nat, deployment: string, ns: string)

  /** A write of some handler that has finished its reads.  `read` is the ChangePod it read. */
  datatype Op =
    | CreateOp(count: nat, byThreshold: bool)
    | SpecOp(num: nat, read: ChangePod, batch: seq<PodSummary>)
    | LabelOp(num: nat, read: ChangePod, todo: seq<string>, finish: bool)
    | StatusOp(num: nat, read: ChangePod, status: Status)
    | DeleteOp(num: nat, read: ChangePod)
    | PatchOp(num: nat, read: ChangePod, phase: Phase, results: Option<seq<PodSummary>>)

  datatype State = State(
    cfg: Config,
    pods: map<string, Pod>,
    used: set<string>,            // every pod name there has ever been
    cps: ChangePods,
    nextRv: nat,
    history: seq<ChangePods>,     // every past content of `cps`, the present one last
    origin: map<nat, bool>,       // whether a number was last created by the threshold test
    pending: multiset<Op>,
    now: int)

  ghost predicate Initial(s: State) {
    && s.cps == map[] && s.history == [s.cps] && s.pending == multiset{}
    && (forall p :: p in s.pods ==> p in s.used && !s.pods[p].defensed)
  }

  // ---------------------------------------------------------------- reading pods

  /** A list call returns every live pod once, in no particular order. */
  ghost predicate Enumerates(order: seq<string>, names: set<string>) {
    && Distinct(order)
    && (forall p :: p in order <==> p in names)
  }

  ghost predicate Distinct(s: seq<string>) {
    forall i, j :: 0 <= i < j < |s| ==> s[i] != s[j]
  }

  predicate Undefensed(pods: map<string, Pod>, p: string) {
    p in pods && pods[p].finished && !pods[p].defensed
  }

  function UndefensedSet(pods: map<string, Pod>): set<string> {
    set p | p in pods && Undefensed(pods, p)
  }

  function FinishedSet(pods: map<string, Pod>): set<string> {
    set p | p in pods && pods[p].finished
  }

  /** The finished pods without the defence label, in the order of the listing. */
  function FilterUndefensed(order: seq<string>, pods: map<string, Pod>): (r: seq<string>)
    ensures forall p :: p in r <==> p in order && Undefensed(pods, p)
  {
    if order == [] then []
    else if Undefensed(pods, order[0]) then [order[0]] + FilterUndefensed(order[1..], pods)
    else FilterUndefensed(order[1..], pods)
  }

  function Summary(cfg: Config, p: string, ip: string): PodSummary {
    PodSummary(cfg.deployment, p, "default", p, ip, cfg.ns, "", "")
  }

  function Summaries(cfg: Config, names: seq<string>, pods: map<string, Pod>): (r: seq<PodSummary>)
    requires forall p :: p in names ==> p in pods
    ensures |r| == |names| && forall i :: 0 <= i < |r| ==> r[i].pod == names[i]
  {
    seq(|names|, i requires 0 <= i < |names| => Summary(cfg, names[i], pods[names[i]].ip))
  }

  function Take<T>(s: seq<T>, n: nat): (r: seq<T>)
    ensures |r| <= n && r <= s && (|r| < n ==> r == s)
    ensures forall x :: x in r ==> x in s
  {
    if |s| > n then s[..n] else s
  }

  /** The pods the init handler picks: at most the threshold, from the front of the listing. */
  function Batch(cfg: Config, pods: map<string, Pod>, order: seq<string>): seq<PodSummary> {
    Summaries(cfg, Take(FilterUndefensed(order, pods), cfg.threshold), pods)
  }

  function PodNames(infos: seq<PodSummary>): (r: seq<string>)
    ensures |r| == |infos| && forall i :: 0 <= i < |r| ==> r[i] == infos[i].pod
    ensures forall p :: p in r <==> p in NamesOf(infos)
  {
    seq(|infos|, i requires 0 <= i < |infos| => infos[i].pod)
  }

  // ---------------------------------------------------------------- handlers of one ChangePod

  const TIMEOUT_THRESHOLD := 120

  /** Answer of the control side to a submitted notification. */
  datatype Reply = Accepted(nodeId: string) | Refused

  /** Status the reconciler writes for a ChangePod past ExecuteInit, if it writes at all. */
  function Advance(st: Status, reply: Reply, now: int): Option<Status> {
    match st.phase
    case PreWait =>
      if reply.Refused? then Some(st.(phase := PreFailed))
      else Some(st.(phase := PreSubmitted, nodeId := reply.nodeId,
                    preTimeoutThreshold := TIMEOUT_THRESHOLD, preSubmitUnix := now))
    case PostWait =>
      if reply.Refused? then Some(st.(phase := PostFailed))
      else Some(st.(phase := PostSubmitted,
                    postTimeoutThreshold := TIMEOUT_THRESHOLD, postSubmitUnix := now))
    case PostFinish | PreTimeout | PostTimeout | PreFailed | PostFailed =>
      Some(st.(message := st.phase, phase := ExecuteDone))
    case _ => None
  }

  /** Status the timeout sweep writes, if it writes at all. */
  function Expire(st: Status, now: int): Option<Status> {
    if st.phase == PreSubmitted && now - st.preSubmitUnix > st.preTimeoutThreshold then
      Some(st.(phase := PreTimeout))
    else if st.phase == PostSubmitted && now - st.postSubmitUnix > st.postTimeoutThreshold then
      Some(st.(phase := PostTimeout))
    else None
  }

  datatype Stage = Pre | Post

  function Stamp(infos: seq<PodSummary>, verdict: string, message: string): seq<PodSummary> {
    seq(|infos|, i requires 0 <= i < |infos| => infos[i].(verdict := verdict, message := message))
  }

  /** The merge patch of the HTTP callback.  It carries the fields that differ from what the
      callback read, and goes to the status subresource. */
  function CallbackPatch(num: nat, read: ChangePod, stage: Stage, verdict: string, message: string): Option<Op> {
    match stage
    case Pre =>
      if read.status.phase == PreSubmitted then Some(PatchOp(num, read, PostWait, None)) else None
    case Post =>
      if read.status.phase == PostSubmitted then
        var results := Stamp(read.podInfos, verdict, message);
        Some(PatchOp(num, read, PostFinish, if results == read.status.podResults then None else Some(results)))
      else None
  }

  /** First half of the init handler: what it does with the ChangePod and the pods it read. */
  function InitPlan(cfg: Config, pods: map<string, Pod>, num: nat, read: ChangePod, order: seq<string>): Op {
    if read.podInfos != [] then LabelOp(num, read, PodNames(read.podInfos), false)
    else if FilterUndefensed(order, pods) == [] then DeleteOp(num, read)
    else SpecOp(num, read, Batch(cfg, pods, order))
  }

  // ---------------------------------------------------------------- steps

  datatype Step =
    | AddPod(name: string, ip: string)
    | FinishPod(name: string)
    | RemovePod(name: string)
    | Tick
    | Decide(snapshot: nat, byThreshold: bool)
    | InitTurn(snapshot: nat, num: nat, order: seq<string>)
    | Turn(snapshot: nat, num: nat, reply: Reply)
    | Sweep(snapshot: nat, num: nat)
    | Receive(snapshot: nat, num: nat, stage: Stage, verdict: string, message: string)
    | Exec(op: Op)
    | Drop(op: Op)

  predicate ReadsFrom(s: State, snapshot: nat, num: nat) {
    snapshot < |s.history| && num in s.history[snapshot]
  }

  /** The guard under which a workload handler creates a ChangePod. */
  predicate ReachesThreshold(cfg: Config, pods: map<string, Pod>, byThreshold: bool) {
    if byThreshold then |UndefensedSet(pods)| >= cfg.threshold else |UndefensedSet(pods)| > 0
  }

  predicate NoInit(cps: ChangePods) {
    forall n :: n in cps ==> !cps[n].Init()
  }

  ghost predicate Enabled(s: State, step: Step) {
    match step
    case AddPod(p, _) => p !in s.used
    case FinishPod(p) => p in s.pods
    case RemovePod(p) => p in s.pods
    case Tick => true
    case Decide(k, byThreshold) =>
      && k < |s.history| && NoInit(s.history[k])
      && ReachesThreshold(s.cfg, s.pods, byThreshold)
    case InitTurn(k, n, order) =>
      ReadsFrom(s, k, n) && s.history[k][n].Init() && Enumerates(order, s.pods.Keys)
    case Turn(k, n, reply) =>
      ReadsFrom(s, k, n) && Advance(s.history[k][n].status, reply, s.now).Some?
    case Sweep(k, n) =>
      ReadsFrom(s, k, n) && Expire(s.history[k][n].status, s.now).Some?
    case Receive(k, n, stage, v, m) =>
      ReadsFrom(s, k, n) && CallbackPatch(n, s.history[k][n], stage, v, m).Some?
    case Exec(op) => op in s.pending
    case Drop(op) => op in s.pending
  }

  function Issue(s: State, op: Op): State {
    s.(pending := s.pending + multiset{op})
  }

  function Apply(s: State, step: Step): State
    requires Enabled(s, step)
  {
    match step
    case AddPod(p, ip) => s.(pods := s.pods[p := Pod(ip, false, false)], used := s.used + {p})
    case FinishPod(p) => s.(pods := s.pods[p := s.pods[p].(finished := true)])
    case RemovePod(p) => s.(pods := s.pods - {p})
    case Tick => s.(now := s.now + 1)
    case Decide(k, byThreshold) => Issue(s, CreateOp(|s.history[k]|, byThreshold))
    case InitTurn(k, n, order) => Issue(s, InitPlan(s.cfg, s.pods, n, s.history[k][n], order))
    case Turn(k, n, reply) =>
      var read := s.history[k][n];
      Issue(s, StatusOp(n, read, Advance(read.status, reply, s.now).value))
    case Sweep(k, n) =>
      var read := s.history[k][n];
      Issue(s, StatusOp(n, read, Expire(read.status, s.now).value))
    case Receive(k, n, stage, v, m) => Issue(s, CallbackPatch(n, s.history[k][n], stage, v, m).value)
    case Exec(op) => Execute(Consume(s, op), op)
    case Drop(op) => Consume(s, op)
  }

  function Consume(s: State, op: Op): State {
    s.(pending := s.pending - multiset{op})
  }

  // ---------------------------------------------------------------- the API server

  /** Store `cps[n] := cp` under a fresh resourceVersion. */
  function Put(s: State, n: nat, cp: ChangePod): State {
    var cps := s.cps[n := cp.(rv := s.nextRv)];
    s.(cps := cps, nextRv := s.nextRv + 1, history := s.history + [cps])
  }

  /** The optimistic lock: a checked write succeeds on the version that was read. */
  predicate Matches(s: State, n: nat, read: ChangePod) {
    n in s.cps && s.cps[n].rv == read.rv
  }

  /** Create succeeds if the name derived from the count is free. */
  function ExecCreate(s: State, count: nat, byThreshold: bool): State {
    if count + 1 in s.cps then s
    else Put(s, count + 1, ChangePod(0, [], NEW_STATUS)).(origin := s.origin[count + 1 := byThreshold])
  }

  /** Checked update of the spec; on success the handler goes on to label its batch. */
  function ExecSpec(s: State, n: nat, read: ChangePod, batch: seq<PodSummary>): State {
    if !Matches(s, n, read) then s
    else
      var t := Put(s, n, s.cps[n].(podInfos := batch));
      Issue(t, LabelOp(n, t.cps[n], PodNames(batch), true))
  }

  function LabelPod(pods: map<string, Pod>, p: string): map<string, Pod>
    requires p in pods
  {
    pods[p := pods[p].(defensed := true)]
  }

  /** One label patch; a pod that is gone makes the handler give up. */
  function ExecLabel(s: State, n: nat, read: ChangePod, todo: seq<string>, finish: bool): State {
    if todo == [] then
      if finish then Issue(s, StatusOp(n, read, read.status.(phase := PreWait))) else s
    else if todo[0] !in s.pods then s
    else Issue(s.(pods := LabelPod(s.pods, todo[0])), LabelOp(n, read, todo[1..], finish))
  }

  /** Checked update of the status. */
  function ExecStatus(s: State, n: nat, read: ChangePod, status: Status): State {
    if !Matches(s, n, read) then s else Put(s, n, s.cps[n].(status := status))
  }

  /** Delete by name, whatever version is stored. */
  function ExecDelete(s: State, n: nat): State {
    if n !in s.cps then s
    else s.(cps := s.cps - {n}, history := s.history + [s.cps - {n}])
  }

  function Patched(st: Status, phase: Phase, results: Option<seq<PodSummary>>): Status {
    if results.Some? then st.(phase := phase, podResults := results.value) else st.(phase := phase)
  }

  /** Merge patch of the status, whatever version is stored. */
  function ExecPatch(s: State, n: nat, phase: Phase, results: Option<seq<PodSummary>>): State {
    if n !in s.cps then s
    else Put(s, n, s.cps[n].(status := Patched(s.cps[n].status, phase, results)))
  }

  function Execute(s: State, op: Op): State {
    match op
    case CreateOp(count, byThreshold) => ExecCreate(s, count, byThreshold)
    case SpecOp(n, read, batch) => ExecSpec(s, n, read, batch)
    case LabelOp(n, read, todo, finish) => ExecLabel(s, n, read, todo, finish)
    case StatusOp(n, read, status) => ExecStatus(s, n, read, status)
    case DeleteOp(n, _) => ExecDelete(s, n)
    case PatchOp(n, _, phase, results) => ExecPatch(s, n, phase, results)
  }

  // ---------------------------------------------------------------- runs

  ghost predicate RunsTo(s: State, steps: seq<Step>, t: State)
    decreases |steps|
  {
    if steps == [] then s == t
    else Enabled(s, steps[0]) && RunsTo(Apply(s, steps[0]), steps[1..], t)
  }

  /** A delete is careful when it does not hit a ChangePod that has its batch or is past ExecuteInit.
      The code does not check this when it deletes: it relies on one worker per key and a fresh cache, from
      which module Workers derives it. */
  predicate CarefulStep(s: State, step: Step) {
    step.Exec? && step.op.DeleteOp? && step.op.num in s.cps ==> !s.cps[step.op.num].Settled()
  }

  ghost predicate CarefulRun(s: State, steps: seq<Step>, t: State)
    decreases |steps|
  {
    if steps == [] then s == t
    else Enabled(s, steps[0]) && CarefulStep(s, steps[0]) && CarefulRun(Apply(s, steps[0]), steps[1..], t)
  }

  lemma {:induction false} CarefulRunIsRun(s: State, steps: seq<Step>, t: State)
    requires CarefulRun(s, steps, t)
    ensures RunsTo(s, steps, t)
    decreases |steps|
  {
    if steps != [] {
      CarefulRunIsRun(Apply(s, steps[0]), steps[1..], t);
    }
  }

  lemma {:induction false} CarefulRunAppend(s: State, a: seq<Step>, t: State, b: seq<Step>, u: State)
    requires CarefulRun(s, a, t) && CarefulRun(t, b, u)
    ensures CarefulRun(s, a + b, u)
    decreases |a|
  {
    var all := a + b;
    if a == [] {
      assert all == b;
    } else {
      CarefulRunAppend(Apply(s, a[0]), a[1..], t, b, u);
      assert all[1..] == a[1..] + b;
      assert all[0] == a[0];
    }
  }
}
