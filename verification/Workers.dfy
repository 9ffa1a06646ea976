/** Where careful deletes come from: one worker for every ChangePod key, and init turns that read the
    present ChangePod.  Everything else still interleaves at single API calls. */
module Workers {
  import opened Protocol
  import opened Safety
  import opened Atomic
  import opened Verdicts
  import opened Scheduling

  /** A write of an init turn for ChangePod `n`. */
  predicate InitWrite(op: Op, n: nat) {
    match op
    case SpecOp(m, _, _) => m == n
    case LabelOp(m, _, _, _) => m == n
    case DeleteOp(m, _) => m == n
    case StatusOp(m, read, _) => m == n && read.Init()
    case _ => false
  }

  /** An init turn starts when no other turn for its key is under way, on the ChangePod as it is. */
  ghost predicate SerialStep(s: State, step: Step) {
    step.InitTurn? && ReadsFrom(s, step.snapshot, step.num) ==>
      && (forall op :: op in s.pending ==> !InitWrite(op, step.num))
      && step.num in s.cps && s.history[step.snapshot][step.num] == s.cps[step.num]
  }

  ghost predicate SerialRun(s: State, steps: seq<Step>, t: State)
    decreases |steps|
  {
    if steps == [] then s == t
    else Enabled(s, steps[0]) && SerialStep(s, steps[0]) && SerialRun(Apply(s, steps[0]), steps[1..], t)
  }

  ghost predicate OneTurn(s: State) {
    forall n, a, b :: a in s.pending && b in s.pending && InitWrite(a, n) && InitWrite(b, n) ==>
                        a == b && s.pending[a] == 1
  }

  ghost predicate DeletesFit(s: State) {
    forall op :: op in s.pending && op.DeleteOp? && op.num in s.cps ==> !s.cps[op.num].Settled()
  }

  ghost predicate Serial(s: State) {
    OneTurn(s) && DeletesFit(s)
  }

  lemma FewerSerial(s: State, t: State)
    requires Serial(s) && t.pending <= s.pending
    requires forall op :: op in t.pending && op.DeleteOp? && op.num in t.cps && t.cps[op.num].Settled() ==>
               op.num in s.cps && s.cps[op.num].Settled()
    ensures Serial(t)
  {
    forall n, a, b | a in t.pending && b in t.pending && InitWrite(a, n) && InitWrite(b, n)
      ensures a == b && t.pending[a] == 1
    {
      assert a in s.pending && b in s.pending && t.pending[a] <= s.pending[a];
    }
  }

  /** A write that belongs to no init turn. */
  lemma IssueOther(s: State, op: Op)
    requires Serial(s) && forall n :: !InitWrite(op, n)
    ensures Serial(Issue(s, op))
  {
    assert !op.DeleteOp? by { if op.DeleteOp? { assert InitWrite(op, op.num); } }
  }

  lemma IssueFirst(s: State, op: Op, n: nat)
    requires Serial(s) && (forall o :: o in s.pending ==> !InitWrite(o, n))
    requires forall m :: InitWrite(op, m) ==> m == n
    requires op.DeleteOp? && op.num in s.cps ==> !s.cps[op.num].Settled()
    requires InitWrite(op, n)
    ensures Serial(Issue(s, op))
  {
    assert op !in s.pending;
    var t := Issue(s, op);
    forall m, a, b | a in t.pending && b in t.pending && InitWrite(a, m) && InitWrite(b, m)
      ensures a == b && t.pending[a] == 1
    {
      if a == op || b == op {
        assert m == n;
      } else {
        assert a in s.pending && b in s.pending;
      }
    }
  }

  /** The next write of a turn takes the place of the one before. */
  lemma Successor(s: State, op: Op, t: State, next: Op, n: nat)
    requires Serial(s) && op in s.pending && InitWrite(op, n) && InitWrite(next, n) && !next.DeleteOp?
    requires t.pending == (s.pending - multiset{op}) + multiset{next}
    requires forall o :: o in s.pending && o != op && o.DeleteOp? && o.num in t.cps && t.cps[o.num].Settled() ==>
               o.num in s.cps && s.cps[o.num].Settled()
    ensures Serial(t)
  {
    var u := Consume(s, op);
    assert op !in u.pending;
    forall o | o in u.pending ensures !InitWrite(o, n) {
      assert o in s.pending && o != op;
    }
    FewerSerial(s, u);
    var v := u.(cps := t.cps);
    assert forall o :: o in v.pending ==> o in s.pending && o != op;
    FewerSerial(s, v);
    IssueFirst(v, next, n);
    assert Issue(v, next).pending == t.pending;
  }

  lemma SpecSerial(s: State, op: Op)
    requires Serial(s) && op in s.pending && op.SpecOp?
    ensures Serial(ExecSpec(Consume(s, op), op.num, op.read, op.batch))
  {
    var t := ExecSpec(Consume(s, op), op.num, op.read, op.batch);
    if Matches(s, op.num, op.read) {
      var next := LabelOp(op.num, t.cps[op.num], PodNames(op.batch), true);
      assert forall o :: o in s.pending && o != op && InitWrite(o, op.num) ==> false;
      Successor(s, op, t, next, op.num);
    } else {
      FewerSerial(s, t);
    }
  }

  lemma LabelSerial(s: State, op: Op)
    requires Serial(s) && op in s.pending && op.LabelOp? && op.read.Init()
    ensures Serial(ExecLabel(Consume(s, op), op.num, op.read, op.todo, op.finish))
  {
    var t := ExecLabel(Consume(s, op), op.num, op.read, op.todo, op.finish);
    if op.todo == [] && op.finish {
      Successor(s, op, t, StatusOp(op.num, op.read, op.read.status.(phase := PreWait)), op.num);
    } else if op.todo != [] && op.todo[0] in s.pods {
      Successor(s, op, t, LabelOp(op.num, op.read, op.todo[1..], op.finish), op.num);
    } else {
      FewerSerial(s, t);
    }
  }

  /** A checked write that lands on version `read` leaves planned deletes fitting: a delete of the same
      ChangePod would have been planned by another turn. */
  lemma StatusSerial(s: State, op: Op)
    requires Serial(s) && op in s.pending && op.StatusOp? && OpOk(s, op)
    ensures Serial(ExecStatus(Consume(s, op), op.num, op.read, op.status))
  {
    var t := ExecStatus(Consume(s, op), op.num, op.read, op.status);
    forall o | o in t.pending && o.DeleteOp? && o.num in t.cps && t.cps[o.num].Settled()
      ensures o.num in s.cps && s.cps[o.num].Settled()
    {
      assert o in s.pending;
      if o.num == op.num && op.read.Init() {
        assert InitWrite(op, op.num) && InitWrite(o, op.num);
      }
    }
    FewerSerial(s, t);
  }

  lemma PatchSerial(s: State, op: Op)
    requires Serial(s) && op in s.pending && op.PatchOp? && OpOk(s, op)
    ensures Serial(ExecPatch(Consume(s, op), op.num, op.phase, op.results))
  {
    var t := ExecPatch(Consume(s, op), op.num, op.phase, op.results);
    FewerSerial(s, t);
  }

  lemma CreateSerial(s: State, op: Op)
    requires Serial(s) && op in s.pending && op.CreateOp?
    ensures Serial(ExecCreate(Consume(s, op), op.count, op.byThreshold))
  {
    FewerSerial(s, ExecCreate(Consume(s, op), op.count, op.byThreshold));
  }

  lemma DeleteSerial(s: State, op: Op)
    requires Serial(s) && op in s.pending && op.DeleteOp?
    ensures Serial(ExecDelete(Consume(s, op), op.num))
  {
    FewerSerial(s, ExecDelete(Consume(s, op), op.num));
  }

  lemma ExecSerial(s: State, op: Op)
    requires PendingOk(s) && Serial(s) && op in s.pending
    ensures Serial(Apply(s, Exec(op)))
  {
    assert OpOk(s, op);
    match op
    case CreateOp(_, _) => CreateSerial(s, op);
    case SpecOp(_, _, _) => SpecSerial(s, op);
    case LabelOp(_, _, _, _) => LabelSerial(s, op);
    case StatusOp(_, _, _) => StatusSerial(s, op);
    case DeleteOp(_, _) => DeleteSerial(s, op);
    case PatchOp(_, _, _, _) => PatchSerial(s, op);
  }

  lemma InitTurnSerial(s: State, step: Step)
    requires Serial(s) && Enabled(s, step) && SerialStep(s, step) && step.InitTurn?
    ensures Serial(Apply(s, step))
  {
    IssueFirst(s, InitPlan(s.cfg, s.pods, step.num, s.history[step.snapshot][step.num], step.order), step.num);
  }

  lemma TurnSerial(s: State, step: Step)
    requires Serial(s) && Enabled(s, step) && (step.Turn? || step.Sweep?)
    ensures Serial(Apply(s, step))
  {
    var read := s.history[step.snapshot][step.num];
    var next := if step.Turn? then Advance(read.status, step.reply, s.now) else Expire(read.status, s.now);
    IssueOther(s, StatusOp(step.num, read, next.value));
  }

  lemma StepKeepsSerial(s: State, step: Step)
    requires PendingOk(s) && Serial(s) && Enabled(s, step) && SerialStep(s, step)
    ensures Serial(Apply(s, step))
  {
    match step
    case Exec(op) => ExecSerial(s, op);
    case InitTurn(_, _, _) => InitTurnSerial(s, step);
    case Turn(_, _, _) => TurnSerial(s, step);
    case Sweep(_, _) => TurnSerial(s, step);
    case Decide(k, b) => IssueOther(s, CreateOp(|s.history[k]|, b));
    case Receive(k, n, stage, v, m) => IssueOther(s, CallbackPatch(n, s.history[k][n], stage, v, m).value);
    case _ => FewerSerial(s, Apply(s, step));
  }

  /** With one worker for every ChangePod key whose init turns read the present ChangePod, every delete is
      careful, however the API calls of all handlers, callbacks and sweeps interleave and whatever the
      other handlers read. */
  lemma {:induction false} SerialRunIsCareful(s: State, steps: seq<Step>, t: State)
    requires Inv(s) && Serial(s) && SerialRun(s, steps, t)
    ensures CarefulRun(s, steps, t)
    decreases |steps|
  {
    if steps != [] {
      var step := steps[0];
      assert CarefulStep(s, step);
      StepKeepsSerial(s, step);
      StepKeepsInv(s, step);
      SerialRunIsCareful(Apply(s, step), steps[1..], t);
    }
  }

  /** So what such an operator reaches from the start is reachable in the sense of the theorems. */
  lemma SerialIsReachable(s: State, steps: seq<Step>, t: State)
    requires Initial(s) && SerialRun(s, steps, t)
    ensures Reachable(t)
  {
    InitialInv(s);
    SerialRunIsCareful(s, steps, t);
  }

  // ---------------------------------------------------------------- the queue system

  /** In the queue system, too, init turns start alone for their key and on the present ChangePod. */
  ghost predicate SerialAction(sys: System, a: Action) {
    Offered(sys, a) && (a.Planned? ==> SerialStep(sys.core, a.step))
  }

  ghost predicate SerialSystemRun(sys: System, actions: seq<Action>, end: System)
    decreases |actions|
  {
    if actions == [] then sys == end
    else SerialAction(sys, actions[0]) && SerialSystemRun(Act(sys, actions[0]), actions[1..], end)
  }

  lemma SerialActionIsCareful(sys: System, a: Action)
    requires Serial(sys.core) && SerialAction(sys, a)
    ensures Can(sys, a)
  {
  }

  lemma CreateOutcomeSerial(s: State, byThreshold: bool)
    requires Serial(s)
    ensures Serial(CreateOutcome(s, byThreshold))
  {
    FewerSerial(s, CreateOutcome(s, byThreshold));
  }

  lemma ServeSerial(sys: System, a: Action)
    requires Serial(sys.core) && a.Served? && Offered(sys, a)
    ensures Serial(Act(sys, a).core)
  {
    CreateOutcomeSerial(sys.core, sys.wl.status == Running);
  }

  lemma ActKeepsSerial(sys: System, a: Action)
    requires PendingOk(sys.core) && Serial(sys.core) && SerialAction(sys, a)
    ensures Serial(Act(sys, a).core)
  {
    match a
    case PodAdded(p, ip) => StepKeepsSerial(sys.core, AddPod(p, ip));
    case PodFinished(p) => StepKeepsSerial(sys.core, FinishPod(p));
    case PodRemoved(p) => StepKeepsSerial(sys.core, RemovePod(p));
    case ClockTicked => StepKeepsSerial(sys.core, Tick);
    case Planned(step) => StepKeepsSerial(sys.core, step);
    case Executed(op) => StepKeepsSerial(sys.core, Exec(op));
    case Dropped(op) => StepKeepsSerial(sys.core, Drop(op));
    case Served(_, _, _) => ServeSerial(sys, a);
    case WorkloadSwept =>
    case Restarted =>
  }

  /** So the queue system needs no assumption on deletes either: with one worker for every ChangePod key
      whose init turns read the present ChangePod, every run of it is one in which deletes are careful. */
  lemma {:induction false} SerialSystemRunIsCareful(sys: System, actions: seq<Action>, end: System)
    requires Inv(sys.core) && Serial(sys.core) && SerialSystemRun(sys, actions, end)
    ensures SystemRun(sys, actions, end)
    decreases |actions|
  {
    if actions != [] {
      SerialActionIsCareful(sys, actions[0]);
      ActKeepsSerial(sys, actions[0]);
      ActKeepsInv(sys, actions[0]);
      SerialSystemRunIsCareful(Act(sys, actions[0]), actions[1..], end);
    }
  }
}
