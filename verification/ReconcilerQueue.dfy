/** The ChangePod reconciler's own work queue: it never forgets a ChangePod that it has to act on. */
module ReconcilerQueue {
  import opened Protocol
  import opened Atomic
  import opened ChangePodHandlers

  /** The stored objects and the keys in the queue. */
  datatype Own = Own(core: State, work: set<nat>)

  /** Create and update events of ChangePods, except for those that are done. */
  function WatchEvents(a: ChangePods, b: ChangePods): set<nat> {
    set n | n in b && (n !in a || a[n] != b[n]) && b[n].status.phase != ExecuteDone
  }

  datatype Turn =
    | Worked(num: nat, order: seq<string>, reply: Reply, budget: nat)
    | Elsewhere(step: Step)
    | Restarted

  /** The present state after a turn of the reconciler for ChangePod `n`, cut short after `budget` writes. */
  function TurnOutcome(s: State, n: nat, order: seq<string>, reply: Reply, budget: nat): State {
    if n !in s.cps then s
    else if s.cps[n].Init() then InitOutcome(s, n, order, budget)
    else WriteOutcome(s, n, s.cps[n], Advance(s.cps[n].status, reply, s.now), budget)
  }

  /** Whether the turn returns an error, so that its key is queued again. */
  predicate TurnFails(s: State, n: nat, order: seq<string>, reply: Reply, budget: nat) {
    n in s.cps
    && if !s.cps[n].Init() then Advance(s.cps[n].status, reply, s.now).Some? && budget == 0
       else
         match InitPlan(s.cfg, s.pods, n, s.cps[n], order)
         case LabelOp(_, _, todo, _) => !LabelRun(s.pods, todo, budget).ok
         case SpecOp(_, _, batch) =>
           budget == 0 || var r := LabelRun(s.pods, PodNames(batch), budget - 1); !r.ok || r.left == 0
         case _ => true  // a delete is reported as an error, whether it succeeds or not
  }

  ghost predicate CanTurn(own: Own, t: Turn) {
    match t
    case Worked(n, order, _, _) => n in own.work && Enumerates(order, own.core.pods.Keys)
    case Elsewhere(step) => Enabled(own.core, step) && CarefulStep(own.core, step)
    case Restarted => true
  }

  /** A turn takes its key, writes, and puts the key back if it failed; other steps, and restarts, only
      produce events. */
  function Next(own: Own, t: Turn): Own
    requires CanTurn(own, t)
  {
    match t
    case Worked(n, order, reply, budget) =>
      var core := TurnOutcome(own.core, n, order, reply, budget);
      Own(core, own.work - {n} + WatchEvents(own.core.cps, core.cps)
                + (if TurnFails(own.core, n, order, reply, budget) then {n} else {}))
    case Elsewhere(step) =>
      var core := Apply(own.core, step);
      Own(core, own.work + WatchEvents(own.core.cps, core.cps))
    case Restarted => Own(own.core, WatchEvents(map[], own.core.cps))
  }

  /** Which keys the watches queue: of ChangePods that a step creates or changes, unless they are done then. */
  lemma StepQueuesExactly(own: Own, step: Step, n: nat)
    requires CanTurn(own, Elsewhere(step))
    ensures var after := Apply(own.core, step).cps;
            n in Next(own, Elsewhere(step)).work <==>
              n in own.work
              || (n in after && after[n].status.phase != ExecuteDone
                  && (n in own.core.cps ==> after[n] != own.core.cps[n]))
  {
  }

  /** The reconciler has something to do for a ChangePod without its batch, in a waiting phase or in one of
      the phases that end in ExecuteDone. */
  predicate NeedsWork(cp: ChangePod) {
    !cp.Settled() || cp.status.phase in {PreWait, PostWait, PostFinish, PreTimeout, PostTimeout, PreFailed, PostFailed}
  }

  ghost predicate NothingForgotten(own: Own) {
    forall n :: n in own.core.cps && NeedsWork(own.core.cps[n]) ==> n in own.work
  }

  /** The next resourceVersion is new. */
  ghost predicate FreshVersions(s: State) {
    forall n :: n in s.cps ==> s.cps[n].rv < s.nextRv
  }

  /** A turn that returns without an error on a ChangePod that needed work has changed or deleted it. */
  lemma TurnWorks(s: State, n: nat, order: seq<string>, reply: Reply, budget: nat)
    requires FreshVersions(s) && n in s.cps && NeedsWork(s.cps[n]) && !TurnFails(s, n, order, reply, budget)
    ensures var t := TurnOutcome(s, n, order, reply, budget); n !in t.cps || t.cps[n] != s.cps[n]
  {
    var t := TurnOutcome(s, n, order, reply, budget);
    assert n in t.cps ==> t.cps[n].rv >= s.nextRv;
  }

  lemma TurnElsewhere(s: State, n: nat, order: seq<string>, reply: Reply, budget: nat, m: nat)
    requires m != n
    ensures var t := TurnOutcome(s, n, order, reply, budget);
            (m in t.cps <==> m in s.cps) && (m in s.cps ==> t.cps[m] == s.cps[m])
  {
  }

  lemma NextForgetsNothing(own: Own, t: Turn)
    requires FreshVersions(own.core) && NothingForgotten(own) && CanTurn(own, t)
    ensures NothingForgotten(Next(own, t))
  {
    var end := Next(own, t);
    forall m | m in end.core.cps && NeedsWork(end.core.cps[m]) ensures m in end.work {
      if t.Worked? {
        if m == t.num {
          if m in own.core.cps && end.core.cps[m] == own.core.cps[m]
             && !TurnFails(own.core, m, t.order, t.reply, t.budget) {
            TurnWorks(own.core, m, t.order, t.reply, t.budget);
          }
        } else {
          TurnElsewhere(own.core, t.num, t.order, t.reply, t.budget, m);
        }
      }
    }
  }

  ghost predicate OwnRun(own: Own, turns: seq<Turn>, end: Own)
    decreases |turns|
  {
    if turns == [] then own == end
    else CanTurn(own, turns[0]) && OwnRun(Next(own, turns[0]), turns[1..], end)
  }

  lemma TurnFresh(s: State, n: nat, order: seq<string>, reply: Reply, budget: nat)
    requires FreshVersions(s)
    ensures FreshVersions(TurnOutcome(s, n, order, reply, budget))
  {
  }

  lemma ExecFresh(s: State, op: Op)
    requires FreshVersions(s)
    ensures FreshVersions(Execute(s, op))
  {
  }

  lemma StepFresh(s: State, step: Step)
    requires FreshVersions(s) && Enabled(s, step)
    ensures FreshVersions(Apply(s, step))
  {
    if step.Exec? {
      ExecFresh(Consume(s, step.op), step.op);
    }
  }

  /** Along every run, with lost writes, conflicts, crashes of turns and restarts, a ChangePod that needs the
      reconciler has its key in the queue. */
  lemma {:induction false} NoChangePodForgotten(own: Own, turns: seq<Turn>, end: Own)
    requires FreshVersions(own.core) && NothingForgotten(own) && OwnRun(own, turns, end)
    ensures NothingForgotten(end)
    decreases |turns|
  {
    if turns != [] {
      NextForgetsNothing(own, turns[0]);
      match turns[0] {
        case Worked(n, order, reply, budget) => TurnFresh(own.core, n, order, reply, budget);
        case Elsewhere(step) => StepFresh(own.core, step);
        case Restarted =>
      }
      NoChangePodForgotten(Next(own, turns[0]), turns[1..], end);
    }
  }

  /** Which ChangePods no turn will ever move: exactly those whose batch is recorded while they are in
      ExecuteInit, those that wait for a callback or a timeout, and those that are done. */
  lemma NeedsWorkExactly(s: State, n: nat, order: seq<string>, reply: Reply)
    requires FreshVersions(s) && n in s.cps && Enumerates(order, s.pods.Keys)
    ensures NeedsWork(s.cps[n]) <==>
              exists budget :: TurnOutcome(s, n, order, reply, budget).cps != s.cps
  {
    if NeedsWork(s.cps[n]) {
      var t := TurnOutcome(s, n, order, reply, 1);
      assert n in t.cps ==> t.cps[n].rv >= s.nextRv;
      assert t.cps != s.cps;
    }
  }
}
