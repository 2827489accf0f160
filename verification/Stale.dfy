/** Tasks that outlived the generation they were spawned for. */
module Stale {
  import opened Types
  import opened Supervision
  import opened Invariants
  import opened Engines

  /** Spawned for a generation the node has left (or the node is gone). */
  predicate Outdated(w: World, t: TaskId) {
    t < |w.tasks| && Carries(w.tasks[t]) && !Current(w, w.tasks[t].id, w.tasks[t].gen)
  }

  /** The one unchecked section: the renewal's take. */
  predicate Unchecked(w: World, s: Step, t: TaskId)
    requires t < |w.tasks|
  {
    s == Renew(t, Take) && w.tasks[t].Renewal? && w.tasks[t].nphase.Taking? && w.tasks[t].id in w.nodes
  }

  /** Nothing written, nothing queued, nothing spawned and nothing built. */
  ghost predicate Inert(w: World, w': World) {
    w'.nodes == w.nodes && w'.log == w.log && |w'.tasks| == |w.tasks| && |w'.engines| == |w.engines|
  }

  /** The take empties the slot into the taker's hand and does nothing else. */
  ghost predicate OnlyTakes(w: World, w': World, t: TaskId)
    requires t < |w.tasks| && Carries(w.tasks[t]) && w.tasks[t].id in w.nodes
  {
    var id := w.tasks[t].id;
    && w'.nodes == w.nodes[id := w.nodes[id].(engine := None)]
    && w'.log == w.log && |w'.tasks| == |w.tasks| && w'.engines == w.engines
    && Held(w', InHand(t)) == w.nodes[id].engine
  }

  lemma InertListener(w: World, t: TaskId, l: ListenerMove)
    requires Outdated(w, t)
    ensures Inert(w, ApplyListener(w, t, l))
  {
  }

  lemma InertRestart(w: World, t: TaskId, r: RestartMove)
    requires Outdated(w, t)
    ensures Inert(w, ApplyRestart(w, t, r))
  {
  }

  lemma InertRenewal(w: World, t: TaskId, n: RenewalMove)
    requires Outdated(w, t)
    ensures if Unchecked(w, Renew(t, n), t) then OnlyTakes(w, ApplyRenewal(w, t, n), t)
        else Inert(w, ApplyRenewal(w, t, n))
  {
  }

  /** The sections that check the generation, each at its point. */
  predicate Checkpoint(k: Task, s: Step) {
    match s
    case Listen(_, Decide) => k.Listener? && k.lphase.Terminal?
    case Restart(_, r) => k.Restarter? && RestartChecks(k.rphase, r)
    case Renew(_, n) => k.Renewal? && RenewalChecks(k.nphase, n)
    case _ => false
  }

  predicate RestartChecks(phase: RestartPhase, r: RestartMove) {
    match phase
    case Deciding => r.DecideRestart?
    case GivingUp => r.GiveUp?
    case Sleeping => r.Wake?
    case Preparing(_, pack) => r.Install? && pack.Some?
    case Announcing(_) => false
  }

  predicate RenewalChecks(phase: RenewalPhase, n: RenewalMove) {
    match phase
    case Ready => n.Begin?
    case Draining(_) => n.Read?
    case Rebuilding(_, pack) => n.Reinstall? && pack.Some?
    case Failing(_) => n.Fail?
    case _ => false
  }

  /** A task that checks and finds its generation past ends there. */
  lemma OutdatedTasksEnd(w: World, s: Step, t: TaskId)
    requires Outdated(w, t) && Actor(s, t) && Checkpoint(w.tasks[t], s) && Bounded(w)
    ensures t < |Apply(w, s).tasks| && Apply(w, s).tasks[t].Done?
  {
  }

  /** Outdated tasks are inert, but for the unchecked take. */
  lemma OutdatedTasksAreInert(w: World, s: Step, t: TaskId)
    requires Outdated(w, t) && Actor(s, t)
    ensures if Unchecked(w, s, t) then OnlyTakes(w, Apply(w, s), t) else Inert(w, Apply(w, s))
  {
    match s
    case Call(_, c) =>
    case Listen(_, l) => InertListener(w, t, l);
    case Restart(_, r) => InertRestart(w, t, r);
    case Renew(_, n) => InertRenewal(w, t, n);
  }

  /** Once outdated, always outdated. */
  lemma OutdatedKept(w: World, s: Step, w': World, t: TaskId)
    requires Inv(w) && Outdated(w, t) && TasksMove(w, s, w') && NodesMove(w, s, w')
    ensures Outdated(w', t) || w'.tasks[t].Done?
  {
  }

  lemma {:induction false} OutdatedForever(w: World, steps: seq<Step>, t: TaskId)
    requires Inv(w) && t < |w.tasks| && (Outdated(w, t) || w.tasks[t].Done?)
    ensures t < |Run(w, steps).tasks| && (Outdated(Run(w, steps), t) || Run(w, steps).tasks[t].Done?)
    decreases |steps|
  {
    if steps != [] {
      var s := steps[0];
      InvStep(w, s);
      TasksMoveStep(w, s);
      NodesMoveStep(w, s);
      if Outdated(w, t) { OutdatedKept(w, s, Apply(w, s), t); }
      OutdatedForever(Apply(w, s), steps[1..], t);
    }
  }
}
