/** The bounded restart loop. */
module Restarts {
  import opened Types
  import opened Supervision
  import opened Invariants

  // ----- the budget -------------------------------------------------------------------------

  /** Within a generation the debt only grows, except at the hand of that generation's listener. */
  ghost predicate DebtKept(w: World, s: Step, w': World, id: NodeId) {
    id in w.nodes && id in w'.nodes && w'.nodes[id].generation == w.nodes[id].generation ==>
      || w.nodes[id].attempts <= w'.nodes[id].attempts
      || (s.Listen? && s.t < |w.tasks| && w.tasks[s.t].Listener? && w.tasks[s.t].id == id
          && w.tasks[s.t].gen == w.nodes[id].generation)
  }

  lemma DebtUser(w: World, u: UserMove, id: NodeId)
    requires w.nodes.Keys <= w.used
    ensures DebtKept(w, User(u), ApplyUser(w, u), id)
  {
  }

  lemma DebtCall(w: World, t: TaskId, c: CallMove, id: NodeId)
    ensures DebtKept(w, Call(t, c), ApplyCall(w, t, c), id)
  {
  }

  lemma DebtListener(w: World, t: TaskId, l: ListenerMove, id: NodeId)
    ensures DebtKept(w, Listen(t, l), ApplyListener(w, t, l), id)
  {
  }

  lemma DebtRestart(w: World, t: TaskId, r: RestartMove, id: NodeId)
    ensures DebtKept(w, Restart(t, r), ApplyRestart(w, t, r), id)
  {
  }

  lemma DebtRenewal(w: World, t: TaskId, n: RenewalMove, id: NodeId)
    ensures DebtKept(w, Renew(t, n), ApplyRenewal(w, t, n), id)
  {
  }

  lemma DebtStep(w: World, s: Step, id: NodeId)
    requires w.nodes.Keys <= w.used
    ensures DebtKept(w, s, Apply(w, s), id)
  {
    match s
    case User(u) => DebtUser(w, u, id);
    case Call(t, c) => DebtCall(w, t, c, id);
    case Listen(t, l) => DebtListener(w, t, l, id);
    case Restart(t, r) => DebtRestart(w, t, r, id);
    case Renew(t, n) => DebtRenewal(w, t, n, id);
    case Deliver =>
    case EngineFlip(x, alive) =>
  }

  // ----- the loop ---------------------------------------------------------------------------

  function PhaseRank(phase: RestartPhase): nat {
    match phase
    case Announcing(_) => 5
    case Sleeping => 4
    case Preparing(_, pack) => if pack.None? then 3 else 2
    case Deciding => 1
    case GivingUp => 0
  }

  /** Restarts the policy still grants a restarter; none once its generation has passed. */
  function Left(w: World, k: Task): nat
    requires k.Restarter?
  {
    if Current(w, k.id, k.gen) && w.nodes[k.id].attempts < w.budget then w.budget - w.nodes[k.id].attempts else 0
  }

  /** An upper bound on the sections a restarter still runs. */
  function Fuel(w: World, t: TaskId): (f: nat)
    ensures f <= 5 * w.budget + 6
  {
    if RestarterAt(w, t) then 1 + 5 * Left(w, w.tasks[t]) + PhaseRank(w.tasks[t].rphase) else 0
  }

  /** Is this the section the restarter has reached? */
  predicate Fits(phase: RestartPhase, r: RestartMove) {
    match phase
    case Deciding => r.DecideRestart?
    case GivingUp => r.GiveUp?
    case Announcing(_) => r.Announce?
    case Sleeping => r.Wake?
    case Preparing(prepared, pack) =>
      r.PrepareFails? || (if pack.None? then r.Load? && Loads(prepared, pack, r.pack) else r.Install?)
  }

  predicate RunsSection(w: World, s: Step, t: TaskId) {
    s.Restart? && s.t == t && RestarterAt(w, t) && Fits(w.tasks[t].rphase, s.r)
  }

  lemma OwnSectionBurns(w: World, t: TaskId, r: RestartMove)
    requires RunsSection(w, Restart(t, r), t)
    ensures Fuel(ApplyRestart(w, t, r), t) < Fuel(w, t)
  {
  }

  /** Linearity is what keeps others from refilling a restarter's budget. */
  lemma OthersKeepFuel(w: World, s: Step, w': World, t: TaskId)
    requires Inv(w) && RestarterAt(w, t) && !Actor(s, t)
    requires TasksMove(w, s, w') && NodesMove(w, s, w') && DebtKept(w, s, w', w.tasks[t].id)
    ensures Fuel(w', t) <= Fuel(w, t)
  {
    if RestarterAt(w', t) {
      var k := w.tasks[t];
      assert w'.tasks[t] == k;
      assert Left(w', k) <= Left(w, k);
    }
  }

  lemma MisfitStutters(w: World, s: Step, t: TaskId)
    requires RestarterAt(w, t) && Actor(s, t) && !RunsSection(w, s, t)
    ensures Apply(w, s) == w
  {
  }

  lemma FuelStep(w: World, s: Step, t: TaskId)
    requires Inv(w) && t < |w.tasks| && !w.tasks[t].Listener?
    ensures Fuel(Apply(w, s), t) + (if RunsSection(w, s, t) then 1 else 0) <= Fuel(w, t)
  {
    TasksMoveStep(w, s);
    if RestarterAt(w, t) {
      if RunsSection(w, s, t) {
        OwnSectionBurns(w, t, s.r);
      } else if Actor(s, t) {
        MisfitStutters(w, s, t);
      } else {
        NodesMoveStep(w, s);
        DebtStep(w, s, w.tasks[t].id);
        OthersKeepFuel(w, s, Apply(w, s), t);
      }
    }
  }

  /** How many sections of the loop task `t` runs. */
  function Sections(w: World, steps: seq<Step>, t: TaskId): nat
    decreases |steps|
  {
    if steps == [] then 0
    else (if RunsSection(w, steps[0], t) then 1 else 0) + Sections(Apply(w, steps[0]), steps[1..], t)
  }

  lemma {:induction false} FuelRun(w: World, steps: seq<Step>, t: TaskId)
    requires Inv(w) && t < |w.tasks| && !w.tasks[t].Listener?
    ensures Sections(w, steps, t) + Fuel(Run(w, steps), t) <= Fuel(w, t)
    decreases |steps|
  {
    if steps != [] {
      InvStep(w, steps[0]);
      TasksMoveStep(w, steps[0]);
      FuelStep(w, steps[0], t);
      FuelRun(Apply(w, steps[0]), steps[1..], t);
    }
  }

  /** A session whose policy grants the given number of restarts. */
  function Granting(profile: Profile, load: PackDir -> Option<Pack>, budget: nat): World {
    Restore(profile, load).(budget := budget)
  }

  lemma {:induction false} BudgetKept(w: World, steps: seq<Step>)
    ensures Run(w, steps).budget == w.budget
    decreases |steps|
  {
    if steps != [] {
      TasksMoveStep(w, steps[0]);
      BudgetKept(Apply(w, steps[0]), steps[1..]);
    }
  }

  /** Restart termination: against any policy that grants finitely many restarts and whatever else
      happens, one restart loop runs at most five sections per restart and five more, and it is not over
      only if it still has a section to run. */
  lemma RestartLoopEnds(profile: Profile, load: PackDir -> Option<Pack>, budget: nat, before: seq<Step>, t: TaskId,
      after: seq<Step>)
    requires RestarterAt(Run(Granting(profile, load, budget), before), t)
    ensures var w := Run(Granting(profile, load, budget), before);
            && Sections(w, after, t) + Fuel(Run(w, after), t) <= Fuel(w, t) <= 5 * budget + 6
            && (RestarterAt(Run(w, after), t) ==>
                  Sections(w, after, t) < Fuel(w, t) && exists r :: RunsSection(Run(w, after), Restart(t, r), t))
  {
    var w := Run(Granting(profile, load, budget), before);
    InvRun(Granting(profile, load, budget), before);
    BudgetKept(Granting(profile, load, budget), before);
    FuelRun(w, after, t);
    var w' := Run(w, after);
    if RestarterAt(w', t) {
      var r := match w'.tasks[t].rphase
        case Deciding => DecideRestart
        case GivingUp => GiveUp
        case Announcing(_) => Announce
        case Sleeping => Wake
        case Preparing(_, _) => PrepareFails;
      assert RunsSection(w', Restart(t, r), t);
    }
  }

  lemma SectionRuns(w: World, t: TaskId, r: RestartMove)
    requires Inv(w) && RunsSection(w, Restart(t, r), t)
    ensures Inv(Apply(w, Restart(t, r))) && Fuel(Apply(w, Restart(t, r)), t) < Fuel(w, t)
  {
    InvStep(w, Restart(t, r));
    OwnSectionBurns(w, t, r);
  }

  /** Steps of other calls and tasks leave a restarter where it is and its fuel no higher. */
  lemma {:induction false} OthersRun(w: World, steps: seq<Step>, t: TaskId)
    requires Inv(w) && RestarterAt(w, t)
    requires forall i | 0 <= i < |steps| :: !Actor(steps[i], t)
    ensures Inv(Run(w, steps)) && t < |Run(w, steps).tasks| && Run(w, steps).tasks[t] == w.tasks[t]
    ensures Fuel(Run(w, steps), t) <= Fuel(w, t)
    decreases |steps|
  {
    if steps != [] {
      InvStep(w, steps[0]);
      TasksMoveStep(w, steps[0]);
      FuelStep(w, steps[0], t);
      OthersRun(Apply(w, steps[0]), steps[1..], t);
    }
  }

  /** The run `before`, then a section of the restarter's own. */
  ghost predicate EndsWith(w: World, before: seq<Step>, t: TaskId, last: RestartMove, w': World) {
    RunsSection(Run(w, before), Restart(t, last), t) && w' == Apply(Run(w, before), Restart(t, last))
  }

  lemma EndsWithBurns(w: World, before: seq<Step>, t: TaskId, last: RestartMove, w': World)
    requires Inv(w) && RestarterAt(w, t) && EndsWith(w, before, t, last, w')
    ensures Inv(w') && Fuel(w', t) < Fuel(w, t)
  {
    InvRun(w, before);
    FuelRun(w, before, t);
    SectionRuns(Run(w, before), t, last);
  }

  lemma EndsWithLater(w: World, first: seq<Step>, before: seq<Step>, t: TaskId, last: RestartMove, w': World)
    requires EndsWith(Run(w, first), before, t, last, w')
    ensures EndsWith(w, first + before, t, last, w')
  {
    RunAppend(w, first, before);
  }

  lemma EndsWithRun(w: World, before: seq<Step>, t: TaskId, last: RestartMove, w': World)
    requires EndsWith(w, before, t, last, w')
    ensures w' == Run(w, before + [Restart(t, last)])
  {
    RunSnoc(w, before, Restart(t, last));
  }

  // ----- how it ends ------------------------------------------------------------------------

  /** A restarter that is giving up has no restart left. */
  ghost predicate Spent(w: World, t: TaskId) {
    RestarterAt(w, t) && w.tasks[t].rphase.GivingUp? ==> Left(w, w.tasks[t]) == 0
  }

  lemma SpentOwn(w: World, s: Step, t: TaskId)
    requires Spent(w, t) && Actor(s, t)
    ensures Spent(Apply(w, s), t)
  {
    if RestarterAt(w, t) {
      if RunsSection(w, s, t) { SpentSection(w, t, s.r); } else { MisfitStutters(w, s, t); }
    } else {
      SpentElse(w, s, t);
    }
  }

  lemma SpentSection(w: World, t: TaskId, r: RestartMove)
    requires Spent(w, t) && RunsSection(w, Restart(t, r), t)
    ensures Spent(ApplyRestart(w, t, r), t)
  {
  }

  lemma SpentElse(w: World, s: Step, t: TaskId)
    requires !RestarterAt(w, t) && Actor(s, t)
    ensures Spent(Apply(w, s), t)
  {
    TasksMoveStep(w, s);
    if s.Listen? && RestarterAt(Apply(w, s), t) {
      assert Apply(w, s).tasks[t].rphase.Deciding?;
    }
  }

  lemma SpentOthers(w: World, s: Step, w': World, t: TaskId)
    requires Inv(w) && Spent(w, t) && !Actor(s, t) && TasksMove(w, s, w') && NodesMove(w, s, w')
    requires RestarterAt(w, t) ==> DebtKept(w, s, w', w.tasks[t].id)
    ensures Spent(w', t)
  {
    if t < |w.tasks| && RestarterAt(w', t) {
      assert w'.tasks[t] == w.tasks[t];
      OthersKeepFuel(w, s, w', t);
    }
  }

  lemma SpentStep(w: World, s: Step, t: TaskId)
    requires Inv(w) && Spent(w, t)
    ensures Spent(Apply(w, s), t)
  {
    if Actor(s, t) {
      SpentOwn(w, s, t);
    } else {
      TasksMoveStep(w, s);
      NodesMoveStep(w, s);
      if RestarterAt(w, t) { DebtStep(w, s, w.tasks[t].id); }
      SpentOthers(w, s, Apply(w, s), t);
    }
  }

  lemma {:induction false} SpentRun(w: World, steps: seq<Step>, t: TaskId)
    requires Inv(w) && Spent(w, t)
    ensures Spent(Run(w, steps), t)
    decreases |steps|
  {
    if steps != [] {
      InvStep(w, steps[0]);
      SpentStep(w, steps[0], t);
      SpentRun(Apply(w, steps[0]), steps[1..], t);
    }
  }

  /** A fresh engine in the slot, watched by a fresh listener of the same generation. */
  ghost predicate EndsInInstall(w: World, w': World, k: Task)
    requires k.Restarter?
  {
    && MayRestart(w, k) && Current(w', k.id, k.gen)
    && w'.nodes[k.id].engine == Some(|w.engines|) && |w'.engines| == |w.engines| + 1 && w'.engines[|w.engines|].alive
    && |w'.tasks| == |w.tasks| + 2
    && w'.tasks[|w.tasks|].Listener? && w'.tasks[|w.tasks|].id == k.id && w'.tasks[|w.tasks|].gen == k.gen
        && w'.tasks[|w.tasks|].watched == |w.engines|
  }

  /** The budget is spent: the slot is empty and the node is shown as failed. */
  ghost predicate EndsInGiveUp(w: World, w': World, k: Task)
    requires k.Restarter?
  {
    && Current(w, k.id, k.gen) && w.nodes[k.id].attempts >= w.budget
    && Current(w', k.id, k.gen)
    && w'.nodes[k.id].engine.None? && w'.nodes[k.id].state == Failed(EXHAUSTED)
    && w'.log == w.log + [StateEvent(k.id, Failed(EXHAUSTED))]
  }

  /** A newer start or stop owns the node (or a stop is expected): nothing changes. */
  ghost predicate EndsQuietly(w: World, w': World, k: Task)
    requires k.Restarter?
  {
    w'.nodes == w.nodes && w'.log == w.log && |w'.tasks| == |w.tasks| && !MayRestart(w, k)
  }

  ghost predicate Outcome(w: World, w': World, k: Task)
    requires k.Restarter?
  {
    EndsInInstall(w, w', k) || EndsInGiveUp(w, w', k) || EndsQuietly(w, w', k)
  }

  /** The loop ends in an install, in a give-up with the budget spent, or quietly. */
  lemma RestartOutcome(profile: Profile, load: PackDir -> Option<Pack>, budget: nat, before: seq<Step>, t: TaskId,
      r: RestartMove)
    requires var w := Run(Granting(profile, load, budget), before);
             RunsSection(w, Restart(t, r), t) && ApplyRestart(w, t, r).tasks[t].Done?
    ensures var w := Run(Granting(profile, load, budget), before);
            Outcome(w, ApplyRestart(w, t, r), w.tasks[t])
  {
    SpentRun(Granting(profile, load, budget), before, t);
    RestartOutcomeFrom(Run(Granting(profile, load, budget), before), t, r);
  }

  lemma RestartOutcomeFrom(w: World, t: TaskId, r: RestartMove)
    requires Spent(w, t) && RunsSection(w, Restart(t, r), t) && ApplyRestart(w, t, r).tasks[t].Done?
    ensures Outcome(w, ApplyRestart(w, t, r), w.tasks[t])
  {
    var k := w.tasks[t];
    match k.rphase
    case Preparing(_, _) =>
      if MayRestart(w, k) {
        assert EndsInInstall(w, ApplyRestart(w, t, r), k);
      } else {
        assert EndsQuietly(w, ApplyRestart(w, t, r), k);
      }
    case _ =>
  }
}
