/** What a stop, a stop-all and a quit keep down, and what can bring a node back up. */
module Stops {
  import opened Types
  import opened Supervision
  import opened Invariants

  /** Does this step start the node on a user's (or the launch's) behalf? */
  predicate Starts(w: World, s: Step, id: NodeId) {
    s.Call? && s.c.StartCommit? && StartGoes(w, s.t) && w.tasks[s.t].id == id
  }

  /** Does this step bring the node back after a credential renewal? */
  predicate Rearms(w: World, s: Step, id: NodeId) {
    s.Renew? && s.n.Reinstall? && RenewalLoaded(w, s.t) && w.tasks[s.t].id == id && Current(w, id, w.tasks[s.t].gen)
  }

  ghost predicate NeverStarts(w: World, steps: seq<Step>, id: NodeId)
    decreases |steps|
  {
    steps == [] || (!Starts(w, steps[0], id) && NeverStarts(Apply(w, steps[0]), steps[1..], id))
  }

  ghost predicate NeverRearms(w: World, steps: seq<Step>, id: NodeId)
    decreases |steps|
  {
    steps == [] || (!Rearms(w, steps[0], id) && NeverRearms(Apply(w, steps[0]), steps[1..], id))
  }

  // ----- stop -------------------------------------------------------------------------------

  /** No task carries the node's generation. */
  ghost predicate Abandoned(w: World, id: NodeId)
    requires id in w.nodes
  {
    forall t | 0 <= t < |w.tasks| && Carries(w.tasks[t]) ::
        !(w.tasks[t].id == id && w.tasks[t].gen == w.nodes[id].generation)
  }

  ghost predicate Down(w: World, id: NodeId) {
    id in w.nodes ==>
      && w.nodes[id].engine.None?
      && !w.nodes[id].desired
      && w.nodes[id].expectedStop
  }

  ghost predicate StaysDown(w: World, id: NodeId) {
    id in w.used && Down(w, id) && (id in w.nodes ==> Abandoned(w, id))
  }

  lemma StopTakesDown(w: World, id: NodeId)
    requires Inv(w) && id in w.nodes
    ensures StaysDown(Apply(w, User(StopBegin(id))), id)
  {
    StopShape(w, id);
    StopAbandons(w, Apply(w, User(StopBegin(id))), id);
  }

  /** A stop aborts the node's renewal at most, adds its own call, and leaves the node a generation on. */
  lemma StopShape(w: World, id: NodeId)
    requires id in w.nodes
    ensures var w' := Apply(w, User(StopBegin(id)));
            && id in w'.nodes && w'.nodes[id] == StoppedEntry(w.nodes[id]) && w'.used == w.used
            && w'.tasks == Abort(w.tasks, Handle(w.nodes[id])) + [Stopper(id, w.nodes[id].engine)]
  {
  }

  lemma StopAbandons(w: World, w': World, id: NodeId)
    requires Bounded(w) && id in w.nodes && id in w'.nodes && w'.nodes[id] == StoppedEntry(w.nodes[id])
        && w'.used == w.used
    requires w'.tasks == Abort(w.tasks, Handle(w.nodes[id])) + [Stopper(id, w.nodes[id].engine)]
    ensures StaysDown(w', id)
  {
    forall t | 0 <= t < |w'.tasks| && Carries(w'.tasks[t])
      ensures !(w'.tasks[t].id == id && w'.tasks[t].gen == w'.nodes[id].generation)
    {
      assert t < |w.tasks| && w'.tasks[t] == w.tasks[t];
    }
  }

  lemma StaysDownKept(w: World, s: Step, w': World, id: NodeId)
    requires Inv(w) && StaysDown(w, id) && TasksMove(w, s, w') && NodesMove(w, s, w')
    requires !Starts(w, s, id) && s != User(StopBegin(id))
    ensures StaysDown(w', id)
  {
    if id in w'.nodes {
      assert NodeMoves(w, s, w', id);
      forall t | 0 <= t < |w'.tasks| && Carries(w'.tasks[t])
        ensures !(w'.tasks[t].id == id && w'.tasks[t].gen == w'.nodes[id].generation)
      {
        AbandonedStill(w, s, w', id, t);
      }
    }
  }

  lemma AbandonedStill(w: World, s: Step, w': World, id: NodeId, t: TaskId)
    requires TasksMove(w, s, w') && id in w.nodes && Abandoned(w, id) && w.nodes[id].engine.None?
    requires id in w'.nodes && w'.nodes[id].engine.None? && w'.nodes[id].generation == w.nodes[id].generation
    requires t < |w'.tasks| && Carries(w'.tasks[t])
    ensures !(w'.tasks[t].id == id && w'.tasks[t].gen == w'.nodes[id].generation)
  {
    if t < |w.tasks| {
      assert Actor(s, t) ==> Continues(w.tasks[t], w'.tasks[t]);
    } else {
      assert Spawned(w', w'.tasks[t]);
    }
  }

  lemma {:induction false} StaysDownRun(w: World, steps: seq<Step>, id: NodeId)
    requires Inv(w) && StaysDown(w, id) && NeverStarts(w, steps, id)
    ensures StaysDown(Run(w, steps), id)
    decreases |steps|
  {
    if steps != [] {
      var s := steps[0];
      InvStep(w, s);
      TasksMoveStep(w, s);
      NodesMoveStep(w, s);
      if s == User(StopBegin(id)) {
        if id in w.nodes { StopTakesDown(w, id); }
      } else {
        StaysDownKept(w, s, Apply(w, s), id);
      }
      StaysDownRun(Apply(w, s), steps[1..], id);
    }
  }

  /** Stop is final: whatever the background tasks do, a stopped node keeps an empty slot, no intent
      and the expected-stop mark until somebody starts it. */
  lemma StopIsFinal(profile: Profile, load: PackDir -> Option<Pack>, before: seq<Step>, id: NodeId, after: seq<Step>)
    requires id in Run(Restore(profile, load), before).nodes
    requires NeverStarts(Apply(Run(Restore(profile, load), before), User(StopBegin(id))), after, id)
    ensures Down(Run(Apply(Run(Restore(profile, load), before), User(StopBegin(id))), after), id)
  {
    InvRun(Restore(profile, load), before);
    DownAfterStop(Run(Restore(profile, load), before), id, after);
  }

  lemma DownAfterStop(w: World, id: NodeId, after: seq<Step>)
    requires Inv(w) && id in w.nodes && NeverStarts(Apply(w, User(StopBegin(id))), after, id)
    ensures Down(Run(Apply(w, User(StopBegin(id))), after), id)
  {
    InvStep(w, User(StopBegin(id)));
    StopTakesDown(w, id);
    StaysDownRun(Apply(w, User(StopBegin(id))), after, id);
  }

  // ----- stop_all and shutdown_all ----------------------------------------------------------

  ghost predicate Silent(w: World, id: NodeId) {
    id in w.used && (id in w.nodes ==> w.nodes[id].engine.None? && w.nodes[id].expectedStop)
  }

  lemma SilentKept(w: World, s: Step, w': World, id: NodeId)
    requires Silent(w, id) && NodesMove(w, s, w')
    requires !Starts(w, s, id) && !Rearms(w, s, id) && s != User(StopBegin(id))
    ensures Silent(w', id)
  {
  }

  lemma {:induction false} SilentRun(w: World, steps: seq<Step>, id: NodeId)
    requires Inv(w) && Silent(w, id) && NeverStarts(w, steps, id) && NeverRearms(w, steps, id)
    ensures Silent(Run(w, steps), id)
    decreases |steps|
  {
    if steps != [] {
      var s := steps[0];
      InvStep(w, s);
      NodesMoveStep(w, s);
      if s != User(StopBegin(id)) { SilentKept(w, s, Apply(w, s), id); }
      SilentRun(Apply(w, s), steps[1..], id);
    }
  }

  /** After a stop-all or a quit no crash restart brings a node up: only a start or the last section
      of a credential renewal can. */
  lemma SweepSilencesRestarts(profile: Profile, load: PackDir -> Option<Pack>, before: seq<Step>, clear: bool,
      id: NodeId,
      after: seq<Step>)
    requires id in Run(Restore(profile, load), before).nodes
    ensures var w := Apply(Run(Restore(profile, load), before), User(SweepBegin(clear)));
            NeverStarts(w, after, id) && NeverRearms(w, after, id) ==> Silent(Run(w, after), id)
  {
    var w0 := Run(Restore(profile, load), before);
    var w := Apply(w0, User(SweepBegin(clear)));
    InvRun(Restore(profile, load), before);
    InvStep(w0, User(SweepBegin(clear)));
    if NeverStarts(w, after, id) && NeverRearms(w, after, id) { SilentRun(w, after, id); }
  }

  /** A renewal of the node's own generation that was not aborted and has not failed. */
  predicate Reviver(w: World, k: Task, id: NodeId) {
    k.Renewal? && k.id == id && Current(w, id, k.gen) && !k.nphase.Failing?
  }

  ghost predicate Unrevivable(w: World, id: NodeId) {
    forall t | 0 <= t < |w.tasks| :: !Reviver(w, w.tasks[t], id)
  }

  lemma UnrevivableKept(w: World, s: Step, w': World, id: NodeId)
    requires Inv(w) && Silent(w, id) && Unrevivable(w, id) && TasksMove(w, s, w') && NodesMove(w, s, w')
    requires !Starts(w, s, id) && s != User(StopBegin(id))
    ensures Silent(w', id) && Unrevivable(w', id)
  {
    assert !Authorised(w, s, id);
    if id in w'.nodes { assert NodeMoves(w, s, w', id); }
    forall t | 0 <= t < |w'.tasks|
      ensures !Reviver(w', w'.tasks[t], id)
    {
      if id in w.nodes { NoReviver(w, s, w', t, id); }
    }
  }

  lemma NoReviver(w: World, s: Step, w': World, t: TaskId, id: NodeId)
    requires Silent(w, id) && Unrevivable(w, id) && TasksMove(w, s, w') && NodesMove(w, s, w') && t < |w'.tasks|
    requires id in w.nodes && !Authorised(w, s, id)
    ensures !Reviver(w', w'.tasks[t], id)
  {
    if id in w'.nodes { assert NodeMoves(w, s, w', id); }
    if t < |w.tasks| { assert !Reviver(w, w.tasks[t], id); } else { assert Spawned(w', w'.tasks[t]); }
  }

  lemma StopUnrevivable(w: World, id: NodeId)
    requires Inv(w) && id in w.used
    ensures Silent(Apply(w, User(StopBegin(id))), id) && Unrevivable(Apply(w, User(StopBegin(id))), id)
  {
    if id in w.nodes { StopTakesDown(w, id); }
  }

  lemma UnrevivableStep(w: World, s: Step, id: NodeId)
    requires Inv(w) && Silent(w, id) && Unrevivable(w, id) && !Starts(w, s, id)
    ensures Silent(Apply(w, s), id) && Unrevivable(Apply(w, s), id)
  {
    if s == User(StopBegin(id)) {
      StopUnrevivable(w, id);
    } else {
      TasksMoveStep(w, s);
      NodesMoveStep(w, s);
      UnrevivableKept(w, s, Apply(w, s), id);
    }
  }

  lemma {:induction false} UnrevivableRun(w: World, steps: seq<Step>, id: NodeId)
    requires Inv(w) && Silent(w, id) && Unrevivable(w, id) && NeverStarts(w, steps, id)
    ensures Silent(Run(w, steps), id)
    decreases |steps|
  {
    if steps != [] {
      InvStep(w, steps[0]);
      UnrevivableStep(w, steps[0], id);
      UnrevivableRun(Apply(w, steps[0]), steps[1..], id);
    }
  }

  function RenewalSteps(phase: RenewalPhase): nat {
    match phase
    case Waiting => 7
    case Ready => 6
    case Begun => 5
    case Taking => 4
    case Draining(_) => 3
    case Rebuilding(_, pack) => if pack.None? then 2 else 1
    case Failing(_) => 0
  }

  /** Some pack of the kind the spec recorded. */
  function Rotated(prepared: Spec): Pack {
    Pack(prepared.kind, prepared.name, "", prepared.packGeneration + 1, "")
  }

  /** The next section of a renewal that goes well. */
  function NextSection(phase: RenewalPhase): RenewalMove {
    match phase
    case Waiting => FutureEnds(None)
    case Ready => Begin
    case Begun => AnnounceRenewal
    case Taking => Take
    case Draining(_) => Read
    case Rebuilding(prepared, pack) =>
      if pack.None? then Reload(Rotated(prepared)) else Reinstall(Some(Connecting), "")
    case Failing(_) => Fail
  }

  lemma SectionGoesOn(w: World, t: TaskId, id: NodeId)
    requires t < |w.tasks| && Reviver(w, w.tasks[t], id)
    ensures var w' := Apply(w, Renew(t, NextSection(w.tasks[t].nphase)));
            && id in w'.nodes
            && (if RenewalLoaded(w, t) then w'.nodes[id].engine.Some?
                else
                  && t < |w'.tasks| && Reviver(w', w'.tasks[t], id)
                  && RenewalSteps(w'.tasks[t].nphase) < RenewalSteps(w.tasks[t].nphase))
  {
    if RenewalLoaded(w, t) {
      ReinstallFills(w, t, id);
    } else {
      SectionLeads(w, t, id);
    }
  }

  lemma ReinstallFills(w: World, t: TaskId, id: NodeId)
    requires t < |w.tasks| && Reviver(w, w.tasks[t], id) && RenewalLoaded(w, t)
    ensures var w' := DoRenewalInstall(w, t, Some(Connecting), ""); id in w'.nodes && w'.nodes[id].engine.Some?
  {
  }

  lemma SectionLeads(w: World, t: TaskId, id: NodeId)
    requires t < |w.tasks| && Reviver(w, w.tasks[t], id) && !RenewalLoaded(w, t)
    ensures var w' := ApplyRenewal(w, t, NextSection(w.tasks[t].nphase));
            && t < |w'.tasks| && Reviver(w', w'.tasks[t], id)
            && RenewalSteps(w'.tasks[t].nphase) < RenewalSteps(w.tasks[t].nphase)
  {
    match w.tasks[t].nphase
    case Waiting =>
    case Ready =>
    case Begun =>
    case Taking =>
    case Draining(_) =>
    case _ =>
  }

  /** A reviver can bring the node up all by itself. */
  lemma Revive(w: World, t: TaskId, id: NodeId) returns (steps: seq<Step>)
    requires t < |w.tasks| && Reviver(w, w.tasks[t], id)
    ensures NeverStarts(w, steps, id)
    ensures id in Run(w, steps).nodes && Run(w, steps).nodes[id].engine.Some?
    decreases RenewalSteps(w.tasks[t].nphase)
  {
    var s := Renew(t, NextSection(w.tasks[t].nphase));
    SectionGoesOn(w, t, id);
    var rest := [];
    if !RenewalLoaded(w, t) {
      rest := Revive(Apply(w, s), t, id);
    }
    steps := [s] + rest;
    assert steps[1..] == rest;
  }

  /** Every renewal of the node's generation can still be aborted: its future has not ended, and its
      handle is still in the table, not overwritten by a crash restart. */
  ghost predicate Abortable(w: World, id: NodeId) {
    forall t | 0 <= t < |w.tasks| && Reviver(w, w.tasks[t], id) :: w.tasks[t].nphase.Waiting? && t in Handles(w.nodes)
  }

  lemma SweepAborts(w: World, clear: bool, id: NodeId)
    requires id in w.nodes
    ensures Unrevivable(Apply(w, User(SweepBegin(clear))), id) <==> Abortable(w, id)
  {
    var w' := Apply(w, User(SweepBegin(clear)));
    forall t | 0 <= t < |w.tasks|
      ensures Reviver(w', w'.tasks[t], id) <==>
                Reviver(w, w.tasks[t], id) && !(w.tasks[t].nphase.Waiting? && t in Handles(w.nodes))
    {
    }
  }

  /** Exactly when stop-all (or quit) keeps a node's slot empty until the next start: when every renewal of
      the node's generation can still be aborted. */
  lemma SweepSticksIff(profile: Profile, load: PackDir -> Option<Pack>, before: seq<Step>, clear: bool, id: NodeId)
    requires id in Run(Restore(profile, load), before).nodes
    ensures var w := Apply(Run(Restore(profile, load), before), User(SweepBegin(clear)));
            (forall after :: NeverStarts(w, after, id) ==> Silent(Run(w, after), id))
            <==> Abortable(Run(Restore(profile, load), before), id)
  {
    var w0 := Run(Restore(profile, load), before);
    var w := Apply(w0, User(SweepBegin(clear)));
    InvRun(Restore(profile, load), before);
    InvStep(w0, User(SweepBegin(clear)));
    SweepAborts(w0, clear, id);
    if Unrevivable(w, id) {
      forall after | NeverStarts(w, after, id) ensures Silent(Run(w, after), id) { UnrevivableRun(w, after, id); }
    } else {
      var t: TaskId :| t < |w.tasks| && Reviver(w, w.tasks[t], id);
      var after := Revive(w, t, id);
      assert NeverStarts(w, after, id) && !Silent(Run(w, after), id);
    }
  }
}
