/** What a node is shown as: the last state written for it, and what stops, stop-all and quit leave shown. */
module States {
  import opened Types
  import opened Supervision
  import opened Invariants
  import opened Stops
  import opened EventLog

  /** The node's slot holds an engine that is alive. */
  predicate InService(w: World, id: NodeId) {
    id in w.nodes && exists x | 0 <= x < |w.engines| :: w.nodes[id].engine == Some(x) && w.engines[x].alive
  }

  lemma InServiceIs(w: World, id: NodeId)
    ensures InService(w, id) <==> id in w.nodes && SlotAlive(w, id)
  {
  }

  // ----- which section writes which state ---------------------------------------------------

  /** A call writes Stopped for what it stopped or drained, what the build of its start shows, and the
      reason a start at launch failed. */
  function CallWrites(w: World, t: TaskId, c: CallMove, id: NodeId): Option<NodeState>
    requires t < |w.tasks|
  {
    var k := w.tasks[t];
    match c
    case StopEnd(ok) => if k.Stopper? && k.id == id && (k.hand.Some? ==> ok) then Some(Stopped) else None
    case SweepDrain(node) => if k.Sweep? && node == id && id in k.pending then Some(Stopped) else None
    case StartFailNote => if k.StartFailed? && k.id == id then Some(Failed(k.error)) else None
    case StartCommit(built, _) => if Starts(w, Call(t, c), id) then built else None
    case _ => None
  }

  /** A listener writes what it reads from the watch of its engine. */
  function ListenerWrites(w: World, k: Task, l: ListenerMove): Option<NodeState>
    requires k.Listener? && k.watched < |w.engines|
  {
    match l
    case See(state) =>
      var read :=
        if k.agent then (if state.Connected? then k.lphase.Noted? else k.lphase.Watching?)
        else k.lphase.Watching? && (state.Stopped? || state.Failed? ==> !w.engines[k.watched].alive);
      if read then Some(state) else None
    case Finish => if k.lphase.Closing? then Some(k.lphase.final) else None
    case _ => None
  }

  function RestartWrites(w: World, k: Task, r: RestartMove): Option<NodeState>
    requires k.Restarter? && k.id in w.nodes
  {
    match r
    case GiveUp => if k.rphase.GivingUp? then Some(Failed(EXHAUSTED)) else None
    case Announce => if k.rphase.Announcing? then Some(Reconnecting(RESTARTING, k.rphase.backoff)) else None
    case Install(built) =>
      if k.rphase.Preparing? && k.rphase.pack.Some? && !w.nodes[k.id].expectedStop then built else None
    case _ => None
  }

  function RenewalWrites(k: Task, n: RenewalMove): Option<NodeState>
    requires k.Renewal?
  {
    match n
    case AnnounceRenewal => if k.nphase.Begun? then Some(Reconnecting(RENEWED, 0)) else None
    case RebuildFails(error) => if k.nphase.Rebuilding? then Some(Failed(error)) else None
    case Reinstall(built, error) =>
      if k.nphase.Rebuilding? && k.nphase.pack.Some? then Some(if built.Some? then built.value else Failed(error))
      else None
    case Fail => if k.nphase.Failing? then Some(Failed(k.nphase.error)) else None
    case _ => None
  }

  /** The state a step writes for a node, if any: tasks of a past generation write nothing. */
  function Writes(w: World, s: Step, id: NodeId): Option<NodeState> {
    match s
    case Call(t, c) => if t < |w.tasks| then CallWrites(w, t, c, id) else None
    case Listen(t, l) =>
      if ListenerAt(w, t) && w.tasks[t].id == id && Current(w, id, w.tasks[t].gen)
      then ListenerWrites(w, w.tasks[t], l) else None
    case Restart(t, r) =>
      if RestarterAt(w, t) && w.tasks[t].id == id && Current(w, id, w.tasks[t].gen)
      then RestartWrites(w, w.tasks[t], r) else None
    case Renew(t, n) =>
      if t < |w.tasks| && Carries(w.tasks[t]) && w.tasks[t].id == id && Current(w, id, w.tasks[t].gen) then
        if w.tasks[t].Renewal? then RenewalWrites(w.tasks[t], n)
        else if w.tasks[t].RenewalTail? && n.EndTail? then Some(Failed(w.tasks[t].error))
        else None
      else None
    case _ => None
  }

  ghost predicate StateFollows(w: World, s: Step, w': World, id: NodeId)
    requires id in w.nodes && id in w'.nodes
  {
    w'.nodes[id].state == if Writes(w, s, id).Some? then Writes(w, s, id).value else w.nodes[id].state
  }

  lemma StateUser(w: World, u: UserMove, id: NodeId)
    requires w.nodes.Keys <= w.used && id in w.nodes && id in ApplyUser(w, u).nodes
    ensures StateFollows(w, User(u), ApplyUser(w, u), id)
  {
  }

  lemma StateStart(w: World, t: TaskId, built: Option<NodeState>, error: string, id: NodeId)
    requires id in w.nodes && id in DoStartCommit(w, t, built, error).nodes
    ensures StateFollows(w, Call(t, StartCommit(built, error)), DoStartCommit(w, t, built, error), id)
  {
  }

  lemma StateCall(w: World, t: TaskId, c: CallMove, id: NodeId)
    requires id in w.nodes && id in ApplyCall(w, t, c).nodes
    ensures StateFollows(w, Call(t, c), ApplyCall(w, t, c), id)
  {
    if c.StartCommit? { StateStart(w, t, c.built, c.error, id); }
  }

  lemma StateAgentSees(w: World, t: TaskId, state: NodeState, id: NodeId)
    requires ListenerAt(w, t) && w.tasks[t].agent && id in w.nodes && id in AgentSees(w, t, state).nodes
    ensures StateFollows(w, Listen(t, See(state)), AgentSees(w, t, state), id)
  {
  }

  lemma StateServerSees(w: World, t: TaskId, state: NodeState, id: NodeId)
    requires ListenerAt(w, t) && !w.tasks[t].agent && id in w.nodes && id in ServerSees(w, t, state).nodes
    ensures StateFollows(w, Listen(t, See(state)), ServerSees(w, t, state), id)
  {
  }

  lemma StateListener(w: World, t: TaskId, l: ListenerMove, id: NodeId)
    requires id in w.nodes && id in ApplyListener(w, t, l).nodes
    ensures StateFollows(w, Listen(t, l), ApplyListener(w, t, l), id)
  {
    if l.See? && ListenerAt(w, t) {
      if w.tasks[t].agent { StateAgentSees(w, t, l.state, id); } else { StateServerSees(w, t, l.state, id); }
    }
  }

  lemma StateInstall(w: World, t: TaskId, built: Option<NodeState>, id: NodeId)
    requires id in w.nodes && id in DoRestartInstall(w, t, built).nodes
    ensures StateFollows(w, Restart(t, Install(built)), DoRestartInstall(w, t, built), id)
  {
  }

  lemma StateRestart(w: World, t: TaskId, r: RestartMove, id: NodeId)
    requires id in w.nodes && id in ApplyRestart(w, t, r).nodes
    ensures StateFollows(w, Restart(t, r), ApplyRestart(w, t, r), id)
  {
    if r.Install? { StateInstall(w, t, r.built, id); }
  }

  lemma StateReinstall(w: World, t: TaskId, built: Option<NodeState>, error: string, id: NodeId)
    requires id in w.nodes && id in DoRenewalInstall(w, t, built, error).nodes
    ensures StateFollows(w, Renew(t, Reinstall(built, error)), DoRenewalInstall(w, t, built, error), id)
  {
  }

  lemma StateRenewal(w: World, t: TaskId, n: RenewalMove, id: NodeId)
    requires id in w.nodes && id in ApplyRenewal(w, t, n).nodes
    ensures StateFollows(w, Renew(t, n), ApplyRenewal(w, t, n), id)
  {
    if n.Reinstall? { StateReinstall(w, t, n.built, n.error, id); }
  }

  lemma StateStep(w: World, s: Step, id: NodeId)
    requires w.nodes.Keys <= w.used && id in w.nodes && id in Apply(w, s).nodes
    ensures StateFollows(w, s, Apply(w, s), id)
  {
    match s
    case User(u) => StateUser(w, u, id);
    case Call(t, c) => StateCall(w, t, c, id);
    case Listen(t, l) => StateListener(w, t, l, id);
    case Restart(t, r) => StateRestart(w, t, r, id);
    case Renew(t, n) => StateRenewal(w, t, n, id);
    case Deliver =>
    case EngineFlip(x, alive) =>
  }

  // ----- runs -------------------------------------------------------------------------------

  /** The last state a run writes for a node. */
  function LastWritten(w: World, steps: seq<Step>, id: NodeId): Option<NodeState>
    decreases |steps|
  {
    if steps == [] then None
    else
      var later := LastWritten(Apply(w, steps[0]), steps[1..], id);
      if later.Some? then later else Writes(w, steps[0], id)
  }

  /** A managed id that is gone stays gone. */
  lemma {:induction false} AbsentRun(w: World, steps: seq<Step>, id: NodeId)
    requires Inv(w) && id in w.used && id !in w.nodes
    ensures id !in Run(w, steps).nodes
    decreases |steps|
  {
    if steps != [] {
      InvStep(w, steps[0]);
      NodesMoveStep(w, steps[0]);
      AbsentRun(Apply(w, steps[0]), steps[1..], id);
    }
  }

  /** A node that is managed before and after a run was managed all along. */
  lemma ManagedThroughout(w: World, s: Step, rest: seq<Step>, id: NodeId)
    requires Inv(w) && id in w.nodes && id in Run(Apply(w, s), rest).nodes
    ensures id in Apply(w, s).nodes
  {
    InvStep(w, s);
    NodesMoveStep(w, s);
    if id !in Apply(w, s).nodes { AbsentRun(Apply(w, s), rest, id); }
  }

  /** A node's state is the last one written for it. */
  lemma {:induction false} StateRun(w: World, steps: seq<Step>, id: NodeId)
    requires Inv(w) && id in w.nodes && id in Run(w, steps).nodes
    ensures Run(w, steps).nodes[id].state ==
              if LastWritten(w, steps, id).Some? then LastWritten(w, steps, id).value else w.nodes[id].state
    decreases |steps|
  {
    if steps != [] {
      var s := steps[0];
      ManagedThroughout(w, s, steps[1..], id);
      InvStep(w, s);
      StateStep(w, s, id);
      StateRun(Apply(w, s), steps[1..], id);
    }
  }

  /** What the interface shows: over every run of a session, the last state written for the node (Stopped
      if none was), whenever no stop-all or quit is draining; and at all times a difference can only be
      a Stopped that is still to be announced. */
  lemma ShownIsLastWritten(profile: Profile, load: PackDir -> Option<Pack>, steps: seq<Step>, id: NodeId)
    ensures var w0 := Restore(profile, load);
            var w, last := Run(w0, steps), LastWritten(w0, steps, id);
            id in w0.nodes && id in w.nodes ==>
              var state := if last.Some? then last.value else Stopped;
              && w.nodes[id].state == state
              && (Shown(w.log, id) == state || (state.Stopped? && EventLog.Draining(w)))
  {
    var w0 := Restore(profile, load);
    if id in w0.nodes && id in Run(w0, steps).nodes {
      StateRun(w0, steps, id);
      MirroredRun(w0, steps);
      assert Mirrors(Run(w0, steps), id);
    }
  }

  // ----- the end of a sweep -----------------------------------------------------------------

  /** Step `n` of the run is this sweep's drain of the node's engine. */
  ghost predicate DrainedAt(w: World, steps: seq<Step>, t: TaskId, id: NodeId, n: nat) {
    && n < |steps| && steps[n] == Call(t, CallMove.SweepDrain(id))
    && var here := Run(w, steps[..n]); t < |here.tasks| && here.tasks[t].Sweep? && id in here.tasks[t].pending
  }

  /** No state but Stopped was written for the node after step `n`. */
  ghost predicate QuietSince(w: World, steps: seq<Step>, id: NodeId, n: nat)
    requires n < |steps|
  {
    var last := LastWritten(Run(w, steps[..n + 1]), steps[n + 1..], id);
    last.None? || last.value.Stopped?
  }

  /** A sweep keeps a pending engine until it drains it. */
  lemma StillPending(w: World, s: Step, t: TaskId, id: NodeId)
    requires t < |w.tasks| && w.tasks[t].Sweep? && id in w.tasks[t].pending && s != Call(t, CallMove.SweepDrain(id))
    ensures t < |Apply(w, s).tasks| && Apply(w, s).tasks[t].Sweep? && id in Apply(w, s).tasks[t].pending
  {
    TasksMoveStep(w, s);
    if Actor(s, t) { PendingOwn(w, s, t, id); }
  }

  lemma PendingOwn(w: World, s: Step, t: TaskId, id: NodeId)
    requires t < |w.tasks| && w.tasks[t].Sweep? && id in w.tasks[t].pending && s != Call(t, CallMove.SweepDrain(id))
    requires Actor(s, t)
    ensures t < |Apply(w, s).tasks| && Apply(w, s).tasks[t].Sweep? && id in Apply(w, s).tasks[t].pending
  {
  }

  /** A sweep that is over has drained every engine it collected. */
  lemma {:induction false} DrainHappens(w: World, steps: seq<Step>, t: TaskId, id: NodeId) returns (n: nat)
    requires t < |w.tasks| && w.tasks[t].Sweep? && id in w.tasks[t].pending
    requires t < |Run(w, steps).tasks| && Run(w, steps).tasks[t].Done?
    ensures DrainedAt(w, steps, t, id, n)
    decreases |steps|
  {
    if steps[0] == Call(t, CallMove.SweepDrain(id)) {
      n := 0;
      assert steps[..0] == [];
    } else {
      StillPending(w, steps[0], t, id);
      var m := DrainHappens(Apply(w, steps[0]), steps[1..], t, id);
      n := m + 1;
      assert steps[..n][1..] == steps[1..][..m] && steps[..n][0] == steps[0];
    }
  }

  /** A drained node is Stopped right after its drain. */
  lemma DrainStops(w: World, t: TaskId, id: NodeId)
    requires t < |w.tasks| && w.tasks[t].Sweep? && id in w.tasks[t].pending && id in w.nodes
    ensures var w' := Apply(w, Call(t, CallMove.SweepDrain(id))); id in w'.nodes && w'.nodes[id].state.Stopped?
  {
  }

  /** What a drained node's state is later in the run: Stopped exactly when nothing else was written since. */
  lemma DrainedState(w: World, steps: seq<Step>, t: TaskId, id: NodeId, n: nat)
    requires Inv(w) && DrainedAt(w, steps, t, id, n) && id in w.nodes && id in Run(w, steps).nodes
    ensures Run(w, steps).nodes[id].state.Stopped? <==> QuietSince(w, steps, id, n)
  {
    PresentAt(w, steps, id, n);
    RunNext(w, steps, n);
    RunSplit(w, steps, n + 1);
    InvRun(w, steps[..n + 1]);
    DrainStops(Run(w, steps[..n]), t, id);
    StateRun(Run(w, steps[..n + 1]), steps[n + 1..], id);
  }

  lemma RunNext(w: World, steps: seq<Step>, n: nat)
    requires n < |steps|
    ensures Run(w, steps[..n + 1]) == Apply(Run(w, steps[..n]), steps[n])
  {
    assert steps[..n + 1] == steps[..n] + [steps[n]];
    RunSnoc(w, steps[..n], steps[n]);
  }

  lemma RunSplit(w: World, steps: seq<Step>, n: nat)
    requires n <= |steps|
    ensures Run(w, steps) == Run(Run(w, steps[..n]), steps[n..])
  {
    assert steps == steps[..n] + steps[n..];
    RunAppend(w, steps[..n], steps[n..]);
  }

  lemma PresentAt(w: World, steps: seq<Step>, id: NodeId, n: nat)
    requires Inv(w) && id in w.nodes && n <= |steps| && id in Run(w, steps).nodes
    ensures id in Run(w, steps[..n]).nodes
  {
    RunSplit(w, steps, n);
    InvRun(w, steps[..n]);
    UsedRun(w, steps[..n]);
    if id !in Run(w, steps[..n]).nodes { AbsentRun(Run(w, steps[..n]), steps[n..], id); }
  }

  lemma {:induction false} UsedRun(w: World, steps: seq<Step>)
    ensures w.used <= Run(w, steps).used
    decreases |steps|
  {
    if steps != [] {
      UsedGrows(w, steps[0]);
      UsedRun(Apply(w, steps[0]), steps[1..]);
    }
  }

  /** A sweep's closing section announces exactly the nodes that are Stopped, and shows nothing else anew. */
  lemma SweepEndShows(w: World, t: TaskId, order: seq<NodeId>, id: NodeId)
    requires t < |w.tasks| && w.tasks[t].Sweep? && w.tasks[t].pending == map[] && StoppedOrder(w, order)
    ensures var w' := Apply(w, Call(t, CallMove.SweepEnd(order)));
            && w'.nodes == w.nodes && w'.tasks[t].Done?
            && (if id in w.nodes && w.nodes[id].state.Stopped? then Shown(w'.log, id).Stopped?
                else Shown(w'.log, id) == Shown(w.log, id))
  {
    ShownAfterSweep(w.log, order, id);
  }

  // ----- the end of a stop ------------------------------------------------------------------

  /** The end of a stop: unless its engine's shutdown failed, the node is Stopped and shown so. */
  lemma StopEndShows(w: World, t: TaskId, ok: bool)
    requires t < |w.tasks| && w.tasks[t].Stopper? && w.tasks[t].id in w.nodes
    ensures var id, w' := w.tasks[t].id, Apply(w, Call(t, CallMove.StopEnd(ok)));
            && id in w'.nodes
            && (if w.tasks[t].hand.Some? && !ok then w'.nodes == w.nodes && w'.log == w.log
                else w'.nodes[id].state.Stopped? && Shown(w'.log, id).Stopped?)
  {
    if !(w.tasks[t].hand.Some? && !ok) { ShownAfter(w.log, StateEvent(w.tasks[t].id, Stopped), w.tasks[t].id); }
  }

  /** The node is wanted, owes nothing, and runs an engine of this pack. */
  predicate RunsOn(w: World, id: NodeId, pack: Option<Pack>) {
    && id in w.nodes && w.nodes[id].desired && !w.nodes[id].expectedStop && w.nodes[id].attempts == 0
    && SlotAlive(w, id) && Some(w.engines[w.nodes[id].engine.value].pack) == pack
  }

  /** A start that goes through leaves the node running what it loaded, in its next generation. */
  lemma ComesUp(w: World, t: TaskId, built: Option<NodeState>, error: string)
    requires StartGoes(w, t) && built.Some?
    ensures var id, w' := w.tasks[t].id, DoStartCommit(w, t, built, error);
            && RunsOn(w', id, w.tasks[t].pack) && w'.nodes[id].state == built.value
            && w'.nodes[id].generation == w.nodes[id].generation + 1
  {
  }

  /** A start that goes through is shown as what its engine shows. */
  lemma StartShows(w: World, t: TaskId, built: Option<NodeState>, error: string)
    requires StartGoes(w, t) && built.Some?
    ensures var w' := DoStartCommit(w, t, built, error);
            && Shown(w'.log, w.tasks[t].id) == built.value
            && w'.log != [] && w'.log[|w'.log| - 1] == PersistEvent(ProfileOf(w'.nodes))
  {
    var id, w' := w.tasks[t].id, DoStartCommit(w, t, built, error);
    assert w'.log == w.log + [StateEvent(id, built.value)] + [PersistEvent(ProfileOf(w'.nodes))];
    ShownAfter(w.log, StateEvent(id, built.value), id);
    ShownAfter(w.log + [StateEvent(id, built.value)], PersistEvent(ProfileOf(w'.nodes)), id);
  }

  // ----- the end of a hub or an ingress -----------------------------------------------------

  /** A hub or ingress whose dead engine has shown its terminal state, and whose listener then decides:
      with any steps of others in between, it goes on to the restart loop exactly when that state is a
      failure, the generation is current and no stop is expected. */
  lemma ServerRestartsIff(w: World, t: TaskId, final: NodeState, others: seq<Step>)
    requires Inv(w) && ListenerAt(w, t) && !w.tasks[t].agent && w.tasks[t].lphase.Watching?
    requires (final.Stopped? || final.Failed?) && !w.engines[w.tasks[t].watched].alive
    requires forall i | 0 <= i < |others| :: !Actor(others[i], t)
    ensures var k, mid := w.tasks[t], Run(Apply(w, Listen(t, See(final))), others);
            var w' := Apply(mid, Listen(t, Decide));
            && t < |w'.tasks|
            && (if final.Failed? && Current(mid, k.id, k.gen) && !mid.nodes[k.id].expectedStop
                then w'.tasks[t] == Restarter(k.id, k.gen, Deciding) else w'.tasks[t].Done?)
  {
    var seen := Apply(w, Listen(t, See(final)));
    SeesEnd(w, t, final);
    InvStep(w, Listen(t, See(final)));
    TaskKept(seen, others, t);
  }

  lemma SeesEnd(w: World, t: TaskId, final: NodeState)
    requires ListenerAt(w, t) && !w.tasks[t].agent && w.tasks[t].lphase.Watching?
    requires (final.Stopped? || final.Failed?) && !w.engines[w.tasks[t].watched].alive
    ensures var w' := Apply(w, Listen(t, See(final)));
            && ListenerAt(w', t) && |w'.engines| == |w.engines|
            && w'.tasks[t] == w.tasks[t].(lphase := Terminal(final.Failed?))
  {
  }
}
