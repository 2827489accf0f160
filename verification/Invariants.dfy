/** What every step of the supervision protocol keeps. */
module Invariants {
  import opened Types
  import opened Supervision

  /** How one task may go on: it keeps its node and generation, and only a supervisor supervises. */
  ghost predicate Continues(k: Task, k': Task) {
    || k' == k
    || k'.Done?
    || (k.Sweep? && k'.Sweep?)
    || (k.Starter? && k'.StartFailed? && k'.id == k.id)
    || (k.Starter? && k'.Starter? && k' == k.(pack := k'.pack))
    || (k.Listener? && (k'.Restarter? || (k'.Listener? && k'.watched == k.watched)) && k'.id == k.id && k'.gen == k.gen)
    || (k.Restarter? && k'.Restarter? && k'.id == k.id && k'.gen == k.gen)
    || (k.Renewal? && (k'.RenewalTail? || (k'.Renewal? && !k.nphase.Failing?)) && k'.id == k.id && k'.gen == k.gen)
  }

  /** A freshly spawned task belongs to a managed node and carries its generation; a listener is
      spawned with the engine it watches in the slot. */
  ghost predicate Spawned(w': World, k: Task) {
    match k
    case Listener(id, gen, watched, _, phase) =>
      Current(w', id, gen) && watched < |w'.engines| && w'.nodes[id].engine == Some(watched) && phase.Watching?
    case Renewal(id, gen, phase) => Current(w', id, gen) && w'.nodes[id].engine.Some? && phase.Waiting?
    case Starter(id, _, _, _) => id in w'.nodes
    case Stopper(id, _) => id in w'.nodes
    case Sweep(_) => true
    case _ => false
  }

  /** Does task `t` take this step? */
  predicate Actor(s: Step, t: TaskId) {
    match s
    case Call(u, _) => t == u
    case Listen(u, _) => t == u
    case Restart(u, _) => t == u
    case Renew(u, _) => t == u
    case _ => false
  }

  /** The shape of every step: tasks go on as they may, and a new listener takes over either a new
      generation or the work of a restarter that ends with this very step. */
  ghost predicate TasksMove(w: World, s: Step, w': World) {
    && w'.budget == w.budget
    && |w.tasks| <= |w'.tasks|
    && |w.engines| <= |w'.engines|
    && (forall x | 0 <= x < |w.engines| && w.engines[x].reported :: w'.engines[x].reported)
    && (forall t | 0 <= t < |w.tasks| :: if Actor(s, t) then Continues(w.tasks[t], w'.tasks[t])
        else w'.tasks[t] == w.tasks[t] || (w.tasks[t].Renewal? && w.tasks[t].nphase.Waiting? && w'.tasks[t].Done?))
    && (forall t | |w.tasks| <= t < |w'.tasks| ::
          && Spawned(w', w'.tasks[t])
          && (w'.tasks[t].Starter? ==> s == User(StartBegin(w'.tasks[t].id, w'.tasks[t].launch))))
    && (forall t | |w.tasks| <= t < |w'.tasks| && w'.tasks[t].Listener? ::
        t == |w.tasks| && Relieves(w, w', w'.tasks[t]))
  }

  ghost predicate Relieves(w: World, w': World, k: Task)
    requires k.Listener? && |w.tasks| <= |w'.tasks|
  {
    || (k.id in w.nodes && w.nodes[k.id].generation < k.gen)
    || (exists t | 0 <= t < |w.tasks| ::
          w.tasks[t].Restarter? && w.tasks[t].id == k.id && w.tasks[t].gen == k.gen && w'.tasks[t].Done?)
  }

  lemma TasksMoveSweep(w: World, clear: bool)
    ensures TasksMove(w, User(SweepBegin(clear)), DoSweepBegin(w, clear))
  {
    AbortMoves(w, User(SweepBegin(clear)), DoSweepBegin(w, clear), Handles(w.nodes), Sweep(LiveEngines(w)));
  }

  lemma TasksMoveUser(w: World, u: UserMove)
    ensures TasksMove(w, User(u), ApplyUser(w, u))
  {
    if u.SweepBegin? {
      TasksMoveSweep(w, u.clear);
    } else if u.StopBegin? {
      TasksMoveStop(w, u.id);
    }
  }

  lemma TasksMoveStop(w: World, id: NodeId)
    ensures TasksMove(w, User(StopBegin(id)), DoStopBegin(w, id))
  {
    if id in w.nodes {
      var e, w' := w.nodes[id], DoStopBegin(w, id);
      assert w'.tasks == Abort(w.tasks, Handle(e)) + [Stopper(id, e.engine)] && w'.engines == w.engines;
      AbortMoves(w, User(StopBegin(id)), w', Handle(e), Stopper(id, e.engine));
    }
  }

  /** A section that aborts renewals and adds its own call. */
  lemma AbortMoves(w: World, s: Step, w': World, targets: set<TaskId>, k: Task)
    requires s.User? && w'.budget == w.budget && w'.engines == w.engines && w'.tasks == Abort(w.tasks, targets) + [k]
    requires (k.Stopper? && k.id in w'.nodes) || k.Sweep?
    ensures TasksMove(w, s, w')
  {
  }

  lemma TasksMoveStart(w: World, t: TaskId, built: Option<NodeState>, error: string)
    ensures TasksMove(w, Call(t, StartCommit(built, error)), DoStartCommit(w, t, built, error))
  {
    if StartGoes(w, t) {
      TasksMoveBuild(w, t, built, error);
    }
  }

  /** A section that changes its own task and then builds an engine: `w1` is the world it builds in. */
  lemma TasksMoveLocked(w: World, s: Step, t: TaskId, k': Task, w1: World, id: NodeId, prepared: Spec,
                        pack: Pack, built: Option<NodeState>)
    requires (s.Call? || s.Restart? || s.Renew?) && s.t == t < |w.tasks| && Continues(w.tasks[t], k')
    requires w1.tasks == w.tasks[t := k'] && w1.engines == w.engines && w1.budget == w.budget && id in w1.nodes
    requires built.Some? ==>
               || (id in w.nodes && w.nodes[id].generation < w1.nodes[id].generation)
               || (&& w.tasks[t].Restarter? && w.tasks[t].id == id && w.tasks[t].gen == w1.nodes[id].generation
                   && k'.Done?)
    ensures TasksMove(w, s, StartLocked(w1, id, prepared, pack, built))
  {
  }

  lemma TasksMoveBuild(w: World, t: TaskId, built: Option<NodeState>, error: string)
    requires StartGoes(w, t)
    ensures TasksMove(w, Call(t, StartCommit(built, error)), BuildStart(w, t, built, error))
  {
    var k := w.tasks[t];
    var k' := if built.Some? then Done else StartRefused(k, error);
    var w1 := SetTask(SetEntry(w, k.id, Started(w.nodes[k.id])), t, k');
    TasksMoveLocked(w, Call(t, StartCommit(built, error)), t, k', w1, k.id, k.prepared, k.pack.value, built);
  }

  lemma TasksMoveCall(w: World, t: TaskId, c: CallMove)
    ensures TasksMove(w, Call(t, c), ApplyCall(w, t, c))
  {
    if c.StartCommit? {
      TasksMoveStart(w, t, c.built, c.error);
    }
  }

  lemma TasksMoveListener(w: World, t: TaskId, l: ListenerMove)
    ensures TasksMove(w, Listen(t, l), ApplyListener(w, t, l))
  {
  }

  lemma TasksMoveInstall(w: World, t: TaskId, built: Option<NodeState>)
    ensures TasksMove(w, Restart(t, Install(built)), DoRestartInstall(w, t, built))
  {
    if RestartLoaded(w, t) && MayRestart(w, w.tasks[t]) {
      var k := w.tasks[t];
      var k' := if built.Some? then Done else k.(rphase := Deciding);
      var w1 := SetEntry(SetTask(w, t, k'), k.id, w.nodes[k.id].(engine := None));
      TasksMoveLocked(w, Restart(t, Install(built)), t, k', w1, k.id, k.rphase.prepared,
          k.rphase.pack.value, built);
    }
  }

  lemma TasksMoveRestart(w: World, t: TaskId, r: RestartMove)
    ensures TasksMove(w, Restart(t, r), ApplyRestart(w, t, r))
  {
    if r.Install? {
      TasksMoveInstall(w, t, r.built);
    }
  }

  lemma TasksMoveReinstall(w: World, t: TaskId, built: Option<NodeState>, error: string)
    ensures TasksMove(w, Renew(t, Reinstall(built, error)), DoRenewalInstall(w, t, built, error))
  {
  }

  lemma TasksMoveRenewal(w: World, t: TaskId, n: RenewalMove)
    ensures TasksMove(w, Renew(t, n), ApplyRenewal(w, t, n))
  {
    if n.Reinstall? {
      TasksMoveReinstall(w, t, n.built, n.error);
    }
  }

  lemma TasksMoveStep(w: World, s: Step)
    ensures TasksMove(w, s, Apply(w, s))
  {
    match s
    case User(u) => TasksMoveUser(w, u);
    case Call(t, c) => TasksMoveCall(w, t, c);
    case Listen(t, l) => TasksMoveListener(w, t, l);
    case Restart(t, r) => TasksMoveRestart(w, t, r);
    case Renew(t, n) => TasksMoveRenewal(w, t, n);
    case Deliver =>
    case EngineFlip(x, alive) =>
  }

  // ----- nodes ------------------------------------------------------------------------------

  /** The steps that may bring a node up, advance its generation or turn its intent on. */
  predicate Authorised(w: World, s: Step, id: NodeId) {
    match s
    case User(u) => u == StopBegin(id)
    case Call(t, c) => c.StartCommit? && StartGoes(w, t) && w.tasks[t].id == id
    case Restart(t, r) => r.Install? && RestartLoaded(w, t) && w.tasks[t].id == id && MayRestart(w, w.tasks[t])
    case Renew(t, n) => n.Reinstall? && RenewalLoaded(w, t) && w.tasks[t].id == id && Current(w, id, w.tasks[t].gen)
    case _ => false
  }

  /** What every other step may do to an entry: take the engine away and announce a stop. */
  ghost predicate Quiet(e: Entry, e': Entry) {
    && e'.generation == e.generation
    && (e.expectedStop ==> e'.expectedStop)
    && (e'.desired ==> e.desired)
    && (e'.engine == e.engine || e'.engine.None?)
  }

  /** A spec changes by a refresh, or in its preferences only. */
  ghost predicate SpecMoves(s: Step, id: NodeId, a: Spec, b: Spec) {
    if s.User? && s.u.Refresh? && s.u.id == id then b == RefreshedSpec(a, s.u.pack)
    else b == a.(transport := b.transport, quicAddr := b.quicAddr, addresses := b.addresses)
  }

  ghost predicate EntryMoves(w: World, s: Step, w': World, id: NodeId)
    requires id in w.nodes && id in w'.nodes
  {
    var e, e' := w.nodes[id], w'.nodes[id];
    && SpecMoves(s, id, e.spec, e'.spec)
    && e.generation <= e'.generation
    && (if Authorised(w, s, id) then s.Restart? || e.generation < e'.generation else Quiet(e, e'))
    && (e'.engine.Some? ==> e'.engine == e.engine || e'.engine.value == |w.engines| < |w'.engines|)
  }

  /** A node that appears is new, idle, and no duplicate of another. */
  ghost predicate Appears(w: World, s: Step, w': World, id: NodeId)
    requires id in w'.nodes
  {
    && id in w'.used
    && id !in w.used
    && s == User(Add(id, w'.nodes[id].spec))
    && w'.nodes == w.nodes[id := FreshEntry(w'.nodes[id].spec, false)]
    && (forall o | o in w.nodes :: !Conflict(w'.nodes[id].spec, w.nodes[o].spec))
  }

  ghost predicate NodeMoves(w: World, s: Step, w': World, id: NodeId)
    requires id in w'.nodes
  {
    if id in w.nodes then EntryMoves(w, s, w', id) else Appears(w, s, w', id)
  }

  ghost predicate NodesMove(w: World, s: Step, w': World) {
    && w.used <= w'.used
    && (forall id | id in w'.nodes :: NodeMoves(w, s, w', id))
  }

  lemma NodeMovesSweep(w: World, clear: bool, id: NodeId)
    requires id in DoSweepBegin(w, clear).nodes
    ensures NodeMoves(w, User(SweepBegin(clear)), DoSweepBegin(w, clear), id)
  {
  }

  lemma NodeMovesStop(w: World, stopped: NodeId, id: NodeId)
    requires id in DoStopBegin(w, stopped).nodes
    ensures NodeMoves(w, User(StopBegin(stopped)), DoStopBegin(w, stopped), id)
  {
  }

  lemma NodeMovesAdd(w: World, newcomer: NodeId, spec: Spec, id: NodeId)
    requires w.nodes.Keys <= w.used && id in DoAdd(w, newcomer, spec).nodes
    ensures NodeMoves(w, User(Add(newcomer, spec)), DoAdd(w, newcomer, spec), id)
  {
  }

  lemma NodeMovesUser(w: World, u: UserMove, id: NodeId)
    requires w.nodes.Keys <= w.used && id in ApplyUser(w, u).nodes
    ensures NodeMoves(w, User(u), ApplyUser(w, u), id)
  {
    if u.SweepBegin? {
      NodeMovesSweep(w, u.clear, id);
    } else if u.Add? {
      NodeMovesAdd(w, u.id, u.spec, id);
    } else if u.StopBegin? {
      NodeMovesStop(w, u.id, id);
    }
  }

  /** What a build does to its entry: nothing but the address table, the engine, its renewal and the state. */
  lemma StartLockedEntry(w: World, id: NodeId, prepared: Spec, pack: Pack, built: Option<NodeState>)
    requires id in w.nodes
    ensures var e, w' := w.nodes[id], StartLocked(w, id, prepared, pack, built);
            && id in w'.nodes
            && w'.nodes[id] == e.(table := w'.nodes[id].table, engine := w'.nodes[id].engine,
                renewal := w'.nodes[id].renewal, state := w'.nodes[id].state)
            && w'.nodes[id].engine == if built.Some? then Some(|w.engines|) else e.engine
  {
  }

  lemma NodeMovesStart(w: World, t: TaskId, built: Option<NodeState>, error: string, id: NodeId)
    requires id in DoStartCommit(w, t, built, error).nodes
    ensures NodeMoves(w, Call(t, StartCommit(built, error)), DoStartCommit(w, t, built, error), id)
  {
    if StartGoes(w, t) {
      var k, w' := w.tasks[t], DoStartCommit(w, t, built, error);
      if id == k.id {
        var w1 := SetEntry(w, k.id, Started(w.nodes[k.id]));
        StartLockedEntry(SetTask(w1, t, if built.Some? then Done else StartRefused(k, error)), id, k.prepared,
            k.pack.value, built);
      } else {
        assert w'.nodes[id] == w.nodes[id];
      }
    }
  }

  lemma NodeMovesCall(w: World, t: TaskId, c: CallMove, id: NodeId)
    requires id in ApplyCall(w, t, c).nodes
    ensures NodeMoves(w, Call(t, c), ApplyCall(w, t, c), id)
  {
    if c.StartCommit? {
      NodeMovesStart(w, t, c.built, c.error, id);
    }
  }

  /** A listener shows states and clears the debt, no more. */
  lemma ListenerEntry(w: World, t: TaskId, l: ListenerMove, id: NodeId)
    requires id in ApplyListener(w, t, l).nodes
    ensures var w' := ApplyListener(w, t, l);
            id in w.nodes && w'.nodes[id] == w.nodes[id].(attempts := w'.nodes[id].attempts,
                state := w'.nodes[id].state)
  {
    match l
    case See(state) =>
      if ListenerAt(w, t) {
        if w.tasks[t].agent { AgentSeesEntry(w, t, state, id); } else { ServerSeesEntry(w, t, state, id); }
      }
    case _ =>
  }

  lemma AgentSeesEntry(w: World, t: TaskId, state: NodeState, id: NodeId)
    requires ListenerAt(w, t) && id in AgentSees(w, t, state).nodes
    ensures var w' := AgentSees(w, t, state);
            id in w.nodes && w'.nodes[id] == w.nodes[id].(state := w'.nodes[id].state)
  {
  }

  lemma ServerSeesEntry(w: World, t: TaskId, state: NodeState, id: NodeId)
    requires ListenerAt(w, t) && id in ServerSees(w, t, state).nodes
    ensures var w' := ServerSees(w, t, state);
            id in w.nodes && w'.nodes[id] == w.nodes[id].(state := w'.nodes[id].state)
  {
  }

  lemma NodeMovesListener(w: World, t: TaskId, l: ListenerMove, id: NodeId)
    requires id in ApplyListener(w, t, l).nodes
    ensures NodeMoves(w, Listen(t, l), ApplyListener(w, t, l), id)
  {
    ListenerEntry(w, t, l, id);
  }

  lemma NodeMovesInstall(w: World, t: TaskId, built: Option<NodeState>, id: NodeId)
    requires id in DoRestartInstall(w, t, built).nodes
    ensures NodeMoves(w, Restart(t, Install(built)), DoRestartInstall(w, t, built), id)
  {
    if RestartLoaded(w, t) && MayRestart(w, w.tasks[t]) {
      var k := w.tasks[t];
      if id == k.id {
        var w1 := SetTask(w, t, if built.Some? then Done else k.(rphase := Deciding));
        StartLockedEntry(SetEntry(w1, id, w.nodes[id].(engine := None)), id, k.rphase.prepared,
            k.rphase.pack.value, built);
      } else {
        assert DoRestartInstall(w, t, built).nodes[id] == w.nodes[id];
      }
    }
  }

  lemma NodeMovesRestart(w: World, t: TaskId, r: RestartMove, id: NodeId)
    requires id in ApplyRestart(w, t, r).nodes
    ensures NodeMoves(w, Restart(t, r), ApplyRestart(w, t, r), id)
  {
    if r.Install? {
      NodeMovesInstall(w, t, r.built, id);
    }
  }

  lemma NodeMovesReinstall(w: World, t: TaskId, built: Option<NodeState>, error: string, id: NodeId)
    requires id in DoRenewalInstall(w, t, built, error).nodes
    ensures NodeMoves(w, Renew(t, Reinstall(built, error)), DoRenewalInstall(w, t, built, error), id)
  {
    if RenewalLoaded(w, t) && Current(w, w.tasks[t].id, w.tasks[t].gen) {
      var k := w.tasks[t];
      if id == k.id {
        StartLockedEntry(SetEntry(SetTask(w, t, Done), id, Rearmed(w.nodes[id])), id, k.nphase.prepared,
            k.nphase.pack.value, built);
      } else {
        assert DoRenewalInstall(w, t, built, error).nodes[id] == w.nodes[id];
      }
    }
  }

  /** Before its last section a renewal only takes the engine away, announces a stop and shows states. */
  lemma RenewalEntry(w: World, t: TaskId, n: RenewalMove, id: NodeId)
    requires !n.Reinstall? && id in ApplyRenewal(w, t, n).nodes
    ensures var e' := ApplyRenewal(w, t, n).nodes[id];
            && id in w.nodes
            && e' == w.nodes[id].(renewal := e'.renewal, expectedStop := e'.expectedStop, engine := e'.engine,
                state := e'.state)
            && (w.nodes[id].expectedStop ==> e'.expectedStop) && (e'.engine == w.nodes[id].engine || e'.engine.None?)
  {
  }

  lemma NodeMovesRenewal(w: World, t: TaskId, n: RenewalMove, id: NodeId)
    requires id in ApplyRenewal(w, t, n).nodes
    ensures NodeMoves(w, Renew(t, n), ApplyRenewal(w, t, n), id)
  {
    if n.Reinstall? {
      NodeMovesReinstall(w, t, n.built, n.error, id);
    } else {
      RenewalEntry(w, t, n, id);
    }
  }

  lemma NodesMoveStep(w: World, s: Step)
    requires w.nodes.Keys <= w.used
    ensures NodesMove(w, s, Apply(w, s))
  {
    forall id | id in Apply(w, s).nodes ensures NodeMoves(w, s, Apply(w, s), id) { NodeMovesStep(w, s, id); }
    UsedGrows(w, s);
  }

  lemma NodeMovesStep(w: World, s: Step, id: NodeId)
    requires w.nodes.Keys <= w.used && id in Apply(w, s).nodes
    ensures NodeMoves(w, s, Apply(w, s), id)
  {
    match s
    case User(u) => NodeMovesUser(w, u, id);
    case Call(t, c) => NodeMovesCall(w, t, c, id);
    case Listen(t, l) => NodeMovesListener(w, t, l, id);
    case Restart(t, r) => NodeMovesRestart(w, t, r, id);
    case Renew(t, n) => NodeMovesRenewal(w, t, n, id);
    case Deliver =>
    case EngineFlip(x, alive) =>
  }

  lemma UsedGrows(w: World, s: Step)
    ensures w.used <= Apply(w, s).used
  {
    match s
    case User(u) =>
    case Call(t, c) => assert ApplyCall(w, t, c).used == w.used;
    case Listen(t, l) => assert ApplyListener(w, t, l).used == w.used;
    case Restart(t, r) => assert ApplyRestart(w, t, r).used == w.used;
    case Renew(t, n) => assert ApplyRenewal(w, t, n).used == w.used;
    case Deliver =>
    case EngineFlip(x, alive) =>
  }

  // ----- invariants -------------------------------------------------------------------------

  ghost predicate SlotsBuilt(w: World) {
    forall id | id in w.nodes && w.nodes[id].engine.Some? :: w.nodes[id].engine.value < |w.engines|
  }

  /** Ids are never reused, and no task is ahead of its node's generation. */
  ghost predicate Bounded(w: World) {
    && w.nodes.Keys <= w.used
    && SlotsBuilt(w)
    && (forall t | 0 <= t < |w.tasks| && Carries(w.tasks[t]) ::
          && w.tasks[t].id in w.used
          && (w.tasks[t].id in w.nodes ==> w.tasks[t].gen <= w.nodes[w.tasks[t].id].generation))
    && (forall t | 0 <= t < |w.tasks| && w.tasks[t].Listener? :: w.tasks[t].watched < |w.engines|)
  }

  /** At most one task, listener or restarter, looks after a node in a given generation. */
  ghost predicate Linear(w: World) {
    forall t, u | 0 <= t < |w.tasks| && 0 <= u < |w.tasks| && Supervisor(w.tasks[t]) && Supervisor(w.tasks[u]) ::
      w.tasks[t].id == w.tasks[u].id && w.tasks[t].gen == w.tasks[u].gen ==> t == u
  }

  /** What a task may rely on while its generation is the node's: a listener watches the engine in
      the slot, a restarter finds there only an engine that was reported dead, and once a renewal
      has begun nothing is installed behind its back. */
  ghost predicate Relies(w: World, k: Task) {
    match k
    case Listener(id, gen, watched, _, phase) =>
      && watched < |w.engines|
      && (Current(w, id, gen) && w.nodes[id].engine.Some? ==> w.nodes[id].engine.value == watched)
      && (phase.Closing? || phase.Terminal? ==> w.engines[watched].reported)
    case Restarter(id, gen, _) =>
      Current(w, id, gen) && w.nodes[id].engine.Some? ==>
        w.nodes[id].engine.value < |w.engines| && w.engines[w.nodes[id].engine.value].reported
    case Renewal(id, gen, phase) =>
      Current(w, id, gen) && !phase.Waiting? && !phase.Ready? && !phase.Failing? ==>
        && w.nodes[id].expectedStop
        && (phase.Draining? || phase.Rebuilding? ==> w.nodes[id].engine.None?)
    case _ => true
  }

  ghost predicate Guarded(w: World) {
    forall t | 0 <= t < |w.tasks| :: Relies(w, w.tasks[t])
  }

  ghost predicate Inv(w: World) {
    Bounded(w) && Linear(w) && Guarded(w)
  }

  lemma BoundedKept(w: World, s: Step, w': World)
    requires Bounded(w) && TasksMove(w, s, w') && NodesMove(w, s, w')
    ensures Bounded(w')
  {
    forall id | id in w'.nodes && w'.nodes[id].engine.Some?
      ensures w'.nodes[id].engine.value < |w'.engines|
    {
      SlotBuilt(w, s, w', id);
    }
    forall id | id in w'.nodes ensures id in w'.used { assert NodeMoves(w, s, w', id); }
    forall t | 0 <= t < |w'.tasks| && Carries(w'.tasks[t])
      ensures w'.tasks[t].id in w'.used
      ensures w'.tasks[t].id in w'.nodes ==> w'.tasks[t].gen <= w'.nodes[w'.tasks[t].id].generation
    {
      CarriedBehind(w, s, w', t);
    }
  }

  lemma SlotBuilt(w: World, s: Step, w': World, id: NodeId)
    requires SlotsBuilt(w) && |w.engines| <= |w'.engines| && id in w'.nodes && w'.nodes[id].engine.Some?
        && NodeMoves(w, s, w', id)
    ensures w'.nodes[id].engine.value < |w'.engines|
  {
  }

  lemma CarriedBehind(w: World, s: Step, w': World, t: TaskId)
    requires Bounded(w) && TasksMove(w, s, w') && NodesMove(w, s, w') && t < |w'.tasks| && Carries(w'.tasks[t])
    ensures w'.tasks[t].id in w'.used
    ensures w'.tasks[t].id in w'.nodes ==> w'.tasks[t].gen <= w'.nodes[w'.tasks[t].id].generation
  {
    var id := w'.tasks[t].id;
    if id in w'.nodes { assert NodeMoves(w, s, w', id); }
    if t < |w.tasks| {
      assert Carries(w.tasks[t]) && w.tasks[t].id == id && w.tasks[t].gen == w'.tasks[t].gen;
    } else {
      assert Spawned(w', w'.tasks[t]);
    }
  }

  lemma LinearPair(w: World, s: Step, w': World, t: TaskId, u: TaskId)
    requires Bounded(w) && Linear(w) && TasksMove(w, s, w')
    requires t < |w.tasks| && u < |w'.tasks| && Supervisor(w'.tasks[t]) && Supervisor(w'.tasks[u])
    requires w'.tasks[t].id == w'.tasks[u].id && w'.tasks[t].gen == w'.tasks[u].gen
    ensures t == u
  {
    var k := w.tasks[t];
    assert Supervisor(k) && k.id == w'.tasks[t].id && k.gen == w'.tasks[t].gen;
    if u < |w.tasks| {
      assert Supervisor(w.tasks[u]);
    }
  }

  lemma LinearKept(w: World, s: Step, w': World)
    requires Bounded(w) && Linear(w) && TasksMove(w, s, w')
    ensures Linear(w')
  {
    forall t, u | 0 <= t < |w'.tasks| && 0 <= u < |w'.tasks| && Supervisor(w'.tasks[t]) && Supervisor(w'.tasks[u])
                  && w'.tasks[t].id == w'.tasks[u].id && w'.tasks[t].gen == w'.tasks[u].gen
      ensures t == u
    {
      if t < |w.tasks| {
        LinearPair(w, s, w', t, u);
      } else if u < |w.tasks| {
        LinearPair(w, s, w', u, t);
      } else {
        assert Spawned(w', w'.tasks[t]) && Spawned(w', w'.tasks[u]);
      }
    }
  }

  /** The acting task finds what it relies on after its own step. */
  lemma OwnCall(w: World, t: TaskId, c: CallMove)
    requires t < |w.tasks| && Relies(w, w.tasks[t])
    ensures Relies(ApplyCall(w, t, c), ApplyCall(w, t, c).tasks[t])
  {
  }

  lemma OwnAgentSees(w: World, t: TaskId, state: NodeState)
    requires ListenerAt(w, t) && Relies(w, w.tasks[t])
    ensures Relies(AgentSees(w, t, state), AgentSees(w, t, state).tasks[t])
  {
  }

  lemma OwnServerSees(w: World, t: TaskId, state: NodeState)
    requires ListenerAt(w, t) && Relies(w, w.tasks[t])
    ensures Relies(ServerSees(w, t, state), ServerSees(w, t, state).tasks[t])
  {
  }

  lemma OwnListener(w: World, t: TaskId, l: ListenerMove)
    requires t < |w.tasks| && Relies(w, w.tasks[t])
    ensures Relies(ApplyListener(w, t, l), ApplyListener(w, t, l).tasks[t])
  {
    if l.See? && ListenerAt(w, t) {
      OwnAgentSees(w, t, l.state);
      OwnServerSees(w, t, l.state);
    }
  }

  lemma OwnRestart(w: World, t: TaskId, r: RestartMove)
    requires t < |w.tasks| && Relies(w, w.tasks[t])
    ensures Relies(ApplyRestart(w, t, r), ApplyRestart(w, t, r).tasks[t])
  {
  }

  lemma OwnRenewal(w: World, t: TaskId, n: RenewalMove)
    requires t < |w.tasks| && Relies(w, w.tasks[t])
    ensures Relies(ApplyRenewal(w, t, n), ApplyRenewal(w, t, n).tasks[t])
  {
  }

  lemma OwnStep(w: World, s: Step, t: TaskId)
    requires Inv(w) && t < |w.tasks| && Actor(s, t)
    ensures t < |Apply(w, s).tasks| && Relies(Apply(w, s), Apply(w, s).tasks[t])
  {
    TasksMoveStep(w, s);
    match s
    case Call(_, c) => OwnCall(w, t, c);
    case Listen(_, l) => OwnListener(w, t, l);
    case Restart(_, r) => OwnRestart(w, t, r);
    case Renew(_, n) => OwnRenewal(w, t, n);
  }

  /** Another task's step never takes away what a task relies on. */
  lemma OthersKept(w: World, s: Step, w': World, t: TaskId)
    requires Inv(w) && TasksMove(w, s, w') && NodesMove(w, s, w') && t < |w.tasks| && !Actor(s, t)
    ensures Relies(w', w'.tasks[t])
  {
    var k := w.tasks[t];
    assert Relies(w, k);
    if Carries(k) && k.id in w'.nodes {
      assert NodeMoves(w, s, w', k.id);
      if Supervisor(k) && s.Restart? && Authorised(w, s, k.id) { OneSupervisor(w, s.t, t); }
    }
  }

  /** A restarter at work is its generation's only supervisor. */
  lemma OneSupervisor(w: World, t: TaskId, u: TaskId)
    requires Linear(w) && RestarterAt(w, t) && u < |w.tasks| && t != u && Supervisor(w.tasks[u])
    ensures !(w.tasks[u].id == w.tasks[t].id && w.tasks[u].gen == w.tasks[t].gen)
  {
  }

  lemma GuardedStep(w: World, s: Step)
    requires Inv(w)
    ensures Guarded(Apply(w, s))
  {
    TasksMoveStep(w, s);
    NodesMoveStep(w, s);
    var w' := Apply(w, s);
    forall t | 0 <= t < |w'.tasks|
      ensures Relies(w', w'.tasks[t])
    {
      if t < |w.tasks| {
        if Actor(s, t) { OwnStep(w, s, t); } else { OthersKept(w, s, w', t); }
      }
    }
  }

  lemma InvStep(w: World, s: Step)
    requires Inv(w)
    ensures Inv(Apply(w, s))
  {
    TasksMoveStep(w, s);
    NodesMoveStep(w, s);
    BoundedKept(w, s, Apply(w, s));
    LinearKept(w, s, Apply(w, s));
    GuardedStep(w, s);
  }

  lemma {:induction false} InvRun(w: World, steps: seq<Step>)
    requires Inv(w)
    ensures Inv(Run(w, steps))
    decreases |steps|
  {
    if steps != [] {
      InvStep(w, steps[0]);
      InvRun(Apply(w, steps[0]), steps[1..]);
    }
  }

  /** Steps of others leave a task where it is, unless it is a renewal they may abort. */
  lemma {:induction false} TaskKept(w: World, steps: seq<Step>, t: TaskId)
    requires Inv(w) && t < |w.tasks| && !(w.tasks[t].Renewal? && w.tasks[t].nphase.Waiting?)
    requires forall i | 0 <= i < |steps| :: !Actor(steps[i], t)
    ensures Inv(Run(w, steps)) && t < |Run(w, steps).tasks| && Run(w, steps).tasks[t] == w.tasks[t]
    ensures |w.engines| <= |Run(w, steps).engines|
    decreases |steps|
  {
    if steps != [] {
      TasksMoveStep(w, steps[0]);
      InvStep(w, steps[0]);
      TaskKept(Apply(w, steps[0]), steps[1..], t);
    }
  }

  /** Supervision is linear: in every reachable world at most one listener or restarter carries a given
      node and generation, although a crash restart reuses its generation; and no task is ahead of its
      node. */
  lemma SupervisionIsLinear(profile: Profile, load: PackDir -> Option<Pack>, steps: seq<Step>)
    ensures Linear(Run(Restore(profile, load), steps)) && Bounded(Run(Restore(profile, load), steps))
  {
    InvRun(Restore(profile, load), steps);
  }
}
