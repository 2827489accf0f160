/**
The node manager as a transition system. One step is one section the code runs while it holds the
manager lock (or one move of the environment: a watch reporting, a future finishing, an engine
dying, a sink returning). User calls and spawned tasks live in `tasks`, each with the point it
has reached; any of them may move next. A step whose task is not at that point leaves the world
as it is, so every sequence of steps is a run.
*/
module Supervision {
  import opened Types

  // ----- restart budget ---------------------------------------------------------------------

  /** The budget of the policy the manager constructs. */
  const MAX_ATTEMPTS: nat := 3

  const EXHAUSTED := "engine exited unexpectedly; automatic restart attempts exhausted"
  const RESTARTING := "engine exited unexpectedly; restarting"
  const RENEWED := "credentials renewed \U{2014} restarting"

  /** Seconds to wait before the given attempt: doubling from one second, capped at thirty. */
  function Backoff(attempt: nat): (secs: nat)
    ensures secs <= 30
  {
    if attempt <= 1 then 1
    else if attempt == 2 then 2
    else if attempt == 3 then 4
    else if attempt == 4 then 8
    else if attempt == 5 then 16
    else 30
  }

  // ----- tasks ------------------------------------------------------------------------------

  /** `Noted` is between the healthy-streak section and the observation; `Closing` and `Terminal`
      are after the watch reported the end of the engine. */
  datatype ListenerPhase =
    | Watching
    | Noted
    | Closing(final: NodeState, proceed: bool)
    | Terminal(failed: bool)

  /** `prepared` is the spec read under the lock, `pack` what the directory then loaded as. */
  datatype RestartPhase =
    | Deciding
    | GivingUp
    | Announcing(backoff: nat)
    | Sleeping
    | Preparing(prepared: Spec, pack: Option<Pack>)

  datatype RenewalPhase =
    | Waiting
    | Ready
    | Begun
    | Taking
    | Draining(engine: Option<EngineId>)
    | Rebuilding(prepared: Spec, pack: Option<Pack>)
    | Failing(error: string)

  datatype Task =
    | Done
    | Listener(id: NodeId, gen: nat, watched: EngineId, agent: bool, lphase: ListenerPhase)
    | Restarter(id: NodeId, gen: nat, rphase: RestartPhase)
    | Renewal(id: NodeId, gen: nat, nphase: RenewalPhase)
    | RenewalTail(id: NodeId, gen: nat, hand: Option<EngineId>, error: string)
    | Starter(id: NodeId, prepared: Spec, pack: Option<Pack>, launch: bool)
    | StartFailed(id: NodeId, error: string)
    | Stopper(id: NodeId, hand: Option<EngineId>)
    | Sweep(pending: map<NodeId, EngineId>)

  /** The two kinds of task that look after an engine. */
  predicate Supervisor(k: Task) {
    k.Listener? || k.Restarter?
  }

  /** The tasks that carry the generation they were spawned for. */
  predicate Carries(k: Task) {
    Supervisor(k) || k.Renewal? || k.RenewalTail?
  }

  // ----- the world --------------------------------------------------------------------------

  /** `alive` is what `is_alive` answers now; `reported` says that the watch has told the engine's
      own listener that the engine ended; `pack` is what the engine was built from. */
  datatype Engine = Engine(alive: bool, reported: bool, pack: Pack)

  datatype Entry = Entry(
    spec: Spec,
    table: Option<map<string, string>>,
    desired: bool,
    expectedStop: bool,
    state: NodeState,
    engine: Option<EngineId>,
    renewal: Option<TaskId>,
    attempts: nat,
    generation: nat)

  datatype Event =
    | StateEvent(id: NodeId, state: NodeState)
    | PersistEvent(profile: Profile)
    | SettledEvent

  /** `log` holds every event ever queued, of which the consumer has handed `delivered` to the
      sinks; `base` is the profile the session was restored from; `used` every id ever given;
      `budget` the crash restarts a generation is granted. */
  datatype World = World(
    nodes: map<NodeId, Entry>,
    used: set<NodeId>,
    tasks: seq<Task>,
    engines: seq<Engine>,
    log: seq<Event>,
    delivered: nat,
    base: Profile,
    budget: nat)

  function FreshEntry(spec: Spec, desired: bool): Entry {
    Entry(spec, None, desired, false, Stopped, None, None, 0, 0)
  }

  function ProfileEntryOf(e: Entry): ProfileEntry {
    ProfileEntry(e.spec.dir, e.spec.transport, e.spec.quicAddr, e.spec.addresses, e.desired)
  }

  function ProfileOf(nodes: map<NodeId, Entry>): (p: Profile)
    ensures p.Keys == nodes.Keys
  {
    map id | id in nodes :: ProfileEntryOf(nodes[id])
  }

  /** The spec a persisted entry comes back as: from its pack when that reads, else a placeholder. */
  function SpecFromProfile(p: ProfileEntry, pack: Option<Pack>): Spec {
    match pack
    case Some(k) =>
      Spec(k.kind, k.node, Some(k.principal), p.dir, p.transport, p.quicAddr, k.generation, k.digest, p.addresses)
    case None =>
      Spec(ExposeAgent, p.dir.text, None, p.dir, p.transport, p.quicAddr, 0, "", p.addresses)
  }

  /** A session starts by restoring the persisted profile; `load` is what each pack directory reads as. */
  function Restore(profile: Profile, load: PackDir -> Option<Pack>): World {
    World(map id | id in profile ::
            FreshEntry(SpecFromProfile(profile[id], load(profile[id].dir)), profile[id].desiredRunning),
          profile.Keys, [], [], [], 0, profile, MAX_ATTEMPTS)
  }

  // ----- building blocks --------------------------------------------------------------------

  predicate Current(w: World, id: NodeId, gen: nat) {
    id in w.nodes && w.nodes[id].generation == gen
  }

  predicate SlotAlive(w: World, id: NodeId)
    requires id in w.nodes
  {
    w.nodes[id].engine.Some? && w.nodes[id].engine.value < |w.engines| && w.engines[w.nodes[id].engine.value].alive
  }

  function SetTask(w: World, t: TaskId, k: Task): World
    requires t < |w.tasks|
  {
    w.(tasks := w.tasks[t := k])
  }

  function SetEntry(w: World, id: NodeId, e: Entry): World {
    w.(nodes := w.nodes[id := e])
  }

  function Emit(w: World, ev: Event): World {
    w.(log := w.log + [ev])
  }

  /** Writes a node's state and queues the event that mirrors it. */
  function SetState(w: World, id: NodeId, e: Entry, state: NodeState): World {
    Emit(SetEntry(w, id, e.(state := state)), StateEvent(id, state))
  }

  function Persist(w: World): World {
    Emit(w, PersistEvent(ProfileOf(w.nodes)))
  }

  function Observe(w: World, id: NodeId, gen: nat, state: NodeState): World {
    if Current(w, id, gen) then SetState(w, id, w.nodes[id], state) else w
  }

  function Report(w: World, x: EngineId): World
    requires x < |w.engines|
  {
    w.(engines := w.engines[x := w.engines[x].(reported := true)])
  }

  /** Aborting stops a renewal only while its future is still running. */
  function AbortTask(k: Task): Task {
    if k.Renewal? && k.nphase.Waiting? then Done else k
  }

  function Abort(tasks: seq<Task>, targets: set<TaskId>): (r: seq<Task>)
    ensures |r| == |tasks|
    ensures forall t | 0 <= t < |tasks| :: r[t] == if t in targets then AbortTask(tasks[t]) else tasks[t]
  {
    seq(|tasks|, t requires 0 <= t < |tasks| => if t in targets then AbortTask(tasks[t]) else tasks[t])
  }

  function Handle(e: Entry): set<TaskId> {
    if e.renewal.Some? then {e.renewal.value} else {}
  }

  /** A start loads its pack again from the directory of the spec it read, outside the lock; a pack
      of another kind than the spec recorded is refused. */
  predicate Loads(prepared: Spec, loaded: Option<Pack>, pack: Pack) {
    loaded.None? && pack.kind == prepared.kind
  }

  /** Builds the engine from its loaded pack and wires its listener and renewal; `built` is the state
      the new engine shows, or None when the build fails. */
  function StartLocked(w: World, id: NodeId, prepared: Spec, pack: Pack, built: Option<NodeState>): World
    requires id in w.nodes
  {
    var e0 := w.nodes[id];
    var e := if prepared.kind.ExposeAgent? then e0.(table := Some(prepared.addresses)) else e0;
    match built
    case None => SetEntry(w, id, e)
    case Some(state) =>
      var agent := prepared.kind.ExposeAgent? || prepared.kind.MeshAgent?;
      var listener := Listener(id, e.generation, |w.engines|, agent, Watching);
      SetState(w.(tasks := w.tasks + [listener, Renewal(id, e.generation, Waiting)],
                  engines := w.engines + [Engine(true, false, pack)]),
               id, e.(engine := Some(|w.engines|), renewal := Some(|w.tasks| + 1)), state)
  }

  // ----- user calls -------------------------------------------------------------------------

  predicate Conflict(spec: Spec, other: Spec) {
    || (spec.principal.Some? && spec.principal == other.principal)
    || spec.dir.canonical == other.dir.canonical
  }

  function DoAdd(w: World, id: NodeId, spec: Spec): World {
    if id in w.used || exists o | o in w.nodes :: Conflict(spec, w.nodes[o].spec) then w
    else Persist(w.(nodes := w.nodes[id := FreshEntry(spec, false)], used := w.used + {id}))
  }

  function DoRemove(w: World, id: NodeId): World {
    if id !in w.nodes || SlotAlive(w, id) then w
    else Persist(w.(nodes := w.nodes - {id}))
  }

  /** The running engine's overrides after an edit: new entries set, dropped preferences cleared. */
  function EditTable(table: map<string, string>, recorded: map<string, string>, wanted: map<string, string>)
      : map<string, string>
  {
    (table + wanted) - (recorded.Keys - wanted.Keys)
  }

  predicate PrefsRefused(w: World, id: NodeId, transport: Option<Transport>, quicAddr: Option<string>)
    requires id in w.nodes
  {
    SlotAlive(w, id) && (w.nodes[id].spec.transport != transport || w.nodes[id].spec.quicAddr != quicAddr)
  }

  function DoSetPrefs(w: World, id: NodeId, transport: Option<Transport>, quicAddr: Option<string>,
                      wanted: map<string, string>): World
  {
    if id !in w.nodes || PrefsRefused(w, id, transport, quicAddr) then w
    else
      var e := w.nodes[id];
      var table := if e.table.Some? then Some(EditTable(e.table.value, e.spec.addresses, wanted)) else None;
      var spec := e.spec.(transport := transport, quicAddr := quicAddr, addresses := wanted);
      Persist(SetEntry(w, id, e.(table := table, spec := spec)))
  }

  /** Everything but the directory and the preferences is taken from the new pack. */
  function RefreshedSpec(spec: Spec, pack: Pack): Spec {
    spec.(kind := pack.kind, name := pack.node, principal := Some(pack.principal),
          packGeneration := pack.generation, digest := pack.digest)
  }

  /** The cache refresh near the end of a pack update. */
  function DoRefresh(w: World, id: NodeId, pack: Pack): World {
    if id !in w.nodes then w
    else SetEntry(w, id, w.nodes[id].(spec := RefreshedSpec(w.nodes[id].spec, pack)))
  }

  /** A start reads the spec, then prepares outside the lock; `launch` marks the start of a node
      found wanted at launch, which records a failure as the node's state. */
  function DoStartBegin(w: World, id: NodeId, launch: bool): World {
    if id !in w.nodes then w
    else w.(tasks := w.tasks + [Starter(id, w.nodes[id].spec, None, launch)])
  }

  predicate IsStarter(w: World, t: TaskId) {
    t < |w.tasks| && w.tasks[t].Starter?
  }

  predicate IsLoaded(w: World, t: TaskId) {
    IsStarter(w, t) && w.tasks[t].pack.Some?
  }

  function StartRefused(k: Task, error: string): Task
    requires k.Starter?
  {
    if k.launch then StartFailed(k.id, error) else Done
  }

  function DoStartPrepareFails(w: World, t: TaskId, error: string): World {
    if !IsStarter(w, t) then w else SetTask(w, t, StartRefused(w.tasks[t], error))
  }

  function DoStartLoad(w: World, t: TaskId, pack: Pack): World {
    if !IsStarter(w, t) || !Loads(w.tasks[t].prepared, w.tasks[t].pack, pack) then w
    else SetTask(w, t, w.tasks[t].(pack := Some(pack)))
  }

  function Started(e: Entry): Entry {
    e.(engine := None, expectedStop := false, desired := true, attempts := 0, generation := e.generation + 1)
  }

  /** Does this start reach the engine build? */
  predicate StartGoes(w: World, t: TaskId) {
    IsLoaded(w, t) && w.tasks[t].id in w.nodes && !SlotAlive(w, w.tasks[t].id)
  }

  function BuildStart(w: World, t: TaskId, built: Option<NodeState>, error: string): World
    requires StartGoes(w, t)
  {
    var k := w.tasks[t];
    var w1 := SetEntry(w, k.id, Started(w.nodes[k.id]));
    if built.Some? then Persist(StartLocked(SetTask(w1, t, Done), k.id, k.prepared, k.pack.value, built))
    else StartLocked(SetTask(w1, t, StartRefused(k, error)), k.id, k.prepared, k.pack.value, None)
  }

  function DoStartCommit(w: World, t: TaskId, built: Option<NodeState>, error: string): World {
    if StartGoes(w, t) then BuildStart(w, t, built, error)
    else if !IsLoaded(w, t) then w
    else
      var k := w.tasks[t];
      SetTask(w, t, StartRefused(k, if k.id !in w.nodes then "unknown node" else "node is already running"))
  }

  function DoStartFailNote(w: World, t: TaskId): World {
    if t >= |w.tasks| || !w.tasks[t].StartFailed? then w
    else
      var k := w.tasks[t];
      var w1 := SetTask(w, t, Done);
      if k.id in w.nodes then SetState(w1, k.id, w.nodes[k.id], Failed(k.error)) else w1
  }

  function StoppedEntry(e: Entry): Entry {
    e.(expectedStop := true, desired := false, renewal := None, engine := None, table := None,
        generation := e.generation + 1)
  }

  function DoStopBegin(w: World, id: NodeId): World {
    if id !in w.nodes then w
    else
      var e := w.nodes[id];
      Persist(w.(nodes := w.nodes[id := StoppedEntry(e)],
                 tasks := Abort(w.tasks, Handle(e)) + [Stopper(id, e.engine)]))
  }

  /** A graceful shutdown that errors ends the call before the state is written. */
  function DoStopEnd(w: World, t: TaskId, ok: bool): World {
    if t >= |w.tasks| || !w.tasks[t].Stopper? then w
    else
      var k := w.tasks[t];
      var w1 := SetTask(w, t, Done);
      if (k.hand.Some? && !ok) || k.id !in w.nodes then w1 else SetState(w1, k.id, w.nodes[k.id], Stopped)
  }

  // ----- stop_all and shutdown_all ----------------------------------------------------------

  function SweptEntry(e: Entry, clear: bool): Entry {
    e.(expectedStop := true, desired := e.desired && !clear, renewal := None, engine := None)
  }

  function SweptNodes(nodes: map<NodeId, Entry>, clear: bool): map<NodeId, Entry> {
    map id | id in nodes :: SweptEntry(nodes[id], clear)
  }

  function LiveEngines(w: World): map<NodeId, EngineId> {
    map id | id in w.nodes && SlotAlive(w, id) :: w.nodes[id].engine.value
  }

  function Handles(nodes: map<NodeId, Entry>): set<TaskId> {
    set id | id in nodes && nodes[id].renewal.Some? :: nodes[id].renewal.value
  }

  /** `clear` is stop_all, which turns the intent off and persists it; shutdown_all keeps it. */
  function DoSweepBegin(w: World, clear: bool): World {
    var w1 := w.(nodes := SweptNodes(w.nodes, clear),
                 tasks := Abort(w.tasks, Handles(w.nodes)) + [Sweep(LiveEngines(w))]);
    if clear then Persist(w1) else w1
  }

  /** One drained engine: the state is written without an event. */
  function DoSweepDrain(w: World, t: TaskId, id: NodeId): World {
    if t >= |w.tasks| || !w.tasks[t].Sweep? || id !in w.tasks[t].pending then w
    else
      var w1 := SetTask(w, t, Sweep(w.tasks[t].pending - {id}));
      if id in w.nodes then SetEntry(w1, id, w.nodes[id].(state := Stopped)) else w1
  }

  function StoppedEvents(order: seq<NodeId>): (r: seq<Event>)
    ensures |r| == |order|
    ensures forall i | 0 <= i < |order| :: r[i] == StateEvent(order[i], Stopped)
  {
    seq(|order|, i requires 0 <= i < |order| => StateEvent(order[i], Stopped))
  }

  /** `order` is the order the node table happens to be walked in. */
  predicate StoppedOrder(w: World, order: seq<NodeId>) {
    && (forall id | id in order :: id in w.nodes && w.nodes[id].state.Stopped?)
    && (forall id | id in w.nodes && w.nodes[id].state.Stopped? :: id in order)
  }

  function DoSweepEnd(w: World, t: TaskId, order: seq<NodeId>): World {
    if t < |w.tasks| && w.tasks[t].Sweep? && w.tasks[t].pending == map[] && StoppedOrder(w, order)
    then SetTask(w, t, Done).(log := w.log + StoppedEvents(order))
    else w
  }

  // ----- listeners --------------------------------------------------------------------------

  predicate ListenerAt(w: World, t: TaskId) {
    t < |w.tasks| && w.tasks[t].Listener? && w.tasks[t].watched < |w.engines|
  }

  predicate Ended(state: NodeState) {
    state.Stopped? || state.Failed?
  }

  /** Healthy-streak accounting of a connected agent; `healthy` when the streak is long enough. */
  function DoListenerNote(w: World, t: TaskId, healthy: bool): World {
    if !ListenerAt(w, t) || !w.tasks[t].agent || !w.tasks[t].lphase.Watching? then w
    else
      var k := w.tasks[t];
      var w1 := SetTask(w, t, k.(lphase := Noted));
      if healthy && Current(w, k.id, k.gen) then SetEntry(w1, k.id, w.nodes[k.id].(attempts := 0)) else w1
  }

  function AgentSees(w: World, t: TaskId, state: NodeState): World
    requires ListenerAt(w, t)
  {
    var k := w.tasks[t];
    if (if state.Connected? then k.lphase.Noted? else k.lphase.Watching?)
    then Observe(SetTask(w, t, k.(lphase := Watching)), k.id, k.gen, state)
    else w
  }

  /** A hub or ingress listener stops watching at a terminal state, which the engine shows only once
      it counts as dead. */
  function ServerSees(w: World, t: TaskId, state: NodeState): World
    requires ListenerAt(w, t)
  {
    var k := w.tasks[t];
    if !k.lphase.Watching? then w
    else if !Ended(state) then Observe(w, k.id, k.gen, state)
    else if w.engines[k.watched].alive then w
    else Observe(Report(SetTask(w, t, k.(lphase := Terminal(state.Failed?))), k.watched), k.id, k.gen, state)
  }

  /** One state read from the watch. */
  function DoListenerObserve(w: World, t: TaskId, state: NodeState): World {
    if !ListenerAt(w, t) then w
    else if w.tasks[t].agent then AgentSees(w, t, state)
    else ServerSees(w, t, state)
  }

  /** An agent's watch closes when its supervisor is gone. */
  function DoListenerClosed(w: World, t: TaskId, final: NodeState): World {
    if !ListenerAt(w, t) || !w.tasks[t].agent || !w.tasks[t].lphase.Watching? then w
    else if w.engines[w.tasks[t].watched].alive then w
    else
      var k := w.tasks[t];
      var proceed := Current(w, k.id, k.gen) && !w.nodes[k.id].expectedStop && !Ended(final);
      Report(SetTask(w, t, k.(lphase := Closing(final, proceed))), k.watched)
  }

  function DoListenerFinal(w: World, t: TaskId): World {
    if !ListenerAt(w, t) || !w.tasks[t].lphase.Closing? then w
    else
      var k := w.tasks[t];
      Observe(SetTask(w, t, if k.lphase.proceed then Restarter(k.id, k.gen, Deciding) else Done), k.id, k.gen,
          k.lphase.final)
  }

  function DoListenerDecide(w: World, t: TaskId): World {
    if !ListenerAt(w, t) || !w.tasks[t].lphase.Terminal? then w
    else
      var k := w.tasks[t];
      var proceed := Current(w, k.id, k.gen) && !w.nodes[k.id].expectedStop && k.lphase.failed;
      SetTask(w, t, if proceed then Restarter(k.id, k.gen, Deciding) else Done)
  }

  /** A hub or ingress watch that closes without a terminal state. */
  function DoListenerGone(w: World, t: TaskId): World {
    if !ListenerAt(w, t) || w.tasks[t].agent || !w.tasks[t].lphase.Watching? then w
    else SetTask(w, t, Done)
  }

  // ----- restart after death ----------------------------------------------------------------

  predicate RestarterAt(w: World, t: TaskId) {
    t < |w.tasks| && w.tasks[t].Restarter?
  }

  function DoRestartDecide(w: World, t: TaskId): World {
    if !RestarterAt(w, t) || !w.tasks[t].rphase.Deciding? then w
    else
      var k := w.tasks[t];
      if !Current(w, k.id, k.gen) then SetTask(w, t, Done)
      else
        var e := w.nodes[k.id];
        if e.attempts >= w.budget then SetTask(w, t, k.(rphase := GivingUp))
        else SetEntry(SetTask(w, t, k.(rphase := Announcing(Backoff(e.attempts + 1)))), k.id,
            e.(attempts := e.attempts + 1))
  }

  function DoRestartGiveUp(w: World, t: TaskId): World {
    if !RestarterAt(w, t) || !w.tasks[t].rphase.GivingUp? then w
    else
      var k := w.tasks[t];
      var w1 := SetTask(w, t, Done);
      if Current(w, k.id, k.gen) then SetState(w1, k.id, w.nodes[k.id].(engine := None), Failed(EXHAUSTED)) else w1
  }

  function DoRestartAnnounce(w: World, t: TaskId): World {
    if !RestarterAt(w, t) || !w.tasks[t].rphase.Announcing? then w
    else
      var k := w.tasks[t];
      Observe(SetTask(w, t, k.(rphase := Sleeping)), k.id, k.gen, Reconnecting(RESTARTING, k.rphase.backoff))
  }

  predicate MayRestart(w: World, k: Task)
    requires k.Restarter?
  {
    Current(w, k.id, k.gen) && !w.nodes[k.id].expectedStop
  }

  function DoRestartWake(w: World, t: TaskId): World {
    if !RestarterAt(w, t) || !w.tasks[t].rphase.Sleeping? then w
    else
      var k := w.tasks[t];
      SetTask(w, t, if MayRestart(w, k) then k.(rphase := Preparing(w.nodes[k.id].spec, None)) else Done)
  }

  function DoRestartLoad(w: World, t: TaskId, pack: Pack): World {
    if !RestarterAt(w, t) || !w.tasks[t].rphase.Preparing? then w
    else
      var k := w.tasks[t];
      if Loads(k.rphase.prepared, k.rphase.pack, pack)
      then SetTask(w, t, k.(rphase := k.rphase.(pack := Some(pack)))) else w
  }

  /** The engine input of a restart is at hand. */
  predicate RestartLoaded(w: World, t: TaskId) {
    RestarterAt(w, t) && w.tasks[t].rphase.Preparing? && w.tasks[t].rphase.pack.Some?
  }

  function DoRestartPrepareFails(w: World, t: TaskId): World {
    if !RestarterAt(w, t) || !w.tasks[t].rphase.Preparing? then w
    else SetTask(w, t, w.tasks[t].(rphase := Deciding))
  }

  function DoRestartInstall(w: World, t: TaskId, built: Option<NodeState>): World {
    if !RestartLoaded(w, t) then w
    else
      var k := w.tasks[t];
      if !MayRestart(w, k) then SetTask(w, t, Done)
      else
        var w1 := SetTask(w, t, if built.Some? then Done else k.(rphase := Deciding));
        StartLocked(SetEntry(w1, k.id, w.nodes[k.id].(engine := None)), k.id, k.rphase.prepared,
          k.rphase.pack.value, built)
  }

  // ----- credential renewal -----------------------------------------------------------------

  predicate RenewalAt(w: World, t: TaskId) {
    t < |w.tasks| && w.tasks[t].Renewal?
  }

  /** The renewal future finishes: None when the credentials were rotated, else the error. */
  function DoRenewalFinish(w: World, t: TaskId, outcome: Option<string>): World {
    if !RenewalAt(w, t) || !w.tasks[t].nphase.Waiting? then w
    else SetTask(w, t, w.tasks[t].(nphase := if outcome.Some? then Failing(outcome.value) else Ready))
  }

  function DoRenewalBegin(w: World, t: TaskId): World {
    if !RenewalAt(w, t) || !w.tasks[t].nphase.Ready? then w
    else
      var k := w.tasks[t];
      if !Current(w, k.id, k.gen) then SetTask(w, t, Done)
      else SetEntry(SetTask(w, t, k.(nphase := Begun)), k.id, w.nodes[k.id].(renewal := None, expectedStop := true))
  }

  function DoRenewalAnnounce(w: World, t: TaskId): World {
    if !RenewalAt(w, t) || !w.tasks[t].nphase.Begun? then w
    else
      var k := w.tasks[t];
      Observe(SetTask(w, t, k.(nphase := Taking)), k.id, k.gen, Reconnecting(RENEWED, 0))
  }

  /** The take has no generation check. */
  function DoRenewalTake(w: World, t: TaskId): World {
    if !RenewalAt(w, t) || !w.tasks[t].nphase.Taking? then w
    else
      var k := w.tasks[t];
      if k.id !in w.nodes then SetTask(w, t, k.(nphase := Draining(None)))
      else SetEntry(SetTask(w, t, k.(nphase := Draining(w.nodes[k.id].engine))), k.id, w.nodes[k.id].(engine := None))
  }

  /** The graceful shutdown is over; the spec is read again. */
  function DoRenewalRead(w: World, t: TaskId): World {
    if !RenewalAt(w, t) || !w.tasks[t].nphase.Draining? then w
    else
      var k := w.tasks[t];
      SetTask(w, t, if Current(w, k.id, k.gen) then k.(nphase := Rebuilding(w.nodes[k.id].spec, None)) else Done)
  }

  function DoRenewalLoad(w: World, t: TaskId, pack: Pack): World {
    if !RenewalAt(w, t) || !w.tasks[t].nphase.Rebuilding? then w
    else
      var k := w.tasks[t];
      if Loads(k.nphase.prepared, k.nphase.pack, pack)
      then SetTask(w, t, k.(nphase := k.nphase.(pack := Some(pack)))) else w
  }

  predicate RenewalLoaded(w: World, t: TaskId) {
    RenewalAt(w, t) && w.tasks[t].nphase.Rebuilding? && w.tasks[t].nphase.pack.Some?
  }

  function DoRenewalPrepareFails(w: World, t: TaskId, error: string): World {
    if !RenewalAt(w, t) || !w.tasks[t].nphase.Rebuilding? then w
    else
      var k := w.tasks[t];
      Observe(SetTask(w, t, Done), k.id, k.gen, Failed(error))
  }

  function Rearmed(e: Entry): Entry {
    e.(expectedStop := false, attempts := 0, generation := e.generation + 1, engine := None)
  }

  function DoRenewalInstall(w: World, t: TaskId, built: Option<NodeState>, error: string): World {
    if !RenewalLoaded(w, t) then w
    else
      var k := w.tasks[t];
      var w1 := SetTask(w, t, Done);
      if !Current(w, k.id, k.gen) then w1
      else
        var w2 := StartLocked(SetEntry(w1, k.id, Rearmed(w.nodes[k.id])), k.id, k.nphase.prepared,
          k.nphase.pack.value, built);
        if built.Some? then w2 else SetState(w2, k.id, w2.nodes[k.id], Failed(error))
  }

  function DoRenewalFail(w: World, t: TaskId): World {
    if !RenewalAt(w, t) || !w.tasks[t].nphase.Failing? then w
    else
      var k := w.tasks[t];
      if !Current(w, k.id, k.gen) then SetTask(w, t, Done)
      else
        var e := w.nodes[k.id];
        SetState(SetTask(w, t, RenewalTail(k.id, k.gen, e.engine, k.nphase.error)), k.id,
                 e.(renewal := None, expectedStop := true, engine := None), Failed(k.nphase.error))
  }

  function DoTailEnd(w: World, t: TaskId): World {
    if t >= |w.tasks| || !w.tasks[t].RenewalTail? then w
    else
      var k := w.tasks[t];
      Observe(SetTask(w, t, Done), k.id, k.gen, Failed(k.error))
  }

  // ----- event queue and environment --------------------------------------------------------

  function DoDeliver(w: World): World {
    if w.delivered < |w.log| then w.(delivered := w.delivered + 1) else w
  }

  function DoEngineFlip(w: World, x: EngineId, alive: bool): World {
    if x < |w.engines| then w.(engines := w.engines[x := w.engines[x].(alive := alive)]) else w
  }

  // ----- steps and runs ---------------------------------------------------------------------

  datatype UserMove =
    | Add(id: NodeId, spec: Spec)
    | Remove(id: NodeId)
    | SetPrefs(id: NodeId, transport: Option<Transport>, quicAddr: Option<string>, wanted: map<string, string>)
    | Refresh(id: NodeId, pack: Pack)
    | StartBegin(id: NodeId, launch: bool)
    | StopBegin(id: NodeId)
    | SweepBegin(clear: bool)
    | Settle

  /** The later sections of a call that released the lock. */
  datatype CallMove =
    | StartLoad(pack: Pack)
    | StartPrepareFails(error: string)
    | StartCommit(built: Option<NodeState>, error: string)
    | StartFailNote
    | StopEnd(ok: bool)
    | SweepDrain(id: NodeId)
    | SweepEnd(order: seq<NodeId>)

  datatype ListenerMove =
    | Note(healthy: bool)
    | See(state: NodeState)
    | Close(final: NodeState)
    | Finish
    | Decide
    | Leave

  datatype RestartMove =
    | DecideRestart
    | GiveUp
    | Announce
    | Wake
    | Load(pack: Pack)
    | PrepareFails
    | Install(built: Option<NodeState>)

  datatype RenewalMove =
    | FutureEnds(outcome: Option<string>)
    | Begin
    | AnnounceRenewal
    | Take
    | Read
    | Reload(pack: Pack)
    | RebuildFails(error: string)
    | Reinstall(built: Option<NodeState>, error: string)
    | Fail
    | EndTail

  datatype Step =
    | User(u: UserMove)
    | Call(t: TaskId, c: CallMove)
    | Listen(t: TaskId, l: ListenerMove)
    | Restart(t: TaskId, r: RestartMove)
    | Renew(t: TaskId, n: RenewalMove)
    | Deliver
    | EngineFlip(x: EngineId, alive: bool)

  function ApplyUser(w: World, u: UserMove): World {
    match u
    case Add(id, spec) => DoAdd(w, id, spec)
    case Remove(id) => DoRemove(w, id)
    case SetPrefs(id, transport, quicAddr, wanted) => DoSetPrefs(w, id, transport, quicAddr, wanted)
    case Refresh(id, pack) => DoRefresh(w, id, pack)
    case StartBegin(id, launch) => DoStartBegin(w, id, launch)
    case StopBegin(id) => DoStopBegin(w, id)
    case SweepBegin(clear) => DoSweepBegin(w, clear)
    case Settle => Emit(w, SettledEvent)
  }

  function ApplyCall(w: World, t: TaskId, c: CallMove): World {
    match c
    case StartLoad(pack) => DoStartLoad(w, t, pack)
    case StartPrepareFails(error) => DoStartPrepareFails(w, t, error)
    case StartCommit(built, error) => DoStartCommit(w, t, built, error)
    case StartFailNote => DoStartFailNote(w, t)
    case StopEnd(ok) => DoStopEnd(w, t, ok)
    case SweepDrain(id) => DoSweepDrain(w, t, id)
    case SweepEnd(order) => DoSweepEnd(w, t, order)
  }

  function ApplyListener(w: World, t: TaskId, l: ListenerMove): World {
    match l
    case Note(healthy) => DoListenerNote(w, t, healthy)
    case See(state) => DoListenerObserve(w, t, state)
    case Close(final) => DoListenerClosed(w, t, final)
    case Finish => DoListenerFinal(w, t)
    case Decide => DoListenerDecide(w, t)
    case Leave => DoListenerGone(w, t)
  }

  function ApplyRestart(w: World, t: TaskId, r: RestartMove): World {
    match r
    case DecideRestart => DoRestartDecide(w, t)
    case GiveUp => DoRestartGiveUp(w, t)
    case Announce => DoRestartAnnounce(w, t)
    case Wake => DoRestartWake(w, t)
    case Load(pack) => DoRestartLoad(w, t, pack)
    case PrepareFails => DoRestartPrepareFails(w, t)
    case Install(built) => DoRestartInstall(w, t, built)
  }

  function ApplyRenewal(w: World, t: TaskId, n: RenewalMove): World {
    match n
    case FutureEnds(outcome) => DoRenewalFinish(w, t, outcome)
    case Begin => DoRenewalBegin(w, t)
    case AnnounceRenewal => DoRenewalAnnounce(w, t)
    case Take => DoRenewalTake(w, t)
    case Read => DoRenewalRead(w, t)
    case Reload(pack) => DoRenewalLoad(w, t, pack)
    case RebuildFails(error) => DoRenewalPrepareFails(w, t, error)
    case Reinstall(built, error) => DoRenewalInstall(w, t, built, error)
    case Fail => DoRenewalFail(w, t)
    case EndTail => DoTailEnd(w, t)
  }

  function Apply(w: World, s: Step): World {
    match s
    case User(u) => ApplyUser(w, u)
    case Call(t, c) => ApplyCall(w, t, c)
    case Listen(t, l) => ApplyListener(w, t, l)
    case Restart(t, r) => ApplyRestart(w, t, r)
    case Renew(t, n) => ApplyRenewal(w, t, n)
    case Deliver => DoDeliver(w)
    case EngineFlip(x, alive) => DoEngineFlip(w, x, alive)
  }

  function Run(w: World, steps: seq<Step>): World
    decreases |steps|
  {
    if steps == [] then w else Run(Apply(w, steps[0]), steps[1..])
  }

  lemma RunOne(w: World, a: Step)
    ensures Run(w, [a]) == Apply(w, a)
  {
    assert [a][1..] == [];
  }

  lemma RunTwo(w: World, a: Step, b: Step)
    ensures Run(w, [a, b]) == Apply(Apply(w, a), b)
  {
    assert [a, b] == [a] + [b];
    RunOne(w, a);
    RunOne(Apply(w, a), b);
    RunAppend(w, [a], [b]);
  }

  lemma {:induction false} RunAppend(w: World, a: seq<Step>, b: seq<Step>)
    ensures Run(w, a + b) == Run(Run(w, a), b)
    decreases |a|
  {
    if a == [] {
      assert a + b == b;
    } else {
      assert (a + b)[1..] == a[1..] + b;
      RunAppend(Apply(w, a[0]), a[1..], b);
    }
  }

  lemma RunSnoc(w: World, steps: seq<Step>, s: Step)
    ensures Run(w, steps + [s]) == Apply(Run(w, steps), s)
  {
    RunAppend(w, steps, [s]);
    RunOne(Run(w, steps), s);
  }
}
