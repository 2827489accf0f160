/**
The manager object: one lock, one table of nodes, one event queue. Each method is what the code does
while it holds the lock, written as the field updates it makes, and proved to be the corresponding
step of the transition system.
*/
module Manager {
  import opened Types
  import opened Supervision
  import opened Invariants
  import opened Restarts
  import opened Sites
  import opened Identity
  import opened Updates
  import opened EventLog
  import opened States

  /** A dial address as the socket-address parser sees it. */
  datatype AddressText = Malformed(text: string) | Socket(canonical: string, loopback: bool)

  datatype Pref = Pref(id: string, address: AddressText)

  predicate Acceptable(address: AddressText) {
    address.Socket? && address.loopback
  }

  predicate AllAcceptable(prefs: seq<Pref>) {
    forall i | 0 <= i < |prefs| :: Acceptable(prefs[i].address)
  }

  /** The preferences a list asks for: the last entry of an id wins. */
  function Wanted(prefs: seq<Pref>): map<string, string>
    requires AllAcceptable(prefs)
  {
    if prefs == [] then map[]
    else Wanted(prefs[..|prefs| - 1])[prefs[|prefs| - 1].id := prefs[|prefs| - 1].address.canonical]
  }

  lemma SetOne(live: map<string, string>, wanted: map<string, string>, rest: set<string>, k: string)
    requires k in rest && k in wanted
    ensures (live + (wanted - rest))[k := wanted[k]] == live + (wanted - (rest - {k}))
  {
  }

  lemma ClearOne(table: map<string, string>, dropped: set<string>, rest: set<string>, k: string)
    requires k in rest && rest <= dropped
    ensures (table - (dropped - rest)) - {k} == table - (dropped - (rest - {k}))
  {
  }

  // ----- a sweep in progress ----------------------------------------------------------------

  ghost function SweptSome(nodes: map<NodeId, Entry>, ids: set<NodeId>, clear: bool): map<NodeId, Entry> {
    map id | id in nodes :: if id in ids then SweptEntry(nodes[id], clear) else nodes[id]
  }

  ghost function HandlesOf(nodes: map<NodeId, Entry>, ids: set<NodeId>): set<TaskId> {
    set id | id in ids && id in nodes && nodes[id].renewal.Some? :: nodes[id].renewal.value
  }

  ghost function LiveSome(w: World, ids: set<NodeId>): map<NodeId, EngineId> {
    map id | id in w.nodes && id in ids && SlotAlive(w, id) :: w.nodes[id].engine.value
  }

  lemma AbortTwice(tasks: seq<Task>, a: set<TaskId>, b: set<TaskId>)
    ensures Abort(Abort(tasks, a), b) == Abort(tasks, a + b)
  {
  }

  lemma SweepOne(w: World, ids: set<NodeId>, clear: bool, id: NodeId)
    requires id in w.nodes && id !in ids
    ensures SweptSome(w.nodes, ids, clear)[id := SweptEntry(w.nodes[id], clear)] == SweptSome(w.nodes, ids + {id},
        clear)
    ensures Abort(Abort(w.tasks, HandlesOf(w.nodes, ids)), Handle(w.nodes[id])) == Abort(w.tasks,
        HandlesOf(w.nodes, ids + {id}))
    ensures LiveSome(w, ids + {id}) == if SlotAlive(w, id) then LiveSome(w, ids)[id := w.nodes[id].engine.value]
        else LiveSome(w, ids)
  {
    AbortTwice(w.tasks, HandlesOf(w.nodes, ids), Handle(w.nodes[id]));
    assert HandlesOf(w.nodes, ids + {id}) == HandlesOf(w.nodes, ids) + Handle(w.nodes[id]);
  }

  lemma SweepAll(w: World, ids: set<NodeId>, clear: bool)
    requires ids == w.nodes.Keys
    ensures SweptSome(w.nodes, ids, clear) == SweptNodes(w.nodes, clear)
    ensures HandlesOf(w.nodes, ids) == Handles(w.nodes)
    ensures LiveSome(w, ids) == LiveEngines(w)
  {
  }

  /** None of what the others do is a step of `t`. */
  ghost predicate Apart(others: nat -> seq<Step>, t: TaskId) {
    forall n, i | 0 <= i < |others(n)| :: !Actor(others(n)[i], t)
  }

  /** An engine that ends in this world was not expected to: its generation is current and no stop
      is under way. */
  predicate Unexpected(w: World, k: Task)
    requires k.Listener?
  {
    k.id in w.nodes && w.nodes[k.id].generation == k.gen && !w.nodes[k.id].expectedStop
  }

  /** The sweep drained the node at some point, and the node is Stopped now exactly when no other state was
      written for it since. */
  ghost predicate DrainedIn(w: World, trace: seq<Step>, t: TaskId, id: NodeId, state: NodeState) {
    exists n | 0 <= n < |trace| :: DrainedAt(w, trace, t, id, n) && (state.Stopped? <==> QuietSince(w, trace, id, n))
  }

  /** A stop-all or quit collects exactly the engines that run. */
  lemma SweepCollects(w: World, clear: bool, id: NodeId)
    ensures var w1 := Apply(w, User(UserMove.SweepBegin(clear)));
            && |w1.tasks| == |w.tasks| + 1 && w1.tasks[|w.tasks|].Sweep?
            && var pending := w1.tasks[|w.tasks|].pending;
               (id in pending <==> InService(w, id)) && (id in pending ==> Some(pending[id]) == w.nodes[id].engine)
  {
  }

  /** A whole stop-all or quit: every node it found running was drained. */
  lemma AllDrained(w: World, trace: seq<Step>, clear: bool, t: TaskId)
    requires Inv(w) && t == |w.tasks| && trace != [] && trace[0] == User(UserMove.SweepBegin(clear))
    requires t < |Run(w, trace).tasks| && Run(w, trace).tasks[t].Done?
    ensures forall id | InService(w, id) && id in Run(w, trace).nodes ::
              DrainedIn(w, trace, t, id, Run(w, trace).nodes[id].state)
  {
    forall id | InService(w, id) && id in Run(w, trace).nodes
      ensures DrainedIn(w, trace, t, id, Run(w, trace).nodes[id].state)
    {
      SweepCollects(w, clear, id);
      var n := DrainHappens(Apply(w, trace[0]), trace[1..], t, id);
      DrainedLater(w, trace, t, id, n);
      DrainedState(w, trace, t, id, n + 1);
    }
  }

  lemma DrainedLater(w: World, trace: seq<Step>, t: TaskId, id: NodeId, n: nat)
    requires trace != [] && DrainedAt(Apply(w, trace[0]), trace[1..], t, id, n)
    ensures DrainedAt(w, trace, t, id, n + 1)
  {
    assert trace[..n + 1][1..] == trace[1..][..n] && trace[..n + 1][0] == trace[0];
  }

  /** A run of the protocol that keeps the invariant. */
  ghost predicate Ran(w: World, trace: seq<Step>, w': World) {
    w' == Run(w, trace) && Inv(w')
  }

  /** A task's own section, after a run. */
  lemma Performs(w: World, done: seq<Step>, s: Step, mid: World, w': World) returns (trace: seq<Step>)
    requires Inv(mid) && mid == Run(w, done) && w' == Apply(mid, s)
    ensures trace == done + [s] && Ran(w, trace, w')
  {
    trace := done + [s];
    RunSnoc(w, done, s);
    InvStep(mid, s);
  }

  /** A renewal that has its spec but not its pack. */
  predicate Reloads(k: Task) {
    k.Renewal? && k.nphase.Rebuilding? && k.nphase.pack.None?
  }

  /** A restart that has its spec but not its pack. */
  predicate Unloaded(phase: RestartPhase) {
    phase.Preparing? && phase.pack.None?
  }

  /** Steps of others: those that are not a move of update `u`. */
  function Spare(steps: seq<SiteStep>, u: nat): (r: seq<SiteStep>)
    ensures forall i | 0 <= i < |r| :: !(r[i].Move? && r[i].u == u)
  {
    if steps == [] then []
    else
      var last := steps[|steps| - 1];
      Spare(steps[..|steps| - 1], u) + if last.Move? && last.u == u then [] else [last]
  }

  lemma {:induction false} SparedUpdater(site: Site, steps: seq<SiteStep>, u: nat)
    requires u < |site.updaters| && forall i | 0 <= i < |steps| :: !(steps[i].Move? && steps[i].u == u)
    ensures u < |RunSites(site, steps).updaters| && RunSites(site, steps).updaters[u] == site.updaters[u]
  {
    if steps != [] {
      var n := |steps| - 1;
      SparedUpdater(site, steps[..n], u);
      PersistsStep(RunSites(site, steps[..n]), steps[n], u);
    }
  }

  /** Everything the environment decides during one update. */
  datatype Weather = Weather(stopOk: bool, swap: Swap, start: StartOutcome)

  /** A run that keeps the invariant. */
  ghost predicate Goes(site: Site, trace: seq<SiteStep>, site': Site) {
    site' == RunSites(site, trace) && SiteInv(site')
  }

  lemma GoesOn(site: Site, a: seq<SiteStep>, mid: Site, b: seq<SiteStep>, site': Site)
    requires Goes(site, a, mid) && Goes(mid, b, site')
    ensures Goes(site, a + b, site')
  {
    RunSitesAppend(site, a, b);
  }

  /** The steps of others, then the update's own section. */
  lemma Extend(site: Site, steps: seq<SiteStep>, s: SiteStep, mid: Site, site': Site) returns (trace: seq<SiteStep>)
    requires SiteInv(mid) && mid == RunSites(site, steps) && site' == ApplySite(mid, s)
    ensures trace == steps + [s] && Goes(site, trace, site')
  {
    trace := steps + [s];
    RunSitesSnoc(site, steps, s);
    SiteInvStep(mid, s);
  }

  /** An update's own sections, with what the environment decides in each. */
  function Moves(source: Option<Pack>, weather: Weather): set<UpdateMove> {
    {Approve(source), Halt, HaltEnds(weather.stopOk), Place(weather.swap), Record, Launch, LaunchLoads,
     LaunchEnds(weather.start)}
  }

  ghost predicate OwnMoves(trace: seq<SiteStep>, u: nat, moves: set<UpdateMove>) {
    forall i | 0 <= i < |trace| && trace[i].Move? && trace[i].u == u :: trace[i].m in moves
  }

  /** Is this the section the update has reached? */
  predicate Due(k: Updater, m: UpdateMove) {
    if m.Approve? then k.progress.Snapped?
    else
      && k.progress.Underway? && k.source.Some?
      && match m
         case Halt => k.progress.point.Approved?
         case HaltEnds(_) => k.progress.point.Halting?
         case Place(_) => k.progress.point.Halted?
         case Record => k.progress.point.Placed?
         case Launch => k.progress.point.Recorded?
         case LaunchLoads => k.progress.point.Launching?
         case _ => k.progress.point.Building?
  }

  predicate LeadsTo(m: UpdateMove, point: Point) {
    match m
    case Approve(_) => point.Approved?
    case Halt => point.Halting?
    case HaltEnds(_) => point.Halted?
    case Place(_) => point.Placed?
    case Record => point.Recorded?
    case Launch => point.Launching?
    case LaunchLoads => point.Building?
    case LaunchEnds(_) => false
  }

  /** A section leads to the next one, or ends the update. */
  predicate Advances(k: Updater, m: UpdateMove, k': Updater) {
    && k'.id == k.id
    && k'.source == (if m.Approve? then m.source else k.source)
    && (k'.progress.Finished? && k'.progress.result.Updated? ==> k'.source.Some?)
    && (k'.progress.Finished? || (k'.progress.Underway? && k'.source.Some? && LeadsTo(m, k'.progress.point)))
  }

  /** The stop or start an update waits for is still there for it to end. */
  lemma HoldsOwn(site: Site, u: nat)
    requires SiteInv(site) && u < |site.updaters|
    ensures IsUnderway(site, u) && site.updaters[u].progress.point.Halting? ==> IsHalting(site, u)
    ensures IsUnderway(site, u) && site.updaters[u].progress.point.Launching? ==> IsLaunching(site, u)
    ensures IsUnderway(site, u) && site.updaters[u].progress.point.Building? ==> IsBuilding(site, u)
  {
    assert Identity.Fits(site, site.updaters[u]);
  }

  class NodeManager {
    var nodes: map<NodeId, Entry>
    var used: set<NodeId>
    var tasks: seq<Task>
    var engines: seq<Engine>
    var log: seq<Event>
    var delivered: nat
    var base: Profile
    var budget: nat
    var disk: map<string, Pack>
    var updaters: seq<Updater>

    function View(): World
      reads this
    {
      World(nodes, used, tasks, engines, log, delivered, base, budget)
    }

    function Here(): Site
      reads this
    {
      Site(View(), disk, updaters)
    }

    /** The entries of a persisted node list: every node idle, its spec read from its pack. */
    static method RestoreNodes(profile: Profile, load: PackDir -> Option<Pack>) returns (nodes: map<NodeId, Entry>)
      ensures nodes == Restore(profile, load).nodes
    {
      nodes := map[];
      var rest := profile.Keys;
      while rest != {}
        invariant rest <= profile.Keys
        invariant nodes == map id | id in profile && id !in rest ::
                             FreshEntry(SpecFromProfile(profile[id], load(profile[id].dir)), profile[id].desiredRunning)
        decreases rest
      {
        var id :| id in rest;
        nodes := nodes[id := FreshEntry(SpecFromProfile(profile[id], load(profile[id].dir)),
            profile[id].desiredRunning)];
        rest := rest - {id};
      }
    }

    constructor (profile: Profile, load: PackDir -> Option<Pack>, packs: map<string, Pack>)
      ensures View() == Restore(profile, load) && disk == packs && updaters == []
    {
      var restored := RestoreNodes(profile, load);
      nodes, used, tasks, engines, log, delivered := restored, profile.Keys, [], [], [], 0;
      base, budget, disk, updaters := profile, MAX_ATTEMPTS, packs, [];
    }

    method RecordState(id: NodeId, state: NodeState)
      modifies this`log
      ensures View() == Emit(old(View()), StateEvent(id, state))
    {
      log := log + [StateEvent(id, state)];
    }

    method RecordPersist()
      modifies this`log
      ensures View() == Persist(old(View()))
    {
      log := log + [PersistEvent(ProfileOf(nodes))];
    }

    method Observe(id: NodeId, gen: nat, state: NodeState)
      modifies this`nodes, this`log
      ensures View() == Supervision.Observe(old(View()), id, gen, state)
    {
      if id !in nodes || nodes[id].generation != gen { return; }
      nodes := nodes[id := nodes[id].(state := state)];
      RecordState(id, state);
    }

    /** Adds a node unless its identity or its directory is already managed. */
    method Add(id: NodeId, spec: Spec) returns (ok: bool)
      requires id !in used
      modifies this`nodes, this`used, this`log
      ensures View() == DoAdd(old(View()), id, spec)
      ensures ok <==> forall o | o in old(nodes) ::
                        && (spec.principal.Some? ==> spec.principal != old(nodes)[o].spec.principal)
                        && spec.dir.canonical != old(nodes)[o].spec.dir.canonical
      ensures ok ==> nodes == old(nodes)[id := Entry(spec, None, false, false, Stopped, None, None, 0, 0)]
      ensures ok ==> log == old(log) + [PersistEvent(ProfileOf(nodes))] && id in used
      ensures !ok ==> View() == old(View())
    {
      var rest := nodes.Keys;
      while rest != {}
        invariant rest <= nodes.Keys
        invariant forall o | o in nodes && o !in rest :: !Conflict(spec, nodes[o].spec)
        decreases rest
      {
        var o :| o in rest;
        if Conflict(spec, nodes[o].spec) { return false; }
        rest := rest - {o};
      }
      nodes := nodes[id := FreshEntry(spec, false)];
      used := used + {id};
      RecordPersist();
      ok := true;
    }

    /** Forgets a node that is not running; its engine, if any, is dead. */
    method Remove(id: NodeId) returns (ok: bool)
      modifies this`nodes, this`log
      ensures View() == DoRemove(old(View()), id)
      ensures ok <==> id in old(nodes) && !InService(old(View()), id)
      ensures ok ==> nodes == old(nodes) - {id} && log == old(log) + [PersistEvent(ProfileOf(nodes))]
      ensures !ok ==> View() == old(View())
    {
      if id !in nodes || SlotAlive(View(), id) { return false; }
      nodes := nodes - {id};
      RecordPersist();
      ok := true;
    }

    /** Parses the list; any bad entry fails the whole of it. */
    static method ParsePrefs(prefs: seq<Pref>) returns (overrides: Option<map<string, string>>)
      ensures overrides.Some? <==>
                forall i | 0 <= i < |prefs| :: prefs[i].address.Socket? && prefs[i].address.loopback
      ensures overrides.Some? ==> overrides.value == Wanted(prefs)
    {
      var parsed: map<string, string> := map[];
      var i := 0;
      while i < |prefs|
        invariant 0 <= i <= |prefs|
        invariant AllAcceptable(prefs[..i]) && parsed == Wanted(prefs[..i])
      {
        if !Acceptable(prefs[i].address) { return None; }
        assert prefs[..i + 1][..i] == prefs[..i];
        parsed := parsed[prefs[i].id := prefs[i].address.canonical];
        i := i + 1;
      }
      assert prefs[..i] == prefs;
      overrides := Some(parsed);
    }

    /** Edits the live table entry by entry: every wanted address is set, every dropped one cleared. */
    static method EditLive(live: map<string, string>, recorded: map<string, string>, wanted: map<string, string>)
        returns (table: map<string, string>)
      ensures table == EditTable(live, recorded, wanted)
    {
      table := live;
      var rest := wanted.Keys;
      assert live + (wanted - rest) == live;
      while rest != {}
        invariant rest <= wanted.Keys
        invariant table == live + (wanted - rest)
        decreases rest
      {
        var k :| k in rest;
        SetOne(live, wanted, rest, k);
        table := table[k := wanted[k]];
        rest := rest - {k};
      }
      assert wanted - rest == wanted;
      var dropped := recorded.Keys - wanted.Keys;
      rest := dropped;
      assert (live + wanted) - (dropped - rest) == live + wanted;
      while rest != {}
        invariant rest <= dropped
        invariant table == (live + wanted) - (dropped - rest)
        decreases rest
      {
        var k :| k in rest;
        ClearOne(live + wanted, dropped, rest, k);
        table := table - {k};
        rest := rest - {k};
      }
      assert dropped - rest == dropped;
    }

    /** Nothing is touched before the whole list has parsed. */
    method SetPrefs(id: NodeId, transport: Option<Transport>, quicAddr: Option<string>, prefs: seq<Pref>)
        returns (ok: bool)
      modifies this`nodes, this`log
      ensures ok <==>
                && id in old(nodes)
                && (forall i | 0 <= i < |prefs| :: prefs[i].address.Socket? && prefs[i].address.loopback)
                && (InService(old(View()), id) ==>
                      old(nodes)[id].spec.transport == transport && old(nodes)[id].spec.quicAddr == quicAddr)
      ensures ok ==> id in nodes && nodes[id].spec == old(nodes)[id].spec.(transport := transport,
          quicAddr := quicAddr, addresses := Wanted(prefs))
      ensures View() == if ok then DoSetPrefs(old(View()), id, transport, quicAddr, Wanted(prefs)) else old(View())
    {
      if id !in nodes { return false; }
      if PrefsRefused(View(), id, transport, quicAddr) { return false; }
      var overrides := ParsePrefs(prefs);
      if overrides.None? { return false; }
      var e := nodes[id];
      if e.table.Some? {
        var table := EditLive(e.table.value, e.spec.addresses, overrides.value);
        e := e.(table := Some(table));
      }
      e := e.(spec := e.spec.(transport := transport, quicAddr := quicAddr, addresses := overrides.value));
      nodes := nodes[id := e];
      RecordPersist();
      ok := true;
    }

    method StartLocked(id: NodeId, prepared: Spec, pack: Pack, built: Option<NodeState>) returns (ok: bool)
      requires id in nodes
      modifies this`nodes, this`tasks, this`engines, this`log
      ensures View() == Supervision.StartLocked(old(View()), id, prepared, pack, built)
      ensures ok == built.Some?
    {
      var e := nodes[id];
      if prepared.kind.ExposeAgent? {
        e := e.(table := Some(prepared.addresses));
      }
      if built.None? {
        nodes := nodes[id := e];
        return false;
      }
      var agent := prepared.kind.ExposeAgent? || prepared.kind.MeshAgent?;
      tasks := tasks + [Listener(id, e.generation, |engines|, agent, Watching)];
      e := e.(state := built.value, engine := Some(|engines|));
      engines := engines + [Engine(true, false, pack)];
      tasks := tasks + [Renewal(id, e.generation, Waiting)];
      e := e.(renewal := Some(|tasks| - 1));
      nodes := nodes[id := e];
      RecordState(id, e.state);
      ok := true;
    }

    /** The critical section of a user start: the aliveness check and the engine store are one. */
    method StartCommit(t: TaskId, built: Option<NodeState>, error: string) returns (ok: bool)
      requires IsLoaded(View(), t)
      modifies this`nodes, this`tasks, this`engines, this`log
      ensures View() == DoStartCommit(old(View()), t, built, error)
      ensures ok <==> old(tasks)[t].id in old(nodes) && !InService(old(View()), old(tasks)[t].id) && built.Some?
      ensures ok ==> RunsOn(View(), old(tasks)[t].id, old(tasks)[t].pack)
      ensures ok ==> nodes[old(tasks)[t].id].state == built.value
      ensures ok ==> nodes[old(tasks)[t].id].generation == old(nodes)[old(tasks)[t].id].generation + 1
    {
      var k := tasks[t];
      if k.id !in nodes {
        tasks := tasks[t := StartRefused(k, "unknown node")];
        return false;
      }
      if SlotAlive(View(), k.id) {
        tasks := tasks[t := StartRefused(k, "node is already running")];
        return false;
      }
      var e := nodes[k.id];
      e := e.(engine := None);
      e := e.(expectedStop := false);
      e := e.(desired := true);
      e := e.(attempts := 0);
      e := e.(generation := e.generation + 1);
      nodes := nodes[k.id := e];
      tasks := tasks[t := if built.Some? then Done else StartRefused(k, error)];
      ok := StartLocked(k.id, k.prepared, k.pack.value, built);
      if ok {
        RecordPersist();
        ComesUp(old(View()), t, built, error);
      }
    }

    method StopBegin(id: NodeId) returns (found: bool)
      modifies this`nodes, this`tasks, this`log
      ensures View() == DoStopBegin(old(View()), id)
      ensures found <==> id in old(nodes)
      ensures found ==> |tasks| == |old(tasks)| + 1 && tasks[|old(tasks)|] == Stopper(id, old(nodes)[id].engine)
    {
      if id !in nodes { return false; }
      var e := nodes[id];
      var engine := e.engine;
      tasks := Abort(tasks, Handle(e)) + [Stopper(id, engine)];
      e := e.(expectedStop := true, desired := false, renewal := None);
      e := e.(engine := None, table := None);
      e := e.(generation := e.generation + 1);
      assert e == StoppedEntry(old(nodes)[id]);
      nodes := nodes[id := e];
      RecordPersist();
      found := true;
    }

    method StopEnd(t: TaskId, ok: bool) returns (done: bool)
      requires t < |tasks| && tasks[t].Stopper?
      modifies this`nodes, this`tasks, this`log
      ensures View() == DoStopEnd(old(View()), t, ok)
      ensures done <==> (old(tasks)[t].hand.Some? ==> ok)
    {
      var k := tasks[t];
      tasks := tasks[t := Done];
      if k.hand.Some? && !ok { return false; }
      if k.id in nodes {
        nodes := nodes[k.id := nodes[k.id].(state := Stopped)];
        RecordState(k.id, Stopped);
      }
      done := true;
    }

    /** A whole user start: read the spec, load the node's pack, build, with arbitrary steps of others in
        between. It succeeds with the node wanted and up on what was loaded, or nothing was built. */
    method Start(id: NodeId, others: nat -> seq<Step>, pack: Option<Pack>, built: Option<NodeState>, error: string)
        returns (ok: bool, ghost trace: seq<Step>)
      requires Inv(View()) && Apart(others, |tasks|)
      modifies this
      ensures Ran(old(View()), trace, View())
      ensures ok ==> RunsOn(View(), id, pack) && built == Some(nodes[id].state) && Shown(log, id) == nodes[id].state
      ensures ok ==> log != [] && log[|log| - 1] == PersistEvent(ProfileOf(nodes))
      ensures id !in old(nodes) || pack.None? || built.None? ==> !ok
    {
      ghost var w := View();
      trace := [];
      if id !in nodes { return false, trace; }
      var t := |tasks|;
      tasks := tasks + [Starter(id, nodes[id].spec, None, false)];
      trace := Performs(w, [], User(StartBegin(id, false)), w, View());
      trace := Pause(t, others, 0, w, trace);
      ok, trace := StartLoaded(t, pack, error, w, trace);
      if !ok { return; }
      trace := Pause(t, others, 1, w, trace);
      ok, trace := StartLast(t, built, error, w, trace);
    }

    method StartLoaded(t: TaskId, pack: Option<Pack>, error: string, ghost w: World, ghost done: seq<Step>)
        returns (ok: bool, ghost trace: seq<Step>)
      requires Ran(w, done, View()) && IsStarter(View(), t) && tasks[t].pack.None?
      modifies this
      ensures Ran(w, trace, View())
      ensures ok ==> pack.Some? && IsLoaded(View(), t) && tasks[t] == old(tasks)[t].(pack := pack)
    {
      ghost var mid := View();
      ok := pack.Some? && pack.value.kind == tasks[t].prepared.kind;
      ghost var c: CallMove;
      if ok {
        c := StartLoad(pack.value);
        tasks := tasks[t := tasks[t].(pack := pack)];
      } else {
        c := StartPrepareFails(error);
        tasks := tasks[t := StartRefused(tasks[t], error)];
      }
      trace := Performs(w, done, Call(t, c), mid, View());
    }

    method StartLast(t: TaskId, built: Option<NodeState>, error: string, ghost w: World, ghost done: seq<Step>)
        returns (ok: bool, ghost trace: seq<Step>)
      requires Ran(w, done, View()) && IsLoaded(View(), t)
      modifies this
      ensures Ran(w, trace, View())
      ensures ok ==> built.Some? && RunsOn(View(), old(tasks)[t].id, old(tasks)[t].pack)
      ensures ok ==> nodes[old(tasks)[t].id].state == built.value && Shown(log, old(tasks)[t].id) == built.value
      ensures ok ==> log != [] && log[|log| - 1] == PersistEvent(ProfileOf(nodes))
    {
      ghost var mid := View();
      ok := StartCommit(t, built, error);
      trace := Performs(w, done, Call(t, CallMove.StartCommit(built, error)), mid, View());
      if ok { StartShows(mid, t, built, error); }
    }

    /** A whole stop: take the engine, wait for its shutdown, show the node as Stopped. */
    method Stop(id: NodeId, others: nat -> seq<Step>, graceful: bool) returns (ok: bool, ghost trace: seq<Step>)
      requires Inv(View()) && Apart(others, |tasks|)
      modifies this
      ensures Ran(old(View()), trace, View())
      ensures ok <==> id in old(nodes) && (old(nodes)[id].engine.Some? ==> graceful)
      ensures ok && id in nodes ==> nodes[id].state.Stopped? && Shown(log, id).Stopped?
    {
      ghost var w := View();
      trace := [];
      var t := |tasks|;
      ok := StopBegin(id);
      if !ok { return; }
      trace := Performs(w, [], User(UserMove.StopBegin(id)), w, View());
      trace := Pause(t, others, 0, w, trace);
      ok, trace := StopLast(t, graceful, w, trace);
    }

    method StopLast(t: TaskId, graceful: bool, ghost w: World, ghost done: seq<Step>)
        returns (ok: bool, ghost trace: seq<Step>)
      requires Ran(w, done, View()) && t < |tasks| && tasks[t].Stopper?
      modifies this
      ensures Ran(w, trace, View())
      ensures ok <==> (old(tasks)[t].hand.Some? ==> graceful)
      ensures ok && old(tasks)[t].id in nodes ==>
                nodes[old(tasks)[t].id].state.Stopped? && Shown(log, old(tasks)[t].id).Stopped?
    {
      ghost var mid := View();
      ok := StopEnd(t, graceful);
      trace := Performs(w, done, Call(t, CallMove.StopEnd(graceful)), mid, View());
      if mid.tasks[t].id in mid.nodes { StopEndShows(mid, t, graceful); }
    }

    method SweepNode(id: NodeId, clear: bool) returns (live: Option<EngineId>)
      requires id in nodes
      modifies this`nodes, this`tasks
      ensures nodes == old(nodes)[id := SweptEntry(old(nodes)[id], clear)]
      ensures tasks == Abort(old(tasks), Handle(old(nodes)[id]))
      ensures live == if SlotAlive(old(View()), id) then old(nodes)[id].engine else None
    {
      var e := nodes[id];
      live := if SlotAlive(View(), id) then e.engine else None;
      tasks := Abort(tasks, Handle(e));
      e := e.(expectedStop := true, renewal := None, engine := None);
      if clear { e := e.(desired := false); }
      nodes := nodes[id := e];
    }

    /** The critical section of stop_all (`clear`) and shutdown_all: node after node, the renewal is
        aborted, the engine taken, and the live engines collected for the drain. */
    method SweepBegin(clear: bool)
      modifies this`nodes, this`tasks, this`log
      ensures View() == DoSweepBegin(old(View()), clear)
    {
      var pending: map<NodeId, EngineId> := map[];
      var rest := nodes.Keys;
      ghost var w := View();
      ghost var swept: set<NodeId> := {};
      assert SweptSome(w.nodes, {}, clear) == w.nodes;
      assert Abort(w.tasks, {}) == w.tasks;
      while rest != {}
        invariant swept == w.nodes.Keys - rest && rest <= w.nodes.Keys
        invariant nodes == SweptSome(w.nodes, swept, clear)
        invariant tasks == Abort(w.tasks, HandlesOf(w.nodes, swept))
        invariant pending == LiveSome(w, swept)
        invariant log == w.log
        decreases rest
      {
        var id :| id in rest;
        SweepOne(w, swept, clear, id);
        var live := SweepNode(id, clear);
        if live.Some? { pending := pending[id := live.value]; }
        rest := rest - {id};
        swept := swept + {id};
      }
      SweepAll(w, swept, clear);
      tasks := tasks + [Sweep(pending)];
      if clear { RecordPersist(); }
    }

    /** One collected engine has shut down; its state is written without an event. */
    method SweepDrain(t: TaskId, id: NodeId)
      requires t < |tasks| && tasks[t].Sweep? && id in tasks[t].pending
      modifies this`nodes, this`tasks
      ensures View() == DoSweepDrain(old(View()), t, id)
    {
      tasks := tasks[t := Sweep(tasks[t].pending - {id})];
      if id in nodes { nodes := nodes[id := nodes[id].(state := Stopped)]; }
    }

    /** One closing event for every node whose state is Stopped, in whatever order the table is walked. */
    method SweepEnd(t: TaskId) returns (ghost order: seq<NodeId>)
      requires t < |tasks| && tasks[t].Sweep? && tasks[t].pending == map[]
      modifies this`tasks, this`log
      ensures StoppedOrder(old(View()), order)
      ensures View() == DoSweepEnd(old(View()), t, order)
    {
      ghost var log0 := log;
      order := [];
      tasks := tasks[t := Done];
      var rest := nodes.Keys;
      while rest != {}
        invariant rest <= nodes.Keys
        invariant forall id | id in order :: id in nodes && nodes[id].state.Stopped?
        invariant forall id | id in nodes && id !in rest && nodes[id].state.Stopped? :: id in order
        invariant log == log0 + StoppedEvents(order)
        invariant tasks == old(tasks)[t := Done]
        decreases rest
      {
        var id :| id in rest;
        if nodes[id].state.Stopped? {
          assert StoppedEvents(order + [id]) == StoppedEvents(order) + [StateEvent(id, Stopped)];
          order := order + [id];
          RecordState(id, Stopped);
        }
        rest := rest - {id};
      }
    }

    /** The whole of stop_all (`clear`) or shutdown_all: sweep, drain engine after engine, close, with
        arbitrary steps of others wherever it holds no lock. It ends, and is a run of the protocol. */
    method StopAll(clear: bool, others: nat -> seq<Step>) returns (ghost trace: seq<Step>)
      requires Inv(View()) && Apart(others, |tasks|)
      modifies this
      ensures Ran(old(View()), trace, View())
      ensures |old(tasks)| < |tasks| && tasks[|old(tasks)|].Done?
      ensures trace != [] && trace[0] == User(UserMove.SweepBegin(clear))
      ensures forall id | InService(old(View()), id) && id in nodes ::
                DrainedIn(old(View()), trace, |old(tasks)|, id, nodes[id].state)
      ensures forall id | id in nodes && nodes[id].state.Stopped? :: Shown(log, id).Stopped?
    {
      ghost var w := View();
      var t := |tasks|;
      SweepBegin(clear);
      trace := Performs(w, [], User(UserMove.SweepBegin(clear)), w, View());
      trace := Drain(t, others, w, trace);
      trace := CloseSweep(t, w, trace);
      AllDrained(w, trace, clear, t);
    }

    method CloseSweep(t: TaskId, ghost w: World, ghost done: seq<Step>) returns (ghost trace: seq<Step>)
      requires Ran(w, done, View()) && t < |tasks| && tasks[t] == Sweep(map[])
      modifies this
      ensures Ran(w, trace, View()) && done <= trace && t < |tasks| && tasks[t].Done?
      ensures forall id | id in nodes && nodes[id].state.Stopped? :: Shown(log, id).Stopped?
    {
      ghost var mid := View();
      ghost var order := SweepEnd(t);
      trace := Performs(w, done, Call(t, CallMove.SweepEnd(order)), mid, View());
      forall id | id in nodes && nodes[id].state.Stopped?
        ensures Shown(log, id).Stopped?
      {
        SweepEndShows(mid, t, order, id);
      }
    }

    /** The collected engines shut down one by one. */
    method Drain(t: TaskId, others: nat -> seq<Step>, ghost w: World, ghost done: seq<Step>)
        returns (ghost trace: seq<Step>)
      requires Ran(w, done, View()) && Apart(others, t) && t < |tasks| && tasks[t].Sweep?
      modifies this
      ensures Ran(w, trace, View()) && done <= trace
      ensures t < |tasks| && tasks[t] == Sweep(map[])
    {
      trace := Pause(t, others, 0, w, done);
      var n: nat := 1;
      while tasks[t].pending != map[]
        invariant t < |tasks| && tasks[t].Sweep? && Ran(w, trace, View()) && done <= trace
        decreases tasks[t].pending.Keys
      {
        var id :| id in tasks[t].pending;
        trace := DrainOne(t, id, others, n, w, trace);
        n := n + 1;
      }
    }

    method DrainOne(t: TaskId, id: NodeId, others: nat -> seq<Step>, n: nat, ghost w: World, ghost done: seq<Step>)
        returns (ghost trace: seq<Step>)
      requires Ran(w, done, View()) && Apart(others, t)
      requires t < |tasks| && tasks[t].Sweep? && id in tasks[t].pending
      modifies this
      ensures Ran(w, trace, View()) && done <= trace
      ensures t < |tasks| && tasks[t] == Sweep(old(tasks)[t].pending - {id})
    {
      ghost var mid := View();
      SweepDrain(t, id);
      trace := Performs(w, done, Call(t, CallMove.SweepDrain(id)), mid, View());
      trace := Pause(t, others, n, w, trace);
    }

    // ----- listeners --------------------------------------------------------------------------

    /** An agent's watch has closed: restart only an unexpected end of the current generation. */
    method WatchClosed(t: TaskId, final: NodeState) returns (proceed: bool)
      requires ListenerAt(View(), t) && tasks[t].agent && tasks[t].lphase.Watching? && !engines[tasks[t].watched].alive
      modifies this`tasks, this`engines
      ensures View() == DoListenerClosed(old(View()), t, final)
      ensures tasks[t] == old(tasks)[t].(lphase := Closing(final, proceed)) && |engines| == |old(engines)|
      ensures proceed <==> Unexpected(old(View()), old(tasks)[t]) && !final.Stopped? && !final.Failed?
    {
      var k := tasks[t];
      proceed := k.id in nodes && nodes[k.id].generation == k.gen && !nodes[k.id].expectedStop && !Ended(final);
      engines := engines[k.watched := engines[k.watched].(reported := true)];
      tasks := tasks[t := k.(lphase := Closing(final, proceed))];
    }

    /** Shows the final state and turns into the restart loop, or ends. */
    method WatchFinal(t: TaskId)
      requires ListenerAt(View(), t) && tasks[t].lphase.Closing?
      modifies this`nodes, this`tasks, this`log
      ensures View() == DoListenerFinal(old(View()), t)
      ensures tasks[t] == if old(tasks)[t].lphase.proceed then Restarter(old(tasks)[t].id, old(tasks)[t].gen, Deciding)
          else Done
    {
      var k := tasks[t];
      tasks := tasks[t := if k.lphase.proceed then Restarter(k.id, k.gen, Deciding) else Done];
      Observe(k.id, k.gen, k.lphase.final);
    }

    /** After a hub's or ingress's terminal state: only an unexpected failure is restarted. */
    method LifecycleEnded(t: TaskId) returns (proceed: bool)
      requires ListenerAt(View(), t) && tasks[t].lphase.Terminal?
      modifies this`tasks
      ensures View() == DoListenerDecide(old(View()), t)
      ensures tasks[t] == if proceed then Restarter(old(tasks)[t].id, old(tasks)[t].gen, Deciding) else Done
      ensures proceed <==> old(tasks)[t].lphase.failed && Unexpected(old(View()), old(tasks)[t])
    {
      var k := tasks[t];
      proceed := k.id in nodes && nodes[k.id].generation == k.gen && !nodes[k.id].expectedStop && k.lphase.failed;
      tasks := tasks[t := if proceed then Restarter(k.id, k.gen, Deciding) else Done];
    }

    // ----- restart after death --------------------------------------------------------------

    /** Other calls and tasks run while this one does not hold the lock. */
    method Others(steps: seq<Step>)
      modifies this
      ensures View() == Run(old(View()), steps) && disk == old(disk) && updaters == old(updaters)
    {
      var w := View();
      var i := 0;
      while i < |steps|
        invariant 0 <= i <= |steps|
        invariant Run(w, steps[i..]) == Run(old(View()), steps)
      {
        assert steps[i..][1..] == steps[i + 1..];
        w := Apply(w, steps[i]);
        i := i + 1;
      }
      nodes, used, tasks, engines := w.nodes, w.used, w.tasks, w.engines;
      log, delivered, base, budget := w.log, w.delivered, w.base, w.budget;
    }

    /** Takes the restart decision: None when a newer start or stop owns the node. */
    method RestartDecide(t: TaskId) returns (go: Option<bool>)
      requires RestarterAt(View(), t) && tasks[t].rphase.Deciding?
      modifies this`nodes, this`tasks
      ensures View() == DoRestartDecide(old(View()), t)
      ensures go.None? <==> tasks[t].Done?
      ensures go.Some? ==> tasks[t] == old(tasks)[t].(rphase := tasks[t].rphase)
      ensures go.Some? ==> if go.value then tasks[t].rphase.Announcing? else tasks[t].rphase.GivingUp?
    {
      var k := tasks[t];
      if k.id !in nodes || nodes[k.id].generation != k.gen {
        tasks := tasks[t := Done];
        return None;
      }
      var e := nodes[k.id];
      if e.attempts >= budget {
        tasks := tasks[t := k.(rphase := GivingUp)];
        return Some(false);
      }
      nodes := nodes[k.id := e.(attempts := e.attempts + 1)];
      tasks := tasks[t := k.(rphase := Announcing(Backoff(e.attempts + 1)))];
      go := Some(true);
    }

    method RestartGiveUp(t: TaskId)
      requires RestarterAt(View(), t) && tasks[t].rphase.GivingUp?
      modifies this`nodes, this`tasks, this`log
      ensures View() == DoRestartGiveUp(old(View()), t)
    {
      var k := tasks[t];
      tasks := tasks[t := Done];
      if k.id in nodes && nodes[k.id].generation == k.gen {
        nodes := nodes[k.id := nodes[k.id].(engine := None, state := Failed(EXHAUSTED))];
        RecordState(k.id, Failed(EXHAUSTED));
      }
    }

    method RestartAnnounce(t: TaskId)
      requires RestarterAt(View(), t) && tasks[t].rphase.Announcing?
      modifies this`nodes, this`tasks, this`log
      ensures View() == DoRestartAnnounce(old(View()), t)
      ensures tasks[t] == old(tasks)[t].(rphase := Sleeping)
    {
      var k := tasks[t];
      tasks := tasks[t := k.(rphase := Sleeping)];
      Observe(k.id, k.gen, Reconnecting(RESTARTING, k.rphase.backoff));
    }

    /** Re-reads the spec under the lock a stop clears the intent with: a stop during the sleep wins. */
    method RestartWake(t: TaskId) returns (ok: bool)
      requires RestarterAt(View(), t) && tasks[t].rphase.Sleeping?
      modifies this`tasks
      ensures View() == DoRestartWake(old(View()), t)
      ensures if ok then RestarterAt(View(), t) && Unloaded(tasks[t].rphase) else tasks[t].Done?
    {
      var k := tasks[t];
      ok := k.id in nodes && nodes[k.id].generation == k.gen && !nodes[k.id].expectedStop;
      tasks := tasks[t := if ok then k.(rphase := Preparing(nodes[k.id].spec, None)) else Done];
    }

    /** Loads its pack again; one that does not read, or is of another kind, burns the attempt. */
    method RestartLoad(t: TaskId, pack: Option<Pack>) returns (ok: bool, ghost section: RestartMove)
      requires RestarterAt(View(), t) && Unloaded(tasks[t].rphase)
      modifies this`tasks
      ensures RunsSection(old(View()), Restart(t, section), t) && View() == Apply(old(View()), Restart(t, section))
      ensures if ok then pack.Some? && section == Load(pack.value) && RestartLoaded(View(), t)
          else RestarterAt(View(), t) && tasks[t].rphase.Deciding?
    {
      var k := tasks[t];
      ok := pack.Some? && pack.value.kind == k.rphase.prepared.kind;
      if ok {
        section := Load(pack.value);
        tasks := tasks[t := k.(rphase := Preparing(k.rphase.prepared, pack))];
      } else {
        section := PrepareFails;
        tasks := tasks[t := k.(rphase := Deciding)];
      }
    }

    /** Clears the dead engine and builds a new one; true when the loop goes round again. */
    method RestartInstall(t: TaskId, built: Option<NodeState>) returns (again: bool)
      requires RestartLoaded(View(), t)
      modifies this`nodes, this`tasks, this`engines, this`log
      ensures View() == DoRestartInstall(old(View()), t, built)
      ensures if again then tasks[t] == old(tasks)[t].(rphase := Deciding) else tasks[t].Done?
    {
      var k := tasks[t];
      if k.id !in nodes || nodes[k.id].generation != k.gen || nodes[k.id].expectedStop {
        tasks := tasks[t := Done];
        return false;
      }
      nodes := nodes[k.id := nodes[k.id].(engine := None)];
      tasks := tasks[t := if built.Some? then Done else k.(rphase := Deciding)];
      var ok := StartLocked(k.id, k.rphase.prepared, k.rphase.pack.value, built);
      again := !ok;
    }

    method Sleep(t: TaskId, others: nat -> seq<Step>, n: nat)
      requires Inv(View()) && RestarterAt(View(), t) && Apart(others, t)
      modifies this
      ensures Inv(View()) && RestarterAt(View(), t) && tasks[t] == old(tasks)[t]
      ensures View() == Run(old(View()), others(n))
    {
      OthersRun(View(), others(n), t);
      Others(others(n));
    }

    /** The first half of a pass: decide, then give up or announce the wait. */
    method RestartOpen(t: TaskId, others: nat -> seq<Step>, n: nat)
        returns (on: bool, ghost before: seq<Step>, ghost last: RestartMove)
      requires Inv(View()) && RestarterAt(View(), t) && tasks[t].rphase.Deciding? && Apart(others, t)
      modifies this
      ensures EndsWith(old(View()), before, t, last, View())
      ensures if on then RestarterAt(View(), t) && tasks[t].rphase.Sleeping? else t < |tasks| && tasks[t].Done?
    {
      before, last := [], DecideRestart;
      SectionRuns(View(), t, DecideRestart);
      var go := RestartDecide(t);
      if go.None? { return false, before, last; }
      RunOne(old(View()), Restart(t, DecideRestart));
      RunAppend(old(View()), [Restart(t, DecideRestart)], others(n));
      before := [Restart(t, DecideRestart)] + others(n);
      Sleep(t, others, n);
      on := go.value;
      last := RestartTell(t, on);
    }

    method RestartTell(t: TaskId, on: bool) returns (ghost last: RestartMove)
      requires RestarterAt(View(), t) && if on then tasks[t].rphase.Announcing? else tasks[t].rphase.GivingUp?
      modifies this`nodes, this`tasks, this`log
      ensures RunsSection(old(View()), Restart(t, last), t) && View() == Apply(old(View()), Restart(t, last))
      ensures t < |tasks| && if on then RestarterAt(View(), t) && tasks[t].rphase.Sleeping? else tasks[t].Done?
    {
      if on {
        last := Announce;
        RestartAnnounce(t);
      } else {
        last := GiveUp;
        RestartGiveUp(t);
      }
    }

    /** The second half of a pass: wake, load its pack, install. */
    method RestartTry(t: TaskId, others: nat -> seq<Step>, n: nat, pack: Option<Pack>, built: Option<NodeState>)
        returns (again: bool, ghost before: seq<Step>, ghost last: RestartMove)
      requires Inv(View()) && RestarterAt(View(), t) && tasks[t].rphase.Sleeping? && Apart(others, t)
      modifies this
      ensures EndsWith(old(View()), before, t, last, View())
      ensures if again then RestarterAt(View(), t) && tasks[t].rphase.Deciding? else t < |tasks| && tasks[t].Done?
    {
      before, last := [], Wake;
      SectionRuns(View(), t, Wake);
      var ok := RestartWake(t);
      if !ok { return false, before, last; }
      RunOne(old(View()), Restart(t, Wake));
      RunAppend(old(View()), [Restart(t, Wake)], others(n));
      before := [Restart(t, Wake)] + others(n);
      Sleep(t, others, n);
      ghost var more;
      again, more, last := RestartLast(t, others, n + 1, pack, built);
      EndsWithLater(old(View()), before, more, t, last, View());
      before := before + more;
    }

    /** A pack that loads is installed. */
    method RestartLast(t: TaskId, others: nat -> seq<Step>, n: nat, pack: Option<Pack>, built: Option<NodeState>)
        returns (again: bool, ghost before: seq<Step>, ghost last: RestartMove)
      requires Inv(View()) && RestarterAt(View(), t) && Unloaded(tasks[t].rphase) && Apart(others, t)
      modifies this
      ensures EndsWith(old(View()), before, t, last, View())
      ensures if again then RestarterAt(View(), t) && tasks[t].rphase.Deciding? else t < |tasks| && tasks[t].Done?
    {
      before := [];
      var ok;
      ok, last := RestartLoad(t, pack);
      if !ok { return true, before, last; }
      SectionRuns(old(View()), t, last);
      RunOne(old(View()), Restart(t, last));
      RunAppend(old(View()), [Restart(t, last)], others(n));
      before := [Restart(t, last)] + others(n);
      Sleep(t, others, n);
      last := Install(built);
      again := RestartBuild(t, built);
    }

    method RestartBuild(t: TaskId, built: Option<NodeState>) returns (again: bool)
      requires RestartLoaded(View(), t)
      modifies this`nodes, this`tasks, this`engines, this`log
      ensures var s := Restart(t, Install(built)); RunsSection(old(View()), s, t) && View() == Apply(old(View()), s)
      ensures t < |tasks| && if again then RestarterAt(View(), t) && tasks[t].rphase.Deciding? else tasks[t].Done?
    {
      again := RestartInstall(t, built);
    }

    /** One pass of the loop. */
    method RestartPass(t: TaskId, others: nat -> seq<Step>, n: nat, pack: Option<Pack>, built: Option<NodeState>)
        returns (again: bool, ghost before: seq<Step>, ghost last: RestartMove)
      requires Inv(View()) && RestarterAt(View(), t) && tasks[t].rphase.Deciding? && Apart(others, t)
      modifies this
      ensures EndsWith(old(View()), before, t, last, View())
      ensures if again then RestarterAt(View(), t) && tasks[t].rphase.Deciding? else t < |tasks| && tasks[t].Done?
    {
      ghost var w := View();
      again, before, last := RestartOpen(t, others, n);
      if !again { return; }
      EndsWithBurns(w, before, t, last, View());
      EndsWithRun(w, before, t, last, View());
      before := before + [Restart(t, last)];
      RunAppend(w, before, others(n + 1));
      before := before + others(n + 1);
      Sleep(t, others, n + 1);
      ghost var more;
      again, more, last := RestartTry(t, others, n + 2, pack, built);
      EndsWithLater(w, before, more, t, last, View());
      before := before + more;
    }

    /** The restart loop, with arbitrary steps of other calls and tasks each time the lock is free.
        `others(n)` is what happens at the n-th such point, `packs(n)` what its directory loads as
        there, `built(n)` what the engine build gives. It always ends, it is a run of the protocol,
        and its last section installs a fresh engine, gives up with the budget spent, or finds that a
        newer start or stop owns the node. */
    method RestartAfterDeath(t: TaskId, others: nat -> seq<Step>, packs: nat -> Option<Pack>,
                             built: nat -> Option<NodeState>)
        returns (ghost before: seq<Step>, ghost last: RestartMove)
      requires Inv(View()) && RestarterAt(View(), t) && tasks[t].rphase.Deciding? && Apart(others, t)
      modifies this
      ensures Inv(View()) && t < |tasks| && tasks[t].Done?
      ensures EndsWith(old(View()), before, t, last, View())
      ensures Outcome(Run(old(View()), before), View(), Run(old(View()), before).tasks[t])
    {
      ghost var w, done := View(), [];
      var n: nat := 0;
      var again := true;
      before, last := [], DecideRestart;
      while again
        invariant Inv(View())
        invariant if again then RestarterAt(View(), t) && tasks[t].rphase.Deciding? && View() == Run(w, done)
                  else t < |tasks| && tasks[t].Done? && EndsWith(w, before, t, last, View())
        decreases Fuel(View(), t)
      {
        ghost var w1 := View();
        again, before, last := RestartPass(t, others, n, packs(n), built(n));
        EndsWithBurns(w1, before, t, last, View());
        EndsWithLater(w, done, before, t, last, View());
        before := done + before;
        if again {
          EndsWithRun(w, before, t, last, View());
          done := before + [Restart(t, last)];
          RunAppend(w, done, others(n + 4));
          done := done + others(n + 4);
          FuelRun(View(), others(n + 4), t);
          Sleep(t, others, n + 4);
        }
        n := n + 5;
      }
      SpentRun(w, before, t);
      RestartOutcomeFrom(Run(w, before), t, last);
    }

    /** The end of an agent's engine, from its watch closing to the end of the restart loop: a run of the
        protocol, which goes on to the loop exactly when an engine of the current generation ended
        unexpectedly. */
    method AgentEnded(t: TaskId, final: NodeState, others: nat -> seq<Step>, packs: nat -> Option<Pack>,
                      built: nat -> Option<NodeState>)
        returns (proceed: bool, ghost trace: seq<Step>)
      requires Inv(View()) && ListenerAt(View(), t) && tasks[t].agent && tasks[t].lphase.Watching?
      requires !engines[tasks[t].watched].alive && Apart(others, t)
      modifies this
      ensures Ran(old(View()), trace, View()) && t < |tasks| && tasks[t].Done?
      ensures proceed <==> Unexpected(old(View()), old(tasks)[t]) && !final.Stopped? && !final.Failed?
    {
      ghost var w := View();
      proceed, trace := WatchEnds(t, final, others);
      if !proceed { return; }
      trace := RestartsThen(t, others, packs, built, w, trace);
    }

    /** The same of a hub or an ingress, from the terminal state its dead engine shows: others run between
        that and the decision, and only a failure that is still unexpected then is restarted. */
    method ServerEnded(t: TaskId, final: NodeState, others: nat -> seq<Step>, packs: nat -> Option<Pack>,
                       built: nat -> Option<NodeState>)
        returns (proceed: bool, ghost trace: seq<Step>)
      requires Inv(View()) && ListenerAt(View(), t) && !tasks[t].agent && tasks[t].lphase.Watching?
      requires (final.Stopped? || final.Failed?) && !engines[tasks[t].watched].alive && Apart(others, t)
      modifies this
      ensures Ran(old(View()), trace, View()) && t < |tasks| && tasks[t].Done?
      ensures proceed <==>
                && final.Failed?
                && Unexpected(Run(Apply(old(View()), Listen(t, See(final))), others(0)), old(tasks)[t])
    {
      ghost var w := View();
      LifecycleShown(t, final);
      trace := Performs(w, [], Listen(t, See(final)), w, View());
      ghost var seen := View();
      trace := Pause(t, others, 0, w, trace);
      RunAppend(w, [Listen(t, See(final))], others(0));
      RunOne(w, Listen(t, See(final)));
      proceed, trace := ServerDecides(t, others, packs, built, w, trace);
    }

    method ServerDecides(t: TaskId, others: nat -> seq<Step>, packs: nat -> Option<Pack>,
                         built: nat -> Option<NodeState>, ghost w: World, ghost done: seq<Step>)
        returns (proceed: bool, ghost trace: seq<Step>)
      requires Ran(w, done, View()) && ListenerAt(View(), t) && tasks[t].lphase.Terminal? && Apart(others, t)
      modifies this
      ensures Ran(w, trace, View()) && t < |tasks| && tasks[t].Done?
      ensures proceed <==> old(tasks)[t].lphase.failed && Unexpected(old(View()), old(tasks)[t])
    {
      ghost var mid := View();
      proceed := LifecycleEnded(t);
      trace := Performs(w, done, Listen(t, Decide), mid, View());
      if proceed { trace := RestartsThen(t, others, packs, built, w, trace); }
    }

    /** A hub's or an ingress's lifecycle shows how it ended. */
    method LifecycleShown(t: TaskId, final: NodeState)
      requires ListenerAt(View(), t) && !tasks[t].agent && tasks[t].lphase.Watching?
      requires (final.Stopped? || final.Failed?) && !engines[tasks[t].watched].alive
      modifies this`nodes, this`tasks, this`engines, this`log
      ensures View() == Apply(old(View()), Listen(t, See(final)))
      ensures ListenerAt(View(), t) && tasks[t] == old(tasks)[t].(lphase := Terminal(final.Failed?))
    {
      var k := tasks[t];
      tasks := tasks[t := k.(lphase := Terminal(final.Failed?))];
      engines := engines[k.watched := engines[k.watched].(reported := true)];
      Observe(k.id, k.gen, final);
    }

    method RestartsThen(t: TaskId, others: nat -> seq<Step>, packs: nat -> Option<Pack>,
                        built: nat -> Option<NodeState>, ghost w: World, ghost done: seq<Step>)
        returns (ghost trace: seq<Step>)
      requires Ran(w, done, View()) && RestarterAt(View(), t) && tasks[t].rphase.Deciding? && Apart(others, t)
      modifies this
      ensures Ran(w, trace, View()) && t < |tasks| && tasks[t].Done?
    {
      trace := Pause(t, others, 1, w, done);
      ghost var mid := View();
      ghost var before, last := RestartAfterDeath(t, (n: nat) => others(n + 2), packs, built);
      EndsWithRun(mid, before, t, last, View());
      RunAppend(w, trace, before + [Restart(t, last)]);
      trace := trace + (before + [Restart(t, last)]);
    }

    method WatchEnds(t: TaskId, final: NodeState, others: nat -> seq<Step>)
        returns (proceed: bool, ghost trace: seq<Step>)
      requires Inv(View()) && ListenerAt(View(), t) && tasks[t].agent && tasks[t].lphase.Watching?
      requires !engines[tasks[t].watched].alive && Apart(others, t)
      modifies this
      ensures Ran(old(View()), trace, View()) && t < |tasks|
      ensures tasks[t] == if proceed then Restarter(old(tasks)[t].id, old(tasks)[t].gen, Deciding) else Done
      ensures proceed <==> Unexpected(old(View()), old(tasks)[t]) && !final.Stopped? && !final.Failed?
    {
      ghost var w := View();
      proceed := WatchClosed(t, final);
      trace := Performs(w, [], Listen(t, Close(final)), w, View());
      trace := Pause(t, others, 0, w, trace);
      ghost var mid := View();
      WatchFinal(t);
      trace := Performs(w, trace, Listen(t, Finish), mid, View());
    }

    // ----- credential renewal ---------------------------------------------------------------

    /** Others run while this task does not hold the lock. */
    method Pause(t: TaskId, others: nat -> seq<Step>, n: nat, ghost w: World, ghost done: seq<Step>)
        returns (ghost trace: seq<Step>)
      requires Ran(w, done, View()) && Apart(others, t)
      requires t < |tasks| && !(tasks[t].Renewal? && tasks[t].nphase.Waiting?)
      modifies this
      ensures trace == done + others(n) && Ran(w, trace, View())
      ensures t < |tasks| && tasks[t] == old(tasks)[t] && |old(engines)| <= |engines|
    {
      TaskKept(View(), others(n), t);
      RunAppend(w, done, others(n));
      trace := done + others(n);
      Others(others(n));
    }

    method RenewalBegin(t: TaskId) returns (ok: bool)
      requires RenewalAt(View(), t) && tasks[t].nphase.Ready?
      modifies this`nodes, this`tasks
      ensures View() == DoRenewalBegin(old(View()), t)
      ensures if ok then tasks[t] == old(tasks)[t].(nphase := Begun) else tasks[t].Done? && Passed(old(tasks)[t])
    {
      var k := tasks[t];
      if k.id !in nodes || nodes[k.id].generation != k.gen {
        tasks := tasks[t := Done];
        return false;
      }
      nodes := nodes[k.id := nodes[k.id].(renewal := None)];
      nodes := nodes[k.id := nodes[k.id].(expectedStop := true)];
      tasks := tasks[t := k.(nphase := Begun)];
      ok := true;
    }

    method RenewalAnnounce(t: TaskId)
      requires RenewalAt(View(), t) && tasks[t].nphase.Begun?
      modifies this`nodes, this`tasks, this`log
      ensures View() == DoRenewalAnnounce(old(View()), t)
      ensures tasks[t] == old(tasks)[t].(nphase := Taking)
    {
      var k := tasks[t];
      tasks := tasks[t := k.(nphase := Taking)];
      Observe(k.id, k.gen, Reconnecting(RENEWED, 0));
    }

    /** Takes whatever engine the node has, of whatever generation. */
    method RenewalTake(t: TaskId)
      requires RenewalAt(View(), t) && tasks[t].nphase.Taking?
      modifies this`nodes, this`tasks
      ensures View() == DoRenewalTake(old(View()), t)
      ensures RenewalAt(View(), t) && tasks[t] == old(tasks)[t].(nphase := tasks[t].nphase) && tasks[t].nphase.Draining?
    {
      var k := tasks[t];
      var engine := None;
      if k.id in nodes {
        engine := nodes[k.id].engine;
        nodes := nodes[k.id := nodes[k.id].(engine := None)];
      }
      tasks := tasks[t := k.(nphase := Draining(engine))];
    }

    method RenewalRead(t: TaskId) returns (ok: bool)
      requires RenewalAt(View(), t) && tasks[t].nphase.Draining?
      modifies this`tasks
      ensures View() == DoRenewalRead(old(View()), t)
      ensures if ok then Reloads(tasks[t]) && tasks[t] == old(tasks)[t].(nphase := tasks[t].nphase)
          else tasks[t].Done? && Passed(old(tasks)[t])
    {
      var k := tasks[t];
      ok := k.id in nodes && nodes[k.id].generation == k.gen;
      tasks := tasks[t := if ok then k.(nphase := Rebuilding(nodes[k.id].spec, None)) else Done];
    }

    /** Loads the rotated pack; one that does not read, or is of another kind, fails the node. */
    method RenewalLoad(t: TaskId, pack: Option<Pack>, error: string) returns (ok: bool, ghost section: RenewalMove)
      requires t < |tasks| && Reloads(tasks[t])
      modifies this`nodes, this`tasks, this`log
      ensures View() == ApplyRenewal(old(View()), t, section)
      ensures if ok then pack.Some? && tasks[t] == old(tasks)[t].(nphase := old(tasks)[t].nphase.(pack := pack))
          else tasks[t].Done? && (Passed(old(tasks)[t]) || nodes[old(tasks)[t].id].state.Failed?)
    {
      var k := tasks[t];
      ok := pack.Some? && pack.value.kind == k.nphase.prepared.kind;
      if ok {
        section := Reload(pack.value);
        tasks := tasks[t := k.(nphase := Rebuilding(k.nphase.prepared, pack))];
      } else {
        section := RebuildFails(error);
        tasks := tasks[t := Done];
        Observe(k.id, k.gen, Failed(error));
      }
    }

    /** The planned restart: fresh budget, fresh generation, fresh engine. */
    method RenewalInstall(t: TaskId, built: Option<NodeState>, error: string) returns (ok: bool)
      requires RenewalLoaded(View(), t)
      modifies this`nodes, this`tasks, this`engines, this`log
      ensures View() == DoRenewalInstall(old(View()), t, built, error)
      ensures tasks[t].Done? && if ok then Renewed(old(tasks)[t], old(tasks)[t].nphase.pack)
          else Passed(old(tasks)[t])
      ensures ok <==> Current(old(View()), old(tasks)[t].id, old(tasks)[t].gen) && built.Some?
    {
      var k := tasks[t];
      tasks := tasks[t := Done];
      if k.id !in nodes || nodes[k.id].generation != k.gen { return false; }
      var e := nodes[k.id];
      e := e.(expectedStop := false, attempts := 0);
      e := e.(generation := e.generation + 1, engine := None);
      nodes := nodes[k.id := e];
      ok := StartLocked(k.id, k.nphase.prepared, k.nphase.pack.value, built);
      if !ok {
        nodes := nodes[k.id := nodes[k.id].(state := Failed(error))];
        RecordState(k.id, Failed(error));
      }
    }

    /** The node has left the generation this task was spawned for. */
    predicate Passed(k: Task)
      reads this
      requires k.Renewal?
    {
      !Current(View(), k.id, k.gen)
    }

    /** The node is up in the next generation, on this pack. */
    predicate Renewed(k: Task, pack: Option<Pack>)
      reads this
      requires k.Renewal?
    {
      && Current(View(), k.id, k.gen + 1) && !nodes[k.id].expectedStop && nodes[k.id].attempts == 0
      && SlotAlive(View(), k.id) && Some(engines[nodes[k.id].engine.value].pack) == pack
    }

    /** The first half of a completed renewal: take the engine down. */
    method RenewalDown(t: TaskId, others: nat -> seq<Step>) returns (ok: bool, ghost trace: seq<Step>)
      requires Inv(View()) && RenewalAt(View(), t) && tasks[t].nphase.Ready? && Apart(others, t)
      modifies this
      ensures Ran(old(View()), trace, View()) && t < |tasks|
      ensures if ok then Reloads(tasks[t]) && tasks[t] == old(tasks)[t].(nphase := tasks[t].nphase)
          else tasks[t].Done? && Passed(old(tasks)[t])
    {
      ghost var w := View();
      ok := RenewalBegin(t);
      trace := Performs(w, [], Renew(t, Begin), w, View());
      if !ok { return; }
      trace := Pause(t, others, 0, w, trace);
      ghost var mid := View();
      RenewalAnnounce(t);
      trace := Performs(w, trace, Renew(t, AnnounceRenewal), mid, View());
      trace := Pause(t, others, 1, w, trace);
      ok, trace := RenewalDrain(t, others, w, trace);
    }

    method RenewalDrain(t: TaskId, others: nat -> seq<Step>, ghost w: World, ghost done: seq<Step>)
        returns (ok: bool, ghost trace: seq<Step>)
      requires Ran(w, done, View()) && RenewalAt(View(), t) && tasks[t].nphase.Taking? && Apart(others, t)
      modifies this
      ensures Ran(w, trace, View()) && t < |tasks|
      ensures if ok then Reloads(tasks[t]) && tasks[t] == old(tasks)[t].(nphase := tasks[t].nphase)
          else tasks[t].Done? && Passed(old(tasks)[t])
    {
      ghost var mid := View();
      RenewalTake(t);
      trace := Performs(w, done, Renew(t, Take), mid, View());
      trace := Pause(t, others, 2, w, trace);
      mid := View();
      ok := RenewalRead(t);
      trace := Performs(w, trace, Renew(t, Read), mid, View());
    }

    /** A completed renewal, with arbitrary steps of others wherever it holds no lock: a run of the protocol
        that ends with the node up in the next generation on a pack it loaded, or, failing that, with
        the node in another generation or shown as failed. */
    method CredentialsRenewed(t: TaskId, others: nat -> seq<Step>, pack: Option<Pack>, built: Option<NodeState>,
                              error: string)
        returns (ok: bool, ghost trace: seq<Step>)
      requires Inv(View()) && RenewalAt(View(), t) && tasks[t].nphase.Ready? && Apart(others, t)
      modifies this
      ensures Ran(old(View()), trace, View()) && t < |tasks| && tasks[t].Done?
      ensures var k := old(tasks)[t];
              if ok then Renewed(k, pack) else Passed(k) || nodes[k.id].state.Failed?
    {
      ghost var w := View();
      ok, trace := RenewalDown(t, others);
      if ok { ok, trace := RenewalUp(t, others, pack, built, error, w, trace); }
    }

    /** The second half: load the rotated pack and bring the node up. */
    method RenewalUp(t: TaskId, others: nat -> seq<Step>, pack: Option<Pack>, built: Option<NodeState>, error: string,
                     ghost w: World, ghost done: seq<Step>) returns (ok: bool, ghost trace: seq<Step>)
      requires Ran(w, done, View()) && t < |tasks| && Reloads(tasks[t]) && Apart(others, t)
      modifies this
      ensures Ran(w, trace, View()) && t < |tasks| && tasks[t].Done?
      ensures var k := old(tasks)[t];
              if ok then Renewed(k, pack) else Passed(k) || nodes[k.id].state.Failed?
    {
      ghost var mid, section := View(), Begin;
      ok, section := RenewalLoad(t, pack, error);
      trace := Performs(w, done, Renew(t, section), mid, View());
      if !ok { return; }
      trace := Pause(t, others, 3, w, trace);
      ok, trace := RenewalLast(t, built, error, w, trace);
    }

    method RenewalLast(t: TaskId, built: Option<NodeState>, error: string, ghost w: World, ghost done: seq<Step>)
        returns (ok: bool, ghost trace: seq<Step>)
      requires Ran(w, done, View()) && RenewalLoaded(View(), t)
      modifies this
      ensures Ran(w, trace, View()) && t < |tasks| && tasks[t].Done?
      ensures if ok then Renewed(old(tasks)[t], old(tasks)[t].nphase.pack) else Passed(old(tasks)[t])
    {
      ghost var mid := View();
      ok := RenewalInstall(t, built, error);
      trace := Performs(w, done, Renew(t, Reinstall(built, error)), mid, View());
    }

    method RenewalFail(t: TaskId)
      requires RenewalAt(View(), t) && tasks[t].nphase.Failing?
      modifies this`nodes, this`tasks, this`log
      ensures View() == DoRenewalFail(old(View()), t)
      ensures tasks[t].Done? || (tasks[t].RenewalTail? && tasks[t].id == old(tasks)[t].id
          && tasks[t].gen == old(tasks)[t].gen)
      ensures tasks[t].Done? ==> Passed(old(tasks)[t])
    {
      var k := tasks[t];
      if k.id !in nodes || nodes[k.id].generation != k.gen {
        tasks := tasks[t := Done];
        return;
      }
      var e := nodes[k.id];
      tasks := tasks[t := RenewalTail(k.id, k.gen, e.engine, k.nphase.error)];
      e := e.(renewal := None, expectedStop := true);
      e := e.(state := Failed(k.nphase.error), engine := None);
      nodes := nodes[k.id := e];
      RecordState(k.id, e.state);
    }

    /** A failed renewal: the node goes down, and is shown as failed again once its engine has drained,
        unless a newer start or stop owns it. */
    method CredentialsLost(t: TaskId, others: nat -> seq<Step>) returns (ghost trace: seq<Step>)
      requires Inv(View()) && RenewalAt(View(), t) && tasks[t].nphase.Failing? && Apart(others, t)
      modifies this
      ensures Ran(old(View()), trace, View()) && t < |tasks| && tasks[t].Done?
      ensures Passed(old(tasks)[t]) || nodes[old(tasks)[t].id].state.Failed?
    {
      ghost var w := View();
      RenewalFail(t);
      trace := Performs(w, [], Renew(t, Fail), w, View());
      if !tasks[t].Done? { trace := RenewalDrains(t, others, w, trace); }
    }

    method RenewalDrains(t: TaskId, others: nat -> seq<Step>, ghost w: World, ghost done: seq<Step>)
        returns (ghost trace: seq<Step>)
      requires Ran(w, done, View()) && t < |tasks| && tasks[t].RenewalTail? && Apart(others, t)
      modifies this
      ensures Ran(w, trace, View()) && t < |tasks| && tasks[t].Done?
      ensures Current(View(), old(tasks)[t].id, old(tasks)[t].gen) ==> nodes[old(tasks)[t].id].state.Failed?
    {
      trace := Pause(t, others, 0, w, done);
      ghost var mid := View();
      RenewalOver(t);
      trace := Performs(w, trace, Renew(t, EndTail), mid, View());
    }

    method RenewalOver(t: TaskId)
      requires t < |tasks| && tasks[t].RenewalTail?
      modifies this`nodes, this`tasks, this`log
      ensures View() == DoTailEnd(old(View()), t) && tasks[t].Done?
      ensures Current(View(), old(tasks)[t].id, old(tasks)[t].gen) ==> nodes[old(tasks)[t].id].state.Failed?
    {
      var k := tasks[t];
      tasks := tasks[t := Done];
      Observe(k.id, k.gen, Failed(k.error));
    }

    // ----- pack update ------------------------------------------------------------------------

    /** Other calls, tasks and updates run, and packs may vanish, while update `u` holds no lock. */
    method Meanwhile(steps: seq<SiteStep>, u: nat)
      requires SiteInv(Here()) && u < |updaters|
      modifies this
      ensures SiteInv(Here()) && u < |updaters| && updaters[u] == old(updaters)[u]
      ensures Here() == RunSites(old(Here()), Spare(steps, u))
    {
      SiteInvRun(Here(), Spare(steps, u));
      SparedUpdater(Here(), Spare(steps, u), u);
      Elsewhere(Spare(steps, u));
    }

    method Elsewhere(steps: seq<SiteStep>)
      modifies this
      ensures Here() == RunSites(old(Here()), steps)
    {
      var site := Here();
      for i := 0 to |steps|
        invariant site == RunSites(old(Here()), steps[..i])
      {
        RunSitesSnoc(old(Here()), steps[..i], steps[i]);
        assert steps[..i] + [steps[i]] == steps[..i + 1];
        site := ApplySite(site, steps[i]);
      }
      assert steps[..|steps|] == steps;
      var w := site.world;
      nodes, used, tasks, engines, log, delivered := w.nodes, w.used, w.tasks, w.engines, w.log, w.delivered;
      base, budget, disk, updaters := w.base, w.budget, site.disk, site.updaters;
    }

    method UpdateSnap(id: NodeId) returns (found: bool)
      modifies this`updaters
      ensures Here() == ApplySite(old(Here()), Snap(id))
      ensures found <==> id in nodes
      ensures |updaters| == |old(updaters)| + 1 && updaters[|old(updaters)|].id == id
      ensures updaters[|old(updaters)|].progress == if found
          then Snapped(nodes[id].spec.principal, nodes[id].spec.packGeneration) else Finished(Refused("unknown node"))
    {
      found := id in nodes;
      if !found {
        updaters := updaters + [Updater(id, "", false, None, Finished(Refused("unknown node")))];
        return;
      }
      var e := nodes[id];
      updaters := updaters + [Updater(id, e.spec.dir.canonical, e.desired, None,
          Snapped(e.spec.principal, e.spec.packGeneration))];
    }

    method SetProgress(u: nat, p: Progress)
      requires u < |updaters|
      modifies this`updaters
      ensures updaters == old(updaters)[u := old(updaters)[u].(progress := p)]
    {
      updaters := updaters[u := updaters[u].(progress := p)];
    }

    /** Every check comes before anything is touched. */
    method UpdateCheck(u: nat, source: Option<Pack>) returns (ok: bool)
      requires IsSnapped(Here(), u)
      modifies this`updaters
      ensures Here() == ApplySite(old(Here()), Move(u, Approve(source)))
      ensures u < |updaters| && if ok then IsAt(Here(), u, Approved) else updaters[u].progress.Finished?
      ensures u < |updaters| && updaters[u].source == source && updaters[u].id == old(updaters)[u].id
      ensures !ok ==> !updaters[u].progress.result.Updated?
    {
      var k := updaters[u];
      updaters := updaters[u := k.(source := source)];
      ok := false;
      if source.None? {
        SetProgress(u, Finished(Refused("source pack rejected")));
      } else if k.progress.principal.None? {
        SetProgress(u, Finished(Refused("identity cannot be verified")));
      } else if k.progress.principal.value != source.value.principal {
        SetProgress(u, Finished(Refused("identity mismatch")));
      } else {
        var from := if k.dir in disk then disk[k.dir].generation else k.progress.cached;
        ok := source.value.generation >= from;
        SetProgress(u, if ok then Underway(from, Approved) else Finished(Refused("downgrade refused")));
      }
    }

    method UpdateHalt(u: nat) returns (ok: bool)
      requires IsAt(Here(), u, Approved)
      modifies this`nodes, this`tasks, this`log, this`updaters
      ensures Here() == ApplySite(old(Here()), Move(u, Halt))
      ensures u < |updaters| && if ok then IsHalting(Here(), u)
          else updaters[u].progress == Finished(Broken("unknown node"))
    {
      var k, t := updaters[u], |tasks|;
      ok := StopBegin(k.id);
      SetProgress(u, if ok then Underway(k.progress.from, Halting(t)) else Finished(Broken("unknown node")));
    }

    method UpdateHaltEnds(u: nat, graceful: bool) returns (ok: bool)
      requires IsHalting(Here(), u)
      modifies this`nodes, this`tasks, this`log, this`updaters
      ensures Here() == ApplySite(old(Here()), Move(u, HaltEnds(graceful)))
      ensures u < |updaters| && if ok then IsAt(Here(), u, Halted)
          else updaters[u].progress == Finished(Broken("shutdown failed"))
    {
      var k := updaters[u];
      ok := StopEnd(k.progress.point.t, graceful);
      SetProgress(u, if ok then Underway(k.progress.from, Halted) else Finished(Broken("shutdown failed")));
    }

    method UpdatePlace(u: nat, swap: Swap) returns (ok: bool)
      requires IsAt(Here(), u, Halted)
      modifies this`disk, this`updaters
      ensures Here() == ApplySite(old(Here()), Move(u, Place(swap)))
      ensures u < |updaters| && if ok then IsAt(Here(), u, Placed)
          else updaters[u].progress == Finished(Broken("pack swap failed"))
    {
      var k := updaters[u];
      disk := SwapDisk(disk, k.dir, k.source.value, swap);
      ok := swap.Swapped?;
      SetProgress(u, if ok then Underway(k.progress.from, Placed) else Finished(Broken("pack swap failed")));
    }

    /** Records the new pack; the update of a node that was not wanted ends here. */
    method UpdateRecord(u: nat) returns (on: bool)
      requires IsAt(Here(), u, Placed)
      modifies this`nodes, this`updaters
      ensures Here() == ApplySite(old(Here()), Move(u, Record))
      ensures u < |updaters| && if on then IsAt(Here(), u, Recorded) else updaters[u].progress.Finished?
    {
      var k := updaters[u];
      on := false;
      if k.id !in nodes {
        SetProgress(u, Finished(Broken("unknown node")));
        return;
      }
      var spec := nodes[k.id].spec;
      spec := spec.(kind := k.source.value.kind, name := k.source.value.node,
          principal := Some(k.source.value.principal));
      spec := spec.(packGeneration := k.source.value.generation, digest := k.source.value.digest);
      nodes := nodes[k.id := nodes[k.id].(spec := spec)];
      on := k.desired;
      SetProgress(u, if on then Underway(k.progress.from, Recorded) else Finished(Success(k)));
    }

    method UpdateLaunch(u: nat) returns (ok: bool)
      requires IsAt(Here(), u, Recorded)
      modifies this`tasks, this`updaters
      ensures Here() == ApplySite(old(Here()), Move(u, Launch))
      ensures u < |updaters| && if ok then IsLaunching(Here(), u)
          else updaters[u].progress == Finished(Broken("unknown node"))
    {
      var k, t := updaters[u], |tasks|;
      ok := k.id in nodes;
      if !ok {
        SetProgress(u, Finished(Broken("unknown node")));
        return;
      }
      tasks := tasks + [Starter(k.id, nodes[k.id].spec, None, false)];
      SetProgress(u, Underway(k.progress.from, Launching(t)));
    }

    /** The update's start loads what its directory reads as now. */
    method UpdateLaunchLoads(u: nat) returns (ok: bool)
      requires IsLaunching(Here(), u)
      modifies this`tasks, this`updaters
      ensures Here() == ApplySite(old(Here()), Move(u, LaunchLoads))
      ensures u < |updaters| && if ok then IsBuilding(Here(), u)
          else updaters[u].progress == Finished(Broken("start failed"))
    {
      var k := updaters[u];
      var t := k.progress.point.t;
      var prepared := tasks[t].prepared;
      ok := prepared.dir.canonical in disk && disk[prepared.dir.canonical].kind == prepared.kind;
      if ok {
        tasks := tasks[t := tasks[t].(pack := Some(disk[prepared.dir.canonical]))];
        SetProgress(u, Underway(k.progress.from, Building(t)));
      } else {
        var error := if prepared.dir.canonical in disk then "wrong kind" else "Credential Pack rejected";
        tasks := tasks[t := StartRefused(tasks[t], error)];
        SetProgress(u, Finished(Broken("start failed")));
      }
    }

    method UpdateLaunchEnds(u: nat, outcome: StartOutcome)
      requires IsBuilding(Here(), u)
      modifies this`nodes, this`tasks, this`engines, this`log, this`updaters
      ensures Here() == ApplySite(old(Here()), Move(u, LaunchEnds(outcome)))
      ensures u < |updaters| && updaters[u].progress.Finished?
    {
      var k := updaters[u];
      var ok := EndLaunch(k.progress.point.t, outcome);
      SetProgress(u, Finished(if ok then Success(k) else Broken("start failed")));
    }

    /** The end of an update's own start. */
    method EndLaunch(t: TaskId, outcome: StartOutcome) returns (ok: bool)
      requires IsLoaded(View(), t)
      modifies this`nodes, this`tasks, this`engines, this`log
      ensures View() == ApplyCall(old(View()), t, LaunchMove(outcome))
      ensures ok <==> outcome.Built? && StartGoes(old(View()), t)
    {
      ok := false;
      match outcome {
        case PackUnusable(error) => tasks := tasks[t := StartRefused(tasks[t], error)];
        case BuildFailed(error) => ok := StartCommit(t, None, error);
        case Built(state) => ok := StartCommit(t, Some(state), "");
      }
    }

    /** Others run, then the update runs its next section; on while it is not over. */
    method Section(u: nat, m: UpdateMove, steps: seq<SiteStep>) returns (on: bool, ghost trace: seq<SiteStep>)
      requires SiteInv(Here()) && u < |updaters| && Due(updaters[u], m)
      modifies this
      ensures Goes(old(Here()), trace, Here()) && trace == Spare(steps, u) + [Move(u, m)]
      ensures u < |updaters| && Advances(old(updaters)[u], m, updaters[u]) && on == !updaters[u].progress.Finished?
    {
      ghost var site := Here();
      Meanwhile(steps, u);
      HoldsOwn(Here(), u);
      ghost var mid := Here();
      on := RunSection(u, m);
      trace := Extend(site, Spare(steps, u), Move(u, m), mid, Here());
    }

    method RunSection(u: nat, m: UpdateMove) returns (on: bool)
      requires u < |updaters| && Due(updaters[u], m)
      requires (m.HaltEnds? ==> IsHalting(Here(), u)) && (m.LaunchLoads? ==> IsLaunching(Here(), u))
          && (m.LaunchEnds? ==> IsBuilding(Here(), u))
      modifies this
      ensures Here() == ApplySite(old(Here()), Move(u, m))
      ensures u < |updaters| && Advances(old(updaters)[u], m, updaters[u]) && on == !updaters[u].progress.Finished?
    {
      match m
      case Approve(source) => on := UpdateCheck(u, source);
      case Halt => on := UpdateHalt(u);
      case HaltEnds(ok) => on := UpdateHaltEnds(u, ok);
      case Place(swap) => on := UpdatePlace(u, swap);
      case Record => on := UpdateRecord(u);
      case Launch => on := UpdateLaunch(u);
      case LaunchLoads => on := UpdateLaunchLoads(u);
      case LaunchEnds(outcome) =>
        UpdateLaunchEnds(u, outcome);
        on := false;
    }

    /** The next section after a run so far. */
    method NextSection(ghost site: Site, ghost done: seq<SiteStep>, ghost moves: set<UpdateMove>, u: nat, m: UpdateMove,
                       steps: seq<SiteStep>) returns (on: bool, ghost trace: seq<SiteStep>)
      requires Goes(site, done, Here()) && u < |updaters| && Due(updaters[u], m) && OwnMoves(done, u, moves)
          && m in moves
      modifies this
      ensures Goes(site, trace, Here()) && OwnMoves(trace, u, moves)
      ensures u < |updaters| && Advances(old(updaters)[u], m, updaters[u]) && on == !updaters[u].progress.Finished?
    {
      ghost var mid := Here();
      on, trace := Section(u, m, steps);
      GoesOn(site, done, mid, trace, Here());
      trace := done + trace;
    }

    /** The sections of an update in order, until one of them ends it. */
    method RunUpdate(u: nat, source: Option<Pack>, weather: Weather, others: nat -> seq<SiteStep>)
        returns (ghost trace: seq<SiteStep>)
      requires SiteInv(Here()) && u < |updaters| && updaters[u].progress.Snapped?
      modifies this
      ensures Goes(old(Here()), trace, Here()) && OwnMoves(trace, u, Moves(source, weather))
      ensures u < |updaters| && updaters[u].id == old(updaters)[u].id && updaters[u].source == source
          && updaters[u].progress.Finished?
      ensures updaters[u].progress.result.Updated? ==> source.Some?
    {
      ghost var site, moves := Here(), Moves(source, weather);
      var on;
      on, trace := NextSection(site, [], moves, u, Approve(source), others(0));
      if !on { return; }
      on, trace := NextSection(site, trace, moves, u, Halt, others(1));
      if !on { return; }
      on, trace := NextSection(site, trace, moves, u, HaltEnds(weather.stopOk), others(2));
      if !on { return; }
      on, trace := NextSection(site, trace, moves, u, Place(weather.swap), others(3));
      if !on { return; }
      trace := RestoreIntent(site, trace, moves, u, weather, others);
    }

    /** The sections after the swap: refresh, and start the node again if it was wanted. */
    method RestoreIntent(ghost site: Site, ghost done: seq<SiteStep>, ghost moves: set<UpdateMove>, u: nat,
        weather: Weather,
                         others: nat -> seq<SiteStep>) returns (ghost trace: seq<SiteStep>)
      requires Goes(site, done, Here()) && OwnMoves(done, u, moves)
          && {Record, Launch, LaunchLoads, LaunchEnds(weather.start)} <= moves
      requires u < |updaters| && Due(updaters[u], Record)
      modifies this
      ensures Goes(site, trace, Here()) && OwnMoves(trace, u, moves)
      ensures u < |updaters| && updaters[u].id == old(updaters)[u].id && updaters[u].source == old(updaters)[u].source
      ensures updaters[u].progress.Finished?
    {
      var on;
      on, trace := NextSection(site, done, moves, u, Record, others(4));
      if !on { return; }
      on, trace := NextSection(site, trace, moves, u, Launch, others(5));
      if !on { return; }
      on, trace := NextSection(site, trace, moves, u, LaunchLoads, others(6));
      if !on { return; }
      on, trace := NextSection(site, trace, moves, u, LaunchEnds(weather.start), others(7));
    }

    /** One update, with arbitrary steps of others wherever it holds no lock: it is a run of the site that
        begins with its snapshot, and it returns what its last section reports. */
    method UpdatePack(id: NodeId, source: Option<Pack>, weather: Weather, others: nat -> seq<SiteStep>)
        returns (r: UpdateResult, ghost trace: seq<SiteStep>)
      requires SiteInv(Here())
      modifies this
      ensures Goes(old(Here()), [Snap(id)] + trace, Here()) && OwnMoves(trace, |old(updaters)|, Moves(source, weather))
      ensures var u := |old(updaters)|;
              && u < |updaters| && updaters[u].id == id && updaters[u].progress == Finished(r)
              && (r.Updated? ==> source.Some? && updaters[u].source == source)
    {
      var u := |updaters|;
      ghost var site := Here();
      trace := Extend(site, [], Snap(id), site, ApplySite(site, Snap(id)));
      assert [Snap(id)] + [] == [Snap(id)] == trace;
      var found := UpdateSnap(id);
      trace := [];
      if found {
        ghost var mid := Here();
        trace := RunUpdate(u, source, weather, others);
        GoesOn(site, [Snap(id)], mid, trace, Here());
      }
      r := updaters[u].progress.result;
    }
  }
}
