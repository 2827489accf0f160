/** The table field by field: which section writes what, and what runs leave of it. */
module Entries {
  import opened Types
  import opened Supervision
  import opened Invariants
  import opened Stops
  import opened Profiles
  import opened States

  // ----- who writes what --------------------------------------------------------------------

  /** A section that builds an engine for the node: a start, a crash restart, a completed renewal. */
  predicate Builds(w: World, s: Step, id: NodeId) {
    || Starts(w, s, id)
    || Rearms(w, s, id)
    || (&& s.Restart? && s.r.Install? && RestartLoaded(w, s.t) && w.tasks[s.t].id == id
        && Current(w, id, w.tasks[s.t].gen) && !w.nodes[id].expectedStop)
  }

  function BuiltState(s: Step): Option<NodeState> {
    match s
    case Call(_, StartCommit(built, _)) => built
    case Restart(_, Install(built)) => built
    case Renew(_, Reinstall(built, _)) => built
    case _ => None
  }

  /** The spec a build was prepared from. */
  function Blueprint(w: World, s: Step, id: NodeId): Spec
    requires Builds(w, s, id)
  {
    match s
    case Call(t, _) => w.tasks[t].prepared
    case Restart(t, _) => w.tasks[t].rphase.prepared
    case Renew(t, _) => w.tasks[t].nphase.prepared
  }

  /** A renewal of the node's generation takes the node over: it begins, or its future failed. */
  predicate TakesOver(w: World, s: Step, id: NodeId) {
    && s.Renew? && RenewalAt(w, s.t) && w.tasks[s.t].id == id && Current(w, id, w.tasks[s.t].gen)
    && ((s.n.Begin? && w.tasks[s.t].nphase.Ready?) || (s.n.Fail? && w.tasks[s.t].nphase.Failing?))
  }

  predicate StopsAll(s: Step) {
    s.User? && s.u.SweepBegin?
  }

  /** A stop and a stop-all or quit, and the renewal that takes over, expect the engine to end; a start and
      a completed renewal do not. */
  function Expects(w: World, s: Step, id: NodeId): Option<bool> {
    if Starts(w, s, id) || Rearms(w, s, id) then Some(false)
    else if s == User(StopBegin(id)) || StopsAll(s) || TakesOver(w, s, id) then Some(true)
    else None
  }

  /** A start, a completed renewal and a stop begin a new generation. */
  predicate Bumps(w: World, s: Step, id: NodeId) {
    s == User(StopBegin(id)) || Starts(w, s, id) || Rearms(w, s, id)
  }

  /** A start, a completed renewal and a healthy streak of the current generation clear the debt. */
  predicate Clears(w: World, s: Step, id: NodeId) {
    || Starts(w, s, id)
    || Rearms(w, s, id)
    || (&& s.Listen? && s.l == Note(true) && ListenerAt(w, s.t) && w.tasks[s.t].agent && w.tasks[s.t].lphase.Watching?
        && w.tasks[s.t].id == id && Current(w, id, w.tasks[s.t].gen))
  }

  /** A crash of the current generation within its budget is charged. */
  predicate Charges(w: World, s: Step, id: NodeId) {
    && s.Restart? && s.r.DecideRestart? && RestarterAt(w, s.t) && w.tasks[s.t].rphase.Deciding?
    && w.tasks[s.t].id == id && Current(w, id, w.tasks[s.t].gen) && w.nodes[id].attempts < w.budget
  }

  /** What a step leaves in the node's slot, if it touches it. */
  function Slot(w: World, s: Step, id: NodeId): Option<Option<EngineId>> {
    if Builds(w, s, id) then Some(if BuiltState(s).Some? then Some(|w.engines|) else None)
    else if s == User(StopBegin(id)) || StopsAll(s) || Abandons(w, s, id) then Some(None)
    else None
  }

  /** The restart loop gives up, or a renewal takes the engine away. */
  predicate Abandons(w: World, s: Step, id: NodeId) {
    match s
    case Restart(t, GiveUp) =>
      RestarterAt(w, t) && w.tasks[t].rphase.GivingUp? && w.tasks[t].id == id && Current(w, id, w.tasks[t].gen)
    case Renew(t, Take) => RenewalAt(w, t) && w.tasks[t].nphase.Taking? && w.tasks[t].id == id
    case Renew(_, Fail) => TakesOver(w, s, id)
    case _ => false
  }

  /** The renewal a step leaves to abort, if it touches the handle. */
  function HandleLeft(w: World, s: Step, id: NodeId): Option<Option<TaskId>> {
    if Builds(w, s, id) && BuiltState(s).Some? then Some(Some(|w.tasks| + 1))
    else if s == User(StopBegin(id)) || StopsAll(s) || TakesOver(w, s, id) then Some(None)
    else None
  }

  /** An expose engine brings its address table, even when its build then fails; a stop takes it away. */
  function TableLeft(w: World, s: Step, id: NodeId): Option<Option<map<string, string>>>
    requires id in w.nodes
  {
    if Builds(w, s, id) && Blueprint(w, s, id).kind.ExposeAgent? then Some(Some(Blueprint(w, s, id).addresses))
    else if s == User(StopBegin(id)) then Some(None)
    else if Edits(w, s, id).Some? && w.nodes[id].table.Some?
    then Some(Some(EditTable(w.nodes[id].table.value, w.nodes[id].spec.addresses, Edits(w, s, id).value.addresses)))
    else None
  }

  datatype Edit = Edit(transport: Option<Transport>, quicAddr: Option<string>, addresses: map<string, string>)

  /** A preference edit goes through unless it would change the transport or the QUIC address of a node
      that is running. */
  function Edits(w: World, s: Step, id: NodeId): Option<Edit> {
    if s.User? && s.u.SetPrefs? && s.u.id == id && id in w.nodes
       && (InService(w, id) ==>
             s.u.transport == w.nodes[id].spec.transport && s.u.quicAddr == w.nodes[id].spec.quicAddr)
    then Some(Edit(s.u.transport, s.u.quicAddr, s.u.wanted)) else None
  }

  function EditOf(spec: Spec): Edit {
    Edit(spec.transport, spec.quicAddr, spec.addresses)
  }

  /** Every field of the entry but the intent, the state and what a pack says. */
  ghost predicate FieldsFollow(w: World, s: Step, w': World, id: NodeId)
    requires id in w.nodes && id in w'.nodes
  {
    var e, e' := w.nodes[id], w'.nodes[id];
    && e'.expectedStop == (if Expects(w, s, id).Some? then Expects(w, s, id).value else e.expectedStop)
    && e'.generation == (if Bumps(w, s, id) then e.generation + 1 else e.generation)
    && e'.attempts == (if Clears(w, s, id) then 0 else if Charges(w, s, id) then e.attempts + 1 else e.attempts)
    && e'.engine == (if Slot(w, s, id).Some? then Slot(w, s, id).value else e.engine)
    && e'.renewal == (if HandleLeft(w, s, id).Some? then HandleLeft(w, s, id).value else e.renewal)
    && e'.table == (if TableLeft(w, s, id).Some? then TableLeft(w, s, id).value else e.table)
    && EditOf(e'.spec) == (if Edits(w, s, id).Some? then Edits(w, s, id).value else EditOf(e.spec))
  }

  lemma FieldsUser(w: World, u: UserMove, id: NodeId)
    requires w.nodes.Keys <= w.used && id in w.nodes && id in ApplyUser(w, u).nodes
    ensures FieldsFollow(w, User(u), ApplyUser(w, u), id)
  {
    match u
    case StopBegin(stopped) => FieldsStop(w, stopped, id);
    case SweepBegin(clear) => FieldsSweep(w, clear, id);
    case SetPrefs(edited, transport, quicAddr, wanted) => FieldsPrefs(w, edited, transport, quicAddr, wanted, id);
    case _ =>
  }

  lemma FieldsStop(w: World, stopped: NodeId, id: NodeId)
    requires id in w.nodes && id in DoStopBegin(w, stopped).nodes
    ensures FieldsFollow(w, User(StopBegin(stopped)), DoStopBegin(w, stopped), id)
  {
  }

  lemma FieldsSweep(w: World, clear: bool, id: NodeId)
    requires id in w.nodes && id in DoSweepBegin(w, clear).nodes
    ensures FieldsFollow(w, User(SweepBegin(clear)), DoSweepBegin(w, clear), id)
  {
  }

  lemma FieldsPrefs(w: World, edited: NodeId, transport: Option<Transport>, quicAddr: Option<string>,
                    wanted: map<string, string>, id: NodeId)
    requires id in w.nodes && id in DoSetPrefs(w, edited, transport, quicAddr, wanted).nodes
    ensures FieldsFollow(w, User(SetPrefs(edited, transport, quicAddr, wanted)),
                DoSetPrefs(w, edited, transport, quicAddr, wanted), id)
  {
    InServiceIs(w, id);
    var u, w' := SetPrefs(edited, transport, quicAddr, wanted), DoSetPrefs(w, edited, transport, quicAddr, wanted);
    if edited != id || Edits(w, User(u), id).None? {
      assert w'.nodes[id] == w.nodes[id];
    }
    FieldsEdited(w, u, w', id);
  }

  lemma FieldsEdited(w: World, u: UserMove, w': World, id: NodeId)
    requires u.SetPrefs? && id in w.nodes && id in w'.nodes
    requires var e := w.nodes[id];
             if Edits(w, User(u), id).None? then w'.nodes[id] == e
             else w'.nodes[id] == e.(
                 table := if e.table.Some? then Some(EditTable(e.table.value, e.spec.addresses, u.wanted)) else None,
                 spec := e.spec.(transport := u.transport, quicAddr := u.quicAddr, addresses := u.wanted))
    ensures FieldsFollow(w, User(u), w', id)
  {
  }

  lemma FieldsStart(w: World, t: TaskId, built: Option<NodeState>, error: string, id: NodeId)
    requires id in w.nodes && id in DoStartCommit(w, t, built, error).nodes
    ensures FieldsFollow(w, Call(t, StartCommit(built, error)), DoStartCommit(w, t, built, error), id)
  {
    if !Starts(w, Call(t, StartCommit(built, error)), id) {
      assert DoStartCommit(w, t, built, error).nodes[id] == w.nodes[id];
    }
  }

  lemma FieldsCall(w: World, t: TaskId, c: CallMove, id: NodeId)
    requires id in w.nodes && id in ApplyCall(w, t, c).nodes
    ensures FieldsFollow(w, Call(t, c), ApplyCall(w, t, c), id)
  {
    if c.StartCommit? { FieldsStart(w, t, c.built, c.error, id); }
  }

  lemma FieldsListener(w: World, t: TaskId, l: ListenerMove, id: NodeId)
    requires id in w.nodes && id in ApplyListener(w, t, l).nodes
    ensures FieldsFollow(w, Listen(t, l), ApplyListener(w, t, l), id)
  {
    ListenerEntry(w, t, l, id);
  }

  lemma FieldsInstall(w: World, t: TaskId, built: Option<NodeState>, id: NodeId)
    requires id in w.nodes && id in DoRestartInstall(w, t, built).nodes
    ensures FieldsFollow(w, Restart(t, Install(built)), DoRestartInstall(w, t, built), id)
  {
    if !Builds(w, Restart(t, Install(built)), id) { assert DoRestartInstall(w, t, built).nodes[id] == w.nodes[id]; }
  }

  lemma FieldsRestart(w: World, t: TaskId, r: RestartMove, id: NodeId)
    requires id in w.nodes && id in ApplyRestart(w, t, r).nodes
    ensures FieldsFollow(w, Restart(t, r), ApplyRestart(w, t, r), id)
  {
    if r.Install? { FieldsInstall(w, t, r.built, id); }
  }

  lemma FieldsReinstall(w: World, t: TaskId, built: Option<NodeState>, error: string, id: NodeId)
    requires id in w.nodes && id in DoRenewalInstall(w, t, built, error).nodes
    ensures FieldsFollow(w, Renew(t, Reinstall(built, error)), DoRenewalInstall(w, t, built, error), id)
  {
    if !Rearms(w, Renew(t, Reinstall(built, error)), id) {
      assert DoRenewalInstall(w, t, built, error).nodes[id] == w.nodes[id];
    }
  }

  lemma FieldsRenewal(w: World, t: TaskId, n: RenewalMove, id: NodeId)
    requires id in w.nodes && id in ApplyRenewal(w, t, n).nodes
    ensures FieldsFollow(w, Renew(t, n), ApplyRenewal(w, t, n), id)
  {
    if n.Reinstall? { FieldsReinstall(w, t, n.built, n.error, id); } else { RenewalEntry(w, t, n, id); }
  }

  lemma FieldsStep(w: World, s: Step, id: NodeId)
    requires w.nodes.Keys <= w.used && id in w.nodes && id in Apply(w, s).nodes
    ensures FieldsFollow(w, s, Apply(w, s), id)
  {
    match s
    case User(u) => FieldsUser(w, u, id);
    case Call(t, c) => FieldsCall(w, t, c, id);
    case Listen(t, l) => FieldsListener(w, t, l, id);
    case Restart(t, r) => FieldsRestart(w, t, r, id);
    case Renew(t, n) => FieldsRenewal(w, t, n, id);
    case Deliver =>
    case EngineFlip(x, alive) =>
  }

  // ----- which nodes there are --------------------------------------------------------------

  /** A node is added unless its id was ever given, or its known identity or its directory is taken. */
  predicate Adds(w: World, s: Step, id: NodeId) {
    && s.User? && s.u.Add? && s.u.id == id && id !in w.used
    && forall o | o in w.nodes ::
         && (s.u.spec.principal.Some? ==> s.u.spec.principal != w.nodes[o].spec.principal)
         && s.u.spec.dir.canonical != w.nodes[o].spec.dir.canonical
  }

  /** A node is removed unless its engine is alive. */
  predicate Removes(w: World, s: Step, id: NodeId) {
    s == User(Remove(id)) && id in w.nodes && !InService(w, id)
  }

  ghost predicate KeysFollow(w: World, s: Step, w': World, id: NodeId) {
    && (id in w'.nodes <==> Adds(w, s, id) || (id in w.nodes && !Removes(w, s, id)))
    && (Adds(w, s, id) ==> w'.nodes == w.nodes[id := Entry(s.u.spec, None, false, false, Stopped, None, None, 0, 0)])
    && (Removes(w, s, id) ==> w'.nodes == w.nodes - {id})
  }

  lemma KeysUser(w: World, u: UserMove, id: NodeId)
    requires w.nodes.Keys <= w.used
    ensures KeysFollow(w, User(u), ApplyUser(w, u), id)
  {
  }

  lemma KeysStep(w: World, s: Step, id: NodeId)
    requires w.nodes.Keys <= w.used
    ensures KeysFollow(w, s, Apply(w, s), id)
  {
    match s
    case User(u) => KeysUser(w, u, id);
    case Call(t, c) => CallKeys(w, t, c);
    case Listen(t, l) => ListenerKeys(w, t, l);
    case Restart(t, r) => RestartKeys(w, t, r);
    case Renew(t, n) => RenewalKeys(w, t, n);
    case Deliver =>
    case EngineFlip(x, alive) =>
  }

  lemma CallKeys(w: World, t: TaskId, c: CallMove)
    ensures ApplyCall(w, t, c).nodes.Keys == w.nodes.Keys
  {
  }

  lemma RestartKeys(w: World, t: TaskId, r: RestartMove)
    ensures ApplyRestart(w, t, r).nodes.Keys == w.nodes.Keys
  {
  }

  lemma RenewalKeys(w: World, t: TaskId, n: RenewalMove)
    ensures ApplyRenewal(w, t, n).nodes.Keys == w.nodes.Keys
  {
  }

  lemma ListenerKeys(w: World, t: TaskId, l: ListenerMove)
    ensures ApplyListener(w, t, l).nodes.Keys == w.nodes.Keys
  {
  }

  // ----- what is queued for the disk --------------------------------------------------------

  /** Whatever profile a step queues is the table it leaves. */
  ghost predicate QueuesOwn(w: World, w': World) {
    && w.log <= w'.log
    && forall i | |w.log| <= i < |w'.log| && w'.log[i].PersistEvent? :: w'.log[i].profile == ProfileOf(w'.nodes)
  }

  lemma QueuedByUser(w: World, u: UserMove)
    ensures QueuesOwn(w, ApplyUser(w, u))
  {
  }

  lemma QueuedByCall(w: World, t: TaskId, c: CallMove)
    ensures QueuesOwn(w, ApplyCall(w, t, c))
  {
  }

  lemma QueuedByListener(w: World, t: TaskId, l: ListenerMove)
    ensures QueuesOwn(w, ApplyListener(w, t, l))
  {
  }

  lemma QueuedByRestart(w: World, t: TaskId, r: RestartMove)
    ensures QueuesOwn(w, ApplyRestart(w, t, r))
  {
  }

  lemma QueuedByRenewal(w: World, t: TaskId, n: RenewalMove)
    ensures QueuesOwn(w, ApplyRenewal(w, t, n))
  {
  }

  lemma QueuedStep(w: World, s: Step)
    ensures QueuesOwn(w, Apply(w, s))
  {
    match s
    case User(u) => QueuedByUser(w, u);
    case Call(t, c) => QueuedByCall(w, t, c);
    case Listen(t, l) => QueuedByListener(w, t, l);
    case Restart(t, r) => QueuedByRestart(w, t, r);
    case Renew(t, n) => QueuedByRenewal(w, t, n);
    case Deliver =>
    case EngineFlip(x, alive) =>
  }

  // ----- adding and removing ----------------------------------------------------------------

  /** No profile queued from here on knows the id. */
  ghost predicate Forgotten(log: seq<Event>, from: nat, id: NodeId) {
    forall i | from <= i < |log| && log[i].PersistEvent? :: id !in log[i].profile
  }

  lemma {:induction false} ForgottenRun(w: World, steps: seq<Step>, id: NodeId)
    requires Inv(w) && id in w.used && id !in w.nodes
    ensures id !in Run(w, steps).nodes && w.log <= Run(w, steps).log && Forgotten(Run(w, steps).log, |w.log|, id)
    decreases |steps|
  {
    if steps != [] {
      var w1 := Apply(w, steps[0]);
      InvStep(w, steps[0]);
      KeysStep(w, steps[0], id);
      UsedGrows(w, steps[0]);
      QueuedStep(w, steps[0]);
      ForgottenRun(w1, steps[1..], id);
      ForgottenLater(w, w1, Run(w, steps), id);
    }
  }

  lemma ForgottenLater(w: World, w1: World, w2: World, id: NodeId)
    requires QueuesOwn(w, w1) && id !in w1.nodes && w1.log <= w2.log && Forgotten(w2.log, |w1.log|, id)
    ensures w.log <= w2.log && Forgotten(w2.log, |w.log|, id)
  {
  }

  /** A removed node is gone for good: it leaves the table and the profile that is queued at once, nothing
      else changes, and no later table and no profile queued from then on knows it. */
  lemma RemovedForGood(w: World, id: NodeId, steps: seq<Step>)
    requires Inv(w) && id in w.nodes && !InService(w, id)
    ensures var w1 := Apply(w, User(Remove(id)));
            && w1 == w.(nodes := w.nodes - {id}, log := w1.log)
            && |w1.log| == |w.log| + 1 && w1.log[|w.log|] == PersistEvent(ProfileOf(w.nodes) - {id})
            && id !in Run(w1, steps).nodes && Forgotten(Run(w1, steps).log, |w.log|, id)
            && id !in Disk(Run(w1, steps))
  {
    var w1 := Apply(w, User(Remove(id)));
    InvStep(w, User(Remove(id)));
    assert ProfileOf(w1.nodes) == ProfileOf(w.nodes) - {id};
    ForgottenRun(w1, steps, id);
    assert w1.log == w.log + [PersistEvent(ProfileOf(w1.nodes))];
    NotOnDisk(Run(w1, steps).log, Run(w1, steps).base, |w.log|, id);
  }

  lemma {:induction false} NotOnDisk(log: seq<Event>, base: Profile, n: nat, id: NodeId)
    requires n < |log| && log[n].PersistEvent? && Forgotten(log, n, id)
    ensures id !in OnDisk(log, base)
  {
    if !log[|log| - 1].PersistEvent? { NotOnDisk(log[..|log| - 1], base, n, id); }
  }

  // ----- runs -------------------------------------------------------------------------------

  /** The last edit of the node's preferences that went through. */
  function LastEdit(w: World, steps: seq<Step>, id: NodeId): Option<Edit>
    decreases |steps|
  {
    if steps == [] then None
    else
      var later := LastEdit(Apply(w, steps[0]), steps[1..], id);
      if later.Some? then later else Edits(w, steps[0], id)
  }

  function Bumped(w: World, steps: seq<Step>, id: NodeId): nat
    decreases |steps|
  {
    if steps == [] then 0
    else (if Bumps(w, steps[0], id) then 1 else 0) + Bumped(Apply(w, steps[0]), steps[1..], id)
  }

  /** The last word a run has on whether the engine is expected to end. */
  function LastExpected(w: World, steps: seq<Step>, id: NodeId): Option<bool>
    decreases |steps|
  {
    if steps == [] then None
    else
      var later := LastExpected(Apply(w, steps[0]), steps[1..], id);
      if later.Some? then later else Expects(w, steps[0], id)
  }

  /** Over every run: the recorded preferences are those of the last edit that went through, whatever
      packs were installed meanwhile; the generation counts the starts, stops and completed renewals; and
      whether the engine is expected to end is the last word on it. */
  lemma {:induction false} EntryRun(w: World, steps: seq<Step>, id: NodeId)
    requires Inv(w) && id in w.nodes && id in Run(w, steps).nodes
    ensures var e, e' := w.nodes[id], Run(w, steps).nodes[id];
            && EditOf(e'.spec) ==
                 (if LastEdit(w, steps, id).Some? then LastEdit(w, steps, id).value else EditOf(e.spec))
            && e'.generation == e.generation + Bumped(w, steps, id)
            && e'.expectedStop ==
                 if LastExpected(w, steps, id).Some? then LastExpected(w, steps, id).value else e.expectedStop
    decreases |steps|
  {
    if steps != [] {
      ManagedThroughout(w, steps[0], steps[1..], id);
      InvStep(w, steps[0]);
      FieldsStep(w, steps[0], id);
      EntryRun(Apply(w, steps[0]), steps[1..], id);
    }
  }

  // ----- the debt ---------------------------------------------------------------------------

  /** The wait doubles with every attempt, from one second, and is capped at thirty. */
  lemma BackoffDoubles(attempt: nat)
    requires attempt >= 1
    ensures Backoff(1) == 1
    ensures Backoff(attempt + 1) == if 2 * Backoff(attempt) <= 30 then 2 * Backoff(attempt) else 30
  {
  }

  /** No node owes more restarts than the policy grants, and a restarter of the current generation that is
      about to announce its wait announces that of the attempt just charged. */
  ghost predicate Charged(w: World) {
    && (forall id | id in w.nodes :: w.nodes[id].attempts <= w.budget)
    && (forall t | 0 <= t < |w.tasks| && w.tasks[t].Restarter? && w.tasks[t].rphase.Announcing?
                   && Current(w, w.tasks[t].id, w.tasks[t].gen) ::
          Due(w, w.tasks[t]))
  }

  predicate Due(w: World, k: Task)
    requires k.Restarter? && k.rphase.Announcing? && k.id in w.nodes
  {
    w.nodes[k.id].attempts >= 1 && k.rphase.backoff == Backoff(w.nodes[k.id].attempts)
  }

  lemma ChargedEntry(w: World, s: Step, id: NodeId)
    requires Inv(w) && Charged(w) && id in Apply(w, s).nodes
    ensures Apply(w, s).nodes[id].attempts <= Apply(w, s).budget
  {
    KeysStep(w, s, id);
    TasksMoveStep(w, s);
    if id in w.nodes { FieldsStep(w, s, id); }
  }

  lemma ChargedTask(w: World, s: Step, t: TaskId)
    requires Inv(w) && Charged(w) && t < |Apply(w, s).tasks|
    requires Apply(w, s).tasks[t].Restarter? && Apply(w, s).tasks[t].rphase.Announcing?
        && Current(Apply(w, s), Apply(w, s).tasks[t].id, Apply(w, s).tasks[t].gen)
    ensures Due(Apply(w, s), Apply(w, s).tasks[t])
  {
    TasksMoveStep(w, s);
    NodesMoveStep(w, s);
    KeysStep(w, s, Apply(w, s).tasks[t].id);
    if Actor(s, t) {
      ChargedOwn(w, s, t);
    } else {
      ChargedOther(w, s, Apply(w, s), t);
    }
  }

  lemma ChargedOwn(w: World, s: Step, t: TaskId)
    requires t < |w.tasks| && Actor(s, t) && t < |Apply(w, s).tasks|
    requires Apply(w, s).tasks[t].Restarter? && Apply(w, s).tasks[t].rphase.Announcing?
        && Current(Apply(w, s), Apply(w, s).tasks[t].id, Apply(w, s).tasks[t].gen)
    requires RestarterAt(w, t) && w.tasks[t].rphase.Announcing? && Current(w, w.tasks[t].id, w.tasks[t].gen) ==>
               Due(w, w.tasks[t])
    ensures Due(Apply(w, s), Apply(w, s).tasks[t])
  {
    match s
    case Call(_, c) => AnnouncesCall(w, t, c);
    case Listen(_, l) => AnnouncesListener(w, t, l);
    case Restart(_, r) => AnnouncesRestart(w, t, r);
    case Renew(_, n) => AnnouncesRenewal(w, t, n);
  }

  predicate Announces(w: World, t: TaskId) {
    RestarterAt(w, t) && w.tasks[t].rphase.Announcing?
  }

  lemma AnnouncesCall(w: World, t: TaskId, c: CallMove)
    ensures Announces(ApplyCall(w, t, c), t) && t < |w.tasks| ==> ApplyCall(w, t, c) == w
  {
  }

  lemma AnnouncesListener(w: World, t: TaskId, l: ListenerMove)
    ensures Announces(ApplyListener(w, t, l), t) && t < |w.tasks| ==> ApplyListener(w, t, l) == w
  {
  }

  lemma AnnouncesRenewal(w: World, t: TaskId, n: RenewalMove)
    ensures Announces(ApplyRenewal(w, t, n), t) && t < |w.tasks| ==> ApplyRenewal(w, t, n) == w
  {
  }

  lemma AnnouncesRestart(w: World, t: TaskId, r: RestartMove)
    ensures var w' := ApplyRestart(w, t, r);
            Announces(w', t) && t < |w.tasks| ==>
              || w' == w
              || (RestarterAt(w, t) && (Current(w', w'.tasks[t].id, w'.tasks[t].gen) ==> Due(w', w'.tasks[t])))
  {
  }

  /** Nobody else charges or clears the debt of a generation whose restarter is at work. */
  lemma ChargedOther(w: World, s: Step, w': World, t: TaskId)
    requires Inv(w) && Charged(w) && w' == Apply(w, s) && TasksMove(w, s, w') && NodesMove(w, s, w')
    requires t < |w'.tasks| && !Actor(s, t) && RestarterAt(w', t) && w'.tasks[t].rphase.Announcing?
    requires Current(w', w'.tasks[t].id, w'.tasks[t].gen) && KeysFollow(w, s, w', w'.tasks[t].id)
    ensures Due(w', w'.tasks[t])
  {
    assert t < |w.tasks| ==> w'.tasks[t] == w.tasks[t];
    assert t >= |w.tasks| ==> Spawned(w', w'.tasks[t]);
    var k := w.tasks[t];
    assert k.id in w.used;
    FieldsStep(w, s, k.id);
    assert NodeMoves(w, s, w', k.id);
    if s.Restart? && RestarterAt(w, s.t) { OneSupervisor(w, s.t, t); }
    if s.Listen? && ListenerAt(w, s.t) { assert Supervisor(w.tasks[s.t]) && Supervisor(k); }
  }

  lemma {:induction false} ChargedRun(w: World, steps: seq<Step>)
    requires Inv(w) && Charged(w)
    ensures Inv(Run(w, steps)) && Charged(Run(w, steps))
    decreases |steps|
  {
    if steps != [] {
      var w' := Apply(w, steps[0]);
      InvStep(w, steps[0]);
      forall id | id in w'.nodes ensures w'.nodes[id].attempts <= w'.budget { ChargedEntry(w, steps[0], id); }
      forall t | 0 <= t < |w'.tasks| && w'.tasks[t].Restarter? && w'.tasks[t].rphase.Announcing?
                 && Current(w', w'.tasks[t].id, w'.tasks[t].gen)
        ensures Due(w', w'.tasks[t])
      {
        ChargedTask(w, steps[0], t);
      }
      ChargedRun(w', steps[1..]);
    }
  }

  /** In every reachable world no node owes more than three restarts, and a restarter of the current
      generation announces a wait of one second at its first attempt, doubling up to thirty. */
  lemma AtMostThreeRestarts(profile: Profile, load: PackDir -> Option<Pack>, steps: seq<Step>)
    ensures var w := Run(Restore(profile, load), steps);
            && (forall id | id in w.nodes :: w.nodes[id].attempts <= 3)
            && Charged(w)
  {
    var w0 := Restore(profile, load);
    ChargedRun(w0, steps);
    BudgetStays(w0, steps);
  }

  lemma {:induction false} BudgetStays(w: World, steps: seq<Step>)
    ensures Run(w, steps).budget == w.budget
    decreases |steps|
  {
    if steps != [] {
      TasksMoveStep(w, steps[0]);
      BudgetStays(Apply(w, steps[0]), steps[1..]);
    }
  }

  // ----- restoring --------------------------------------------------------------------------

  /** A restored node is idle, wanted as persisted, with the persisted directory and preferences; what a
      pack says is read from its pack, and unknown, at generation zero, when that does not read. */
  lemma RestoredNode(profile: Profile, load: PackDir -> Option<Pack>, id: NodeId)
    requires id in profile
    ensures var p, e := profile[id], Restore(profile, load).nodes[id];
            && e == Entry(e.spec, None, p.desiredRunning, false, Stopped, None, None, 0, 0)
            && e.spec.dir == p.dir && EditOf(e.spec) == Edit(p.transport, p.quicAddr, p.addresses)
            && (match load(p.dir)
                case Some(pack) =>
                  && e.spec.kind == pack.kind && e.spec.name == pack.node && e.spec.principal == Some(pack.principal)
                  && e.spec.packGeneration == pack.generation && e.spec.digest == pack.digest
                case None => e.spec.principal.None? && e.spec.packGeneration == 0 && e.spec.digest == "")
  {
  }

  // ----- renewals that fail, starts that fail -----------------------------------------------

  /** The renewal's future ended in this error. */
  predicate Lost(k: Task, error: string) {
    || k.Done?
    || (k.Renewal? && k.nphase == Failing(error))
    || (k.RenewalTail? && k.error == error)
  }

  lemma LostStep(w: World, s: Step, t: TaskId, error: string)
    requires t < |w.tasks| && Lost(w.tasks[t], error)
    ensures t < |Apply(w, s).tasks| && Lost(Apply(w, s).tasks[t], error)
    ensures !(s.Renew? && s.t == t && s.n.Reinstall? && RenewalLoaded(w, t))
  {
    TasksMoveStep(w, s);
    if Actor(s, t) { LostOwn(w, s, t, error); }
  }

  lemma LostOwn(w: World, s: Step, t: TaskId, error: string)
    requires t < |w.tasks| && Lost(w.tasks[t], error) && Actor(s, t)
    ensures t < |Apply(w, s).tasks| && Lost(Apply(w, s).tasks[t], error)
  {
    match s
    case Call(_, c) =>
    case Listen(_, l) =>
    case Restart(_, r) =>
    case Renew(_, n) =>
  }

  /** A renewal whose future ended in an error never installs an engine: it ends by showing that error. */
  lemma {:induction false} LostForGood(w: World, steps: seq<Step>, t: TaskId, error: string)
    requires RenewalAt(w, t) && w.tasks[t].nphase.Waiting?
    ensures var w1 := Apply(w, Renew(t, FutureEnds(Some(error))));
            && t < |Run(w1, steps).tasks| && Lost(Run(w1, steps).tasks[t], error)
            && Writes(w1, Renew(t, Fail), w.tasks[t].id) ==
                 if Current(w, w.tasks[t].id, w.tasks[t].gen) then Some(Failed(error)) else None
  {
    LostRun(Apply(w, Renew(t, FutureEnds(Some(error)))), steps, t, error);
  }

  lemma {:induction false} LostRun(w: World, steps: seq<Step>, t: TaskId, error: string)
    requires t < |w.tasks| && Lost(w.tasks[t], error)
    ensures t < |Run(w, steps).tasks| && Lost(Run(w, steps).tasks[t], error)
    decreases |steps|
  {
    if steps != [] {
      LostStep(w, steps[0], t, error);
      LostRun(Apply(w, steps[0]), steps[1..], t, error);
    }
  }

  /** A start that is refused: at launch its reason is noted and then shown; a user's is told the caller. */
  lemma RefusalNoted(w: World, t: TaskId, error: string, others: seq<Step>)
    requires Inv(w) && IsStarter(w, t) && forall i | 0 <= i < |others| :: !Actor(others[i], t)
    ensures var k, w1 := w.tasks[t], Apply(w, Call(t, StartPrepareFails(error)));
            var w2 := Run(w1, others);
            && t < |w2.tasks|
            && (if !k.launch then w2.tasks[t].Done?
                else Writes(w2, Call(t, StartFailNote), k.id) == Some(Failed(error)))
  {
    var w1 := Apply(w, Call(t, StartPrepareFails(error)));
    InvStep(w, Call(t, StartPrepareFails(error)));
    TaskKept(w1, others, t);
  }

  // ----- engines and what watches them ------------------------------------------------------

  predicate IsAgent(kind: NodeKind) {
    kind.ExposeAgent? || kind.MeshAgent?
  }

  /** A loaded pack is of the kind its spec recorded, and a listener watches an engine of its sort. */
  ghost predicate Suits(w: World, k: Task) {
    match k
    case Listener(_, _, watched, agent, phase) =>
      && watched < |w.engines| && (agent <==> IsAgent(w.engines[watched].pack.kind))
      && (phase.Noted? || phase.Closing? ==> agent) && (phase.Terminal? ==> !agent)
    case Starter(_, prepared, pack, _) => pack.Some? ==> pack.value.kind == prepared.kind
    case Restarter(_, _, Preparing(prepared, pack)) => pack.Some? ==> pack.value.kind == prepared.kind
    case Renewal(_, _, Rebuilding(prepared, pack)) => pack.Some? ==> pack.value.kind == prepared.kind
    case _ => true
  }

  ghost predicate Suited(w: World) {
    forall t | 0 <= t < |w.tasks| :: Suits(w, w.tasks[t])
  }

  lemma SuitedUser(w: World, u: UserMove)
    requires Suited(w)
    ensures Suited(ApplyUser(w, u))
  {
  }

  lemma SuitedCall(w: World, t: TaskId, c: CallMove)
    requires Suited(w)
    ensures Suited(ApplyCall(w, t, c))
  {
    if c.StartCommit? { SuitedCommit(w, t, c.built, c.error); }
  }

  lemma SuitedCommit(w: World, t: TaskId, built: Option<NodeState>, error: string)
    requires Suited(w)
    ensures Suited(DoStartCommit(w, t, built, error))
  {
    if StartGoes(w, t) { assert Suits(w, w.tasks[t]); }
  }

  lemma SuitedListener(w: World, t: TaskId, l: ListenerMove)
    requires Suited(w)
    ensures Suited(ApplyListener(w, t, l))
  {
  }

  lemma SuitedRestart(w: World, t: TaskId, r: RestartMove)
    requires Suited(w)
    ensures Suited(ApplyRestart(w, t, r))
  {
  }

  lemma SuitedRenewal(w: World, t: TaskId, n: RenewalMove)
    requires Suited(w)
    ensures Suited(ApplyRenewal(w, t, n))
  {
  }

  lemma {:induction false} SuitedRun(w: World, steps: seq<Step>)
    requires Suited(w)
    ensures Suited(Run(w, steps))
    decreases |steps|
  {
    if steps != [] {
      match steps[0] {
        case User(u) => SuitedUser(w, u);
        case Call(t, c) => SuitedCall(w, t, c);
        case Listen(t, l) => SuitedListener(w, t, l);
        case Restart(t, r) => SuitedRestart(w, t, r);
        case Renew(t, n) => SuitedRenewal(w, t, n);
        case Deliver =>
        case EngineFlip(x, alive) =>
      }
      SuitedRun(Apply(w, steps[0]), steps[1..]);
    }
  }

  /** In every reachable world an engine is watched as what it is: an agent's through its watch and its
      healthy streaks, a hub's or an ingress's through its terminal state. */
  lemma WatchedAsItIs(profile: Profile, load: PackDir -> Option<Pack>, steps: seq<Step>)
    ensures Suited(Run(Restore(profile, load), steps))
  {
    SuitedRun(Restore(profile, load), steps);
  }
}
