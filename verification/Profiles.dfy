/** The persisted profile: what is saved, what is lost, and what a relaunch brings back. */
module Profiles {
  import opened Types
  import opened Supervision
  import opened Invariants
  import opened Stops

  /** The profile on disk once the queue is drained: the last one queued, else the one restored from. */
  function OnDisk(log: seq<Event>, base: Profile): Profile {
    if log == [] then base
    else if log[|log| - 1].PersistEvent? then log[|log| - 1].profile
    else OnDisk(log[..|log| - 1], base)
  }

  function Disk(w: World): Profile {
    OnDisk(w.log, w.base)
  }

  lemma OnDiskAfter(log: seq<Event>, ev: Event, base: Profile)
    ensures OnDisk(log + [ev], base) == if ev.PersistEvent? then ev.profile else OnDisk(log, base)
  {
    assert (log + [ev])[..|log|] == log;
  }

  lemma {:induction false} OnDiskStates(log: seq<Event>, log': seq<Event>, base: Profile)
    requires log <= log'
    requires forall i | |log| <= i < |log'| :: !log'[i].PersistEvent?
    ensures OnDisk(log', base) == OnDisk(log, base)
  {
    if |log'| == |log| {
      assert log' == log;
    } else {
      OnDiskStates(log, log'[..|log'| - 1], base);
    }
  }

  // ----- one step ---------------------------------------------------------------------------

  /** A start that turns the intent on in memory and then fails to build its engine. */
  predicate Flips(w: World, s: Step) {
    s.Call? && s.c.StartCommit? && s.c.built.None? && StartGoes(w, s.t) && !w.nodes[w.tasks[s.t].id].desired
  }

  predicate Saved(w: World) {
    Disk(w) == ProfileOf(w.nodes)
  }

  /** Did a profile enter the queue? */
  predicate Queues(w: World, w': World) {
    exists i | |w.log| <= i < |w'.log| :: w'.log[i].PersistEvent?
  }

  /** A step that queues a profile saves the one it leaves; any other leaves profile and disk alone. */
  ghost predicate Saves(w: World, w': World) {
    && w'.base == w.base
    && (if Queues(w, w') then Saved(w') else Disk(w') == Disk(w) && ProfileOf(w'.nodes) == ProfileOf(w.nodes))
  }

  /** Nothing a profile records about the node was changed and nothing was queued for the disk. */
  ghost predicate Untouched(w: World, w': World, id: NodeId) {
    && w'.base == w.base
    && (id in w.nodes <==> id in w'.nodes)
    && (id in w.nodes ==> ProfileEntryOf(w'.nodes[id]) == ProfileEntryOf(w.nodes[id]))
    && w.log <= w'.log
    && (forall i | |w.log| <= i < |w'.log| :: !w'.log[i].PersistEvent?)
  }

  lemma UntouchedSaves(w: World, w': World)
    requires forall id :: Untouched(w, w', id)
    ensures Saves(w, w')
  {
    assert Untouched(w, w', "");
    OnDiskStates(w.log, w'.log, w.base);
    assert w'.nodes.Keys == w.nodes.Keys by {
      forall id ensures id in w.nodes <==> id in w'.nodes { assert Untouched(w, w', id); }
    }
    forall id | id in w.nodes
      ensures ProfileEntryOf(w'.nodes[id]) == ProfileEntryOf(w.nodes[id])
    {
      assert Untouched(w, w', id);
    }
  }

  /** The profile was queued last, after every change. */
  lemma PersistedSaves(w: World, w1: World)
    requires w1.base == w.base && |w.log| <= |w1.log|
    ensures Saves(w, Persist(w1))
  {
    OnDiskAfter(w1.log, PersistEvent(ProfileOf(w1.nodes)), w1.base);
    assert Persist(w1).log[|w1.log|].PersistEvent?;
  }

  lemma UntouchedUser(w: World, u: UserMove, id: NodeId)
    requires (u.SweepBegin? && !u.clear) || u.Refresh? || u.StartBegin? || u.Settle?
    ensures Untouched(w, ApplyUser(w, u), id)
  {
  }

  lemma SavesUser(w: World, u: UserMove)
    ensures Saves(w, ApplyUser(w, u))
  {
    var w' := ApplyUser(w, u);
    if (u.SweepBegin? && !u.clear) || u.Refresh? || u.StartBegin? || u.Settle? {
      forall id ensures Untouched(w, w', id) { UntouchedUser(w, u, id); }
      UntouchedSaves(w, w');
    } else if w' != w {
      var w1 := w'.(log := w.log);
      assert w' == Persist(w1);
      PersistedSaves(w, w1);
    }
  }

  /** Only a start that reaches its engine build touches what a profile records. */
  lemma UntouchedCall(w: World, t: TaskId, c: CallMove, id: NodeId)
    requires !Flips(w, Call(t, c)) && !(c.StartCommit? && c.built.Some? && StartGoes(w, t))
    ensures Untouched(w, ApplyCall(w, t, c), id)
  {
  }

  lemma SavesCall(w: World, t: TaskId, c: CallMove)
    requires !Flips(w, Call(t, c))
    ensures Saves(w, ApplyCall(w, t, c))
  {
    if c.StartCommit? && c.built.Some? && StartGoes(w, t) {
      var k := w.tasks[t];
      PersistedSaves(w, StartLocked(SetTask(SetEntry(w, k.id, Started(w.nodes[k.id])), t, Done), k.id, k.prepared,
          k.pack.value, c.built));
    } else {
      forall id ensures Untouched(w, ApplyCall(w, t, c), id) { UntouchedCall(w, t, c, id); }
      UntouchedSaves(w, ApplyCall(w, t, c));
    }
  }

  lemma UntouchedListener(w: World, t: TaskId, l: ListenerMove, id: NodeId)
    ensures Untouched(w, ApplyListener(w, t, l), id)
  {
    if l.See? && ListenerAt(w, t) {
      UntouchedAgentSees(w, t, l.state, id);
      UntouchedServerSees(w, t, l.state, id);
    }
  }

  lemma UntouchedAgentSees(w: World, t: TaskId, state: NodeState, id: NodeId)
    requires ListenerAt(w, t)
    ensures Untouched(w, AgentSees(w, t, state), id)
  {
  }

  lemma UntouchedServerSees(w: World, t: TaskId, state: NodeState, id: NodeId)
    requires ListenerAt(w, t)
    ensures Untouched(w, ServerSees(w, t, state), id)
  {
  }

  lemma UntouchedInstall(w: World, t: TaskId, built: Option<NodeState>, id: NodeId)
    ensures Untouched(w, DoRestartInstall(w, t, built), id)
  {
  }

  lemma UntouchedRestart(w: World, t: TaskId, r: RestartMove, id: NodeId)
    ensures Untouched(w, ApplyRestart(w, t, r), id)
  {
    if r.Install? {
      UntouchedInstall(w, t, r.built, id);
    }
  }

  lemma UntouchedReinstall(w: World, t: TaskId, built: Option<NodeState>, error: string, id: NodeId)
    ensures Untouched(w, DoRenewalInstall(w, t, built, error), id)
  {
  }

  lemma UntouchedRenewal(w: World, t: TaskId, n: RenewalMove, id: NodeId)
    ensures Untouched(w, ApplyRenewal(w, t, n), id)
  {
    if n.Reinstall? {
      UntouchedReinstall(w, t, n.built, n.error, id);
    }
  }

  lemma SavesStep(w: World, s: Step)
    requires !Flips(w, s)
    ensures Saves(w, Apply(w, s))
  {
    match s
    case User(u) => SavesUser(w, u);
    case Call(t, c) => SavesCall(w, t, c);
    case Listen(t, l) =>
      forall id ensures Untouched(w, ApplyListener(w, t, l), id) { UntouchedListener(w, t, l, id); }
      UntouchedSaves(w, ApplyListener(w, t, l));
    case Restart(t, r) =>
      forall id ensures Untouched(w, ApplyRestart(w, t, r), id) { UntouchedRestart(w, t, r, id); }
      UntouchedSaves(w, ApplyRestart(w, t, r));
    case Renew(t, n) =>
      forall id ensures Untouched(w, ApplyRenewal(w, t, n), id) { UntouchedRenewal(w, t, n, id); }
      UntouchedSaves(w, ApplyRenewal(w, t, n));
    case Deliver =>
    case EngineFlip(x, alive) =>
  }

  // ----- runs -------------------------------------------------------------------------------

  lemma FlipLosesIntent(w: World, s: Step)
    requires Flips(w, s)
    ensures Disk(Apply(w, s)) == Disk(w) && Apply(w, s).base == w.base
    ensures var id := w.tasks[s.t].id;
            ProfileOf(Apply(w, s).nodes) == ProfileOf(w.nodes)[id := ProfileOf(w.nodes)[id].(desiredRunning := true)]
  {
    var id := w.tasks[s.t].id;
    var w' := Apply(w, s);
    assert w'.nodes == w.nodes[id := w'.nodes[id]];
  }

  /** The disk is never ahead of memory: it differs at most by an intent it still has off. */
  ghost predicate Behind(w: World) {
    && Disk(w).Keys == w.nodes.Keys
    && (forall id | id in w.nodes ::
          || ProfileEntryOf(w.nodes[id]) == Disk(w)[id]
          || ProfileEntryOf(w.nodes[id]) == Disk(w)[id].(desiredRunning := true))
  }

  lemma BehindFrom(w: World, w': World)
    requires Behind(w) && Saves(w, w')
    ensures Behind(w')
  {
    if !Saved(w') {
      forall id | id in w'.nodes
        ensures ProfileEntryOf(w'.nodes[id]) == ProfileEntryOf(w.nodes[id])
      {
        assert ProfileOf(w'.nodes)[id] == ProfileOf(w.nodes)[id];
      }
    }
  }

  lemma BehindStep(w: World, s: Step)
    requires Behind(w)
    ensures Behind(Apply(w, s))
  {
    if Flips(w, s) {
      FlipLosesIntent(w, s);
    } else {
      SavesStep(w, s);
      BehindFrom(w, Apply(w, s));
    }
  }

  lemma {:induction false} BehindRun(w: World, steps: seq<Step>)
    requires Behind(w)
    ensures Behind(Run(w, steps))
    decreases |steps|
  {
    if steps != [] {
      BehindStep(w, steps[0]);
      BehindRun(Apply(w, steps[0]), steps[1..]);
    }
  }

  /** Is a flipped intent still unsaved at the end of the run: flipped, with no profile queued since? */
  ghost predicate Owing(w: World, steps: seq<Step>, owed: bool)
    decreases |steps|
  {
    if steps == [] then owed
    else Owing(Apply(w, steps[0]), steps[1..], Flips(w, steps[0]) || (owed && !Queues(w, Apply(w, steps[0]))))
  }

  lemma OwingStep(w: World, s: Step)
    requires Behind(w)
    ensures Saved(Apply(w, s)) <==> !(Flips(w, s) || (!Saved(w) && !Queues(w, Apply(w, s))))
  {
    if Flips(w, s) {
      FlipLosesIntent(w, s);
      var id := w.tasks[s.t].id;
      assert ProfileOf(Apply(w, s).nodes)[id].desiredRunning && !Disk(w)[id].desiredRunning;
    } else {
      SavesStep(w, s);
    }
  }

  lemma {:induction false} OwingRun(w: World, steps: seq<Step>)
    requires Behind(w)
    ensures Saved(Run(w, steps)) <==> !Owing(w, steps, !Saved(w))
    decreases |steps|
  {
    if steps != [] {
      OwingStep(w, steps[0]);
      BehindStep(w, steps[0]);
      OwingRun(Apply(w, steps[0]), steps[1..]);
    }
  }

  /** The persist log refines the profile: the last profile queued is the manager's own exactly when no
      start has flipped an intent and failed to build since a profile was last queued; and at worst the
      disk still has such an intent off. */
  lemma PersistRefinesProfile(profile: Profile, load: PackDir -> Option<Pack>, steps: seq<Step>)
    ensures var w := Run(Restore(profile, load), steps);
            && Behind(w)
            && (Saved(w) <==> !Owing(Restore(profile, load), steps, false))
  {
    var w0 := Restore(profile, load);
    assert Saved(w0);
    BehindRun(w0, steps);
    OwingRun(w0, steps);
  }

  // ----- intents ----------------------------------------------------------------------------

  /** What a section says about a node's intent, if it says anything: a start that reaches its build
      wants the node, a stop and a stop-all do not. */
  function Says(w: World, c: Step, id: NodeId): Option<bool> {
    if Starts(w, c, id) then Some(true)
    else if c == User(StopBegin(id)) || c == User(SweepBegin(true)) then Some(false)
    else None
  }

  lemma DesiredStep(w: World, c: Step, id: NodeId)
    requires id in w.nodes && id in Apply(w, c).nodes && w.nodes.Keys <= w.used
    ensures Apply(w, c).nodes[id].desired == if Says(w, c, id).Some? then Says(w, c, id).value else w.nodes[id].desired
  {
    match c
    case User(u) => DesiredUser(w, u, id);
    case Call(t, m) => DesiredCall(w, t, m, id);
    case Listen(t, l) => UntouchedListener(w, t, l, id);
    case Restart(t, r) => UntouchedRestart(w, t, r, id);
    case Renew(t, n) => UntouchedRenewal(w, t, n, id);
    case Deliver =>
    case EngineFlip(x, alive) =>
  }

  lemma DesiredUser(w: World, u: UserMove, id: NodeId)
    requires id in w.nodes && id in ApplyUser(w, u).nodes && w.nodes.Keys <= w.used
    ensures ApplyUser(w, u).nodes[id].desired == (w.nodes[id].desired && u != StopBegin(id) && u != SweepBegin(true))
  {
  }

  lemma DesiredCall(w: World, t: TaskId, m: CallMove, id: NodeId)
    requires id in w.nodes && id in ApplyCall(w, t, m).nodes
    ensures ApplyCall(w, t, m).nodes[id].desired == if Starts(w, Call(t, m), id) then true else w.nodes[id].desired
  {
    if m.StartCommit? && StartGoes(w, t) {
      var k := w.tasks[t];
      if id == k.id {
        var w1 := SetEntry(w, k.id, Started(w.nodes[k.id]));
        StartLockedEntry(SetTask(w1, t, if m.built.Some? then Done else StartRefused(k, m.error)), id, k.prepared,
            k.pack.value, m.built);
      } else {
        assert ApplyCall(w, t, m).nodes[id] == w.nodes[id];
      }
    } else {
      UntouchedCall(w, t, m, id);
    }
  }

  function Desired(w: World): set<NodeId> {
    set id | id in w.nodes && w.nodes[id].desired
  }

  // ----- quit and relaunch ------------------------------------------------------------------

  /** A section of a call or task under way: no edit of the node table or of the preferences. */
  predicate IsClosing(c: Step) {
    c.User? ==> c.u.StopBegin? || c.u.Refresh? || c.u.StartBegin?
  }

  /** The same nodes with the same preferences, whatever they are wanted for. */
  ghost predicate SameButIntent(w: World, w': World, id: NodeId) {
    && (id in w.nodes <==> id in w'.nodes)
    && (id in w.nodes ==>
          ProfileEntryOf(w'.nodes[id]).(desiredRunning := true) == ProfileEntryOf(w.nodes[id]).(desiredRunning := true))
  }

  lemma ClosingCall(w: World, t: TaskId, c: CallMove, id: NodeId)
    ensures SameButIntent(w, ApplyCall(w, t, c), id)
  {
    if c.StartCommit? && StartGoes(w, t) {
      var k := w.tasks[t];
      if id == k.id {
        var w1 := SetEntry(w, k.id, Started(w.nodes[k.id]));
        StartLockedEntry(SetTask(w1, t, if c.built.Some? then Done else StartRefused(k, c.error)), id, k.prepared,
            k.pack.value, c.built);
      } else {
        assert id in w.nodes ==> ApplyCall(w, t, c).nodes[id] == w.nodes[id];
      }
    } else {
      UntouchedCall(w, t, c, id);
    }
  }

  lemma ClosingUser(w: World, u: UserMove, id: NodeId)
    requires IsClosing(User(u))
    ensures SameButIntent(w, ApplyUser(w, u), id)
  {
  }

  lemma ClosingStep(w: World, c: Step, id: NodeId)
    requires IsClosing(c)
    ensures SameButIntent(w, Apply(w, c), id)
  {
    match c
    case User(u) => ClosingUser(w, u, id);
    case Call(t, m) => ClosingCall(w, t, m, id);
    case Listen(t, l) => UntouchedListener(w, t, l, id);
    case Restart(t, r) => UntouchedRestart(w, t, r, id);
    case Renew(t, n) => UntouchedRenewal(w, t, n, id);
    case Deliver =>
    case EngineFlip(x, alive) =>
  }

  lemma QuitKeeps(w: World, clear: bool)
    ensures forall id :: SameButIntent(w, Apply(w, User(SweepBegin(clear))), id)
    ensures Desired(Apply(w, User(SweepBegin(clear)))) == if clear then {} else Desired(w)
  {
    forall id ensures SameButIntent(w, Apply(w, User(SweepBegin(clear))), id) { SweepSame(w, clear, id); }
    forall id
      ensures id in Desired(Apply(w, User(SweepBegin(clear)))) <==> !clear && id in Desired(w)
    {
      SweepSame(w, clear, id);
    }
  }

  lemma SweepSame(w: World, clear: bool, id: NodeId)
    ensures var w' := Apply(w, User(SweepBegin(clear)));
            SameButIntent(w, w', id) && (id in w.nodes ==> w'.nodes[id].desired == (w.nodes[id].desired && !clear))
  {
  }

  /** What a relaunch finds, from the world at the end: everything, up to intents owed to the disk. */
  lemma RelaunchFrom(w: World, w1: World, end: World, reload: PackDir -> Option<Pack>)
    requires Behind(end) && (forall id :: SameButIntent(w, w1, id)) && (forall id :: SameButIntent(w1, end, id))
    ensures var back := Restore(Disk(end), reload);
            && back.nodes.Keys == w.nodes.Keys && (forall id :: SameButIntent(w, back, id))
            && Desired(back) <= Desired(end) && (Desired(back) == Desired(end) <==> Saved(end))
  {
    DesiredComesBack(end, reload);
    SameThrough(w, w1, end);
    SameThrough(w, end, Restore(Disk(end), reload));
  }

  lemma SameThrough(a: World, b: World, c: World)
    requires (forall id :: SameButIntent(a, b, id)) && (forall id :: SameButIntent(b, c, id))
    ensures (forall id :: SameButIntent(a, c, id)) && a.nodes.Keys == c.nodes.Keys
  {
    forall id ensures SameButIntent(a, c, id) { assert SameButIntent(a, b, id) && SameButIntent(b, c, id); }
    forall id ensures id in a.nodes.Keys <==> id in c.nodes.Keys { assert SameButIntent(a, c, id); }
  }

  lemma RestoredEntry(disk: Profile, reload: PackDir -> Option<Pack>, id: NodeId)
    ensures var back := Restore(disk, reload);
            (id in back.nodes <==> id in disk) && (id in disk ==> ProfileEntryOf(back.nodes[id]) == disk[id])
  {
  }

  lemma DesiredComesBack(w: World, reload: PackDir -> Option<Pack>)
    requires Behind(w)
    ensures var back := Restore(Disk(w), reload);
            && (forall id :: SameButIntent(w, back, id))
            && Desired(back) <= Desired(w)
            && (Desired(back) == Desired(w) <==> Saved(w))
  {
    var disk, back := Disk(w), Restore(Disk(w), reload);
    forall id ensures (id in back.nodes <==> id in disk) && (id in disk ==>
        ProfileEntryOf(back.nodes[id]) == disk[id]) {
      RestoredEntry(disk, reload, id);
    }
    ComesBack(w, disk, back);
  }

  lemma ComesBack(w: World, disk: Profile, back: World)
    requires disk.Keys == w.nodes.Keys
    requires forall id | id in w.nodes ::
               || ProfileEntryOf(w.nodes[id]) == disk[id]
               || ProfileEntryOf(w.nodes[id]) == disk[id].(desiredRunning := true)
    requires forall id :: (id in back.nodes <==> id in disk) && (id in disk ==>
        ProfileEntryOf(back.nodes[id]) == disk[id])
    ensures (forall id :: SameButIntent(w, back, id)) && Desired(back) <= Desired(w)
    ensures Desired(back) == Desired(w) <==> disk == ProfileOf(w.nodes)
  {
    if disk == ProfileOf(w.nodes) {
      forall id | id in w.nodes
        ensures back.nodes[id].desired == w.nodes[id].desired
      {
        assert disk[id] == ProfileEntryOf(w.nodes[id]);
      }
    } else {
      var id := DesiredLost(w, disk);
      assert id in Desired(w) && id !in Desired(back);
    }
  }

  lemma DesiredLost(w: World, disk: Profile) returns (id: NodeId)
    requires disk.Keys == w.nodes.Keys && disk != ProfileOf(w.nodes)
    requires forall id | id in w.nodes ::
               || ProfileEntryOf(w.nodes[id]) == disk[id]
               || ProfileEntryOf(w.nodes[id]) == disk[id].(desiredRunning := true)
    ensures id in w.nodes && w.nodes[id].desired && !disk[id].desiredRunning
  {
    id :| id in disk && disk[id] != ProfileOf(w.nodes)[id];
  }
}
