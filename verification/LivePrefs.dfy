/** Live preference edits: the running engine's address table against the recorded preferences. */
module LivePrefs {
  import opened Types
  import opened Supervision
  import opened Invariants
  import opened Manager
  import opened Entries

  /** The last entry of an id wins, and only listed ids are wanted. */
  lemma {:induction false} LastEntryWins(prefs: seq<Pref>, id: string)
    requires AllAcceptable(prefs)
    ensures id in Wanted(prefs) <==> exists i | 0 <= i < |prefs| :: prefs[i].id == id
    ensures id in Wanted(prefs) ==>
              exists i | 0 <= i < |prefs| :: prefs[i].id == id && Wanted(prefs)[id] == prefs[i].address.canonical
                  && forall j | i < j < |prefs| :: prefs[j].id != id
  {
    if prefs != [] {
      var n := |prefs| - 1;
      LastEntryWins(prefs[..n], id);
      if prefs[n].id != id && id in Wanted(prefs[..n]) {
        var i :| 0 <= i < n && prefs[..n][i].id == id && Wanted(prefs[..n])[id] == prefs[..n][i].address.canonical
            && forall j | i < j < n :: prefs[..n][j].id != id;
        assert prefs[i].id == id && Wanted(prefs)[id] == prefs[i].address.canonical;
        forall j | i < j < |prefs| ensures prefs[j].id != id { if j < n { assert prefs[..n][j] == prefs[j]; } }
      }
    }
  }

  /** Editing entry by entry is replacing the whole, exactly when the live table held nothing that was
      neither recorded nor listed anew. */
  lemma EditReplacesIff(live: map<string, string>, recorded: map<string, string>, wanted: map<string, string>)
    ensures EditTable(live, recorded, wanted) == wanted <==> live.Keys <= recorded.Keys + wanted.Keys
  {
    var edited := EditTable(live, recorded, wanted);
    if edited == wanted {
      forall k | k in live ensures k in recorded.Keys + wanted.Keys {
        assert k !in recorded && k !in wanted ==> k in edited;
      }
    }
    if live.Keys <= recorded.Keys + wanted.Keys {
      assert edited.Keys == wanted.Keys;
    }
  }

  /** The live table, where there is one, is what is recorded. */
  ghost predicate Tracks(w: World, id: NodeId) {
    id in w.nodes && w.nodes[id].table.Some? ==> w.nodes[id].table.value == w.nodes[id].spec.addresses
  }

  /** An expose engine built from a spec that was read before the preferences were last edited. */
  predicate BuildsStale(w: World, s: Step, id: NodeId) {
    match s
    case Call(t, c) =>
      c.StartCommit? && StartGoes(w, t) && w.tasks[t].id == id && Outdated(w, w.tasks[t].prepared, id)
    case Restart(t, r) =>
      r.Install? && RestartLoaded(w, t) && w.tasks[t].id == id && MayRestart(w, w.tasks[t])
          && Outdated(w, w.tasks[t].rphase.prepared, id)
    case Renew(t, n) =>
      n.Reinstall? && RenewalLoaded(w, t) && w.tasks[t].id == id
          && Current(w, id, w.tasks[t].gen) && Outdated(w, w.tasks[t].nphase.prepared, id)
    case _ => false
  }

  predicate Outdated(w: World, prepared: Spec, id: NodeId) {
    id in w.nodes && prepared.kind.ExposeAgent? && prepared.addresses != w.nodes[id].spec.addresses
  }

  lemma TracksUser(w: World, u: UserMove, id: NodeId)
    requires w.nodes.Keys <= w.used && Tracks(w, id)
    ensures Tracks(ApplyUser(w, u), id)
  {
    if u.SetPrefs? && u.id == id && id in w.nodes && w.nodes[id].table.Some? {
      EditReplacesIff(w.nodes[id].table.value, w.nodes[id].spec.addresses, u.wanted);
    }
  }

  lemma TracksCall(w: World, t: TaskId, c: CallMove, id: NodeId)
    requires Tracks(w, id)
    ensures Tracks(ApplyCall(w, t, c), id) <==> !BuildsStale(w, Call(t, c), id)
  {
  }

  lemma TracksListener(w: World, t: TaskId, l: ListenerMove, id: NodeId)
    requires Tracks(w, id)
    ensures Tracks(ApplyListener(w, t, l), id)
  {
  }

  lemma TracksRestart(w: World, t: TaskId, r: RestartMove, id: NodeId)
    requires Tracks(w, id)
    ensures Tracks(ApplyRestart(w, t, r), id) <==> !BuildsStale(w, Restart(t, r), id)
  {
  }

  lemma TracksRenewal(w: World, t: TaskId, n: RenewalMove, id: NodeId)
    requires Tracks(w, id)
    ensures Tracks(ApplyRenewal(w, t, n), id) <==> !BuildsStale(w, Renew(t, n), id)
  {
  }

  /** A live table that is what is recorded stays so under every step, edits included, but one: building
      an expose engine from a spec read before an edit. */
  lemma TracksStepIff(w: World, s: Step, id: NodeId)
    requires w.nodes.Keys <= w.used && Tracks(w, id)
    ensures Tracks(Apply(w, s), id) <==> !BuildsStale(w, s, id)
  {
    match s
    case User(u) => TracksUser(w, u, id);
    case Call(t, c) => TracksCall(w, t, c, id);
    case Listen(t, l) => TracksListener(w, t, l, id);
    case Restart(t, r) => TracksRestart(w, t, r, id);
    case Renew(t, n) => TracksRenewal(w, t, n, id);
    case Deliver =>
    case EngineFlip(x, alive) =>
  }

  ghost predicate NeverBuildsStale(w: World, steps: seq<Step>, id: NodeId)
    decreases |steps|
  {
    steps == [] || (!BuildsStale(w, steps[0], id) && NeverBuildsStale(Apply(w, steps[0]), steps[1..], id))
  }

  lemma {:induction false} TracksRun(w: World, steps: seq<Step>, id: NodeId)
    requires Inv(w) && Tracks(w, id) && NeverBuildsStale(w, steps, id)
    ensures Tracks(Run(w, steps), id)
    decreases |steps|
  {
    if steps != [] {
      InvStep(w, steps[0]);
      TracksStepIff(w, steps[0], id);
      TracksRun(Apply(w, steps[0]), steps[1..], id);
    }
  }

  // ----- when a build is stale --------------------------------------------------------------

  /** The spec a start, a restart or a rebuild under way has read. */
  function Plan(k: Task): Option<Spec> {
    match k
    case Starter(_, prepared, _, _) => Some(prepared)
    case Restarter(_, _, Preparing(prepared, _)) => Some(prepared)
    case Renewal(_, _, Rebuilding(prepared, _)) => Some(prepared)
    case _ => None
  }

  /** What task `t` has read of the node's preferences, if anything, is what is recorded. */
  predicate Fresh(w: World, t: TaskId, id: NodeId) {
    t < |w.tasks| && Plan(w.tasks[t]).Some? && w.tasks[t].id == id && id in w.nodes ==>
      EditOf(Plan(w.tasks[t]).value) == EditOf(w.nodes[id].spec)
  }

  /** A task reads the spec as it is, and reads it again or keeps what it read. */
  ghost predicate PlanFollows(w: World, t: TaskId, w': World)
    requires t < |w.tasks| && t < |w'.tasks|
  {
    Plan(w'.tasks[t]).Some? ==>
      && (w'.tasks[t].Starter? || Carries(w'.tasks[t]))
      && (|| (Plan(w'.tasks[t]) == Plan(w.tasks[t]) && w'.tasks[t].id == w.tasks[t].id)
          || (w'.tasks[t].id in w.nodes && Plan(w'.tasks[t]).value == w.nodes[w'.tasks[t].id].spec))
  }

  lemma PlanCall(w: World, t: TaskId, c: CallMove)
    requires t < |w.tasks|
    ensures t < |ApplyCall(w, t, c).tasks| && PlanFollows(w, t, ApplyCall(w, t, c))
  {
  }

  lemma PlanListener(w: World, t: TaskId, l: ListenerMove)
    requires t < |w.tasks|
    ensures t < |ApplyListener(w, t, l).tasks| && PlanFollows(w, t, ApplyListener(w, t, l))
  {
  }

  lemma PlanRestart(w: World, t: TaskId, r: RestartMove)
    requires t < |w.tasks|
    ensures t < |ApplyRestart(w, t, r).tasks| && PlanFollows(w, t, ApplyRestart(w, t, r))
  {
  }

  lemma PlanRenewal(w: World, t: TaskId, n: RenewalMove)
    requires t < |w.tasks|
    ensures t < |ApplyRenewal(w, t, n).tasks| && PlanFollows(w, t, ApplyRenewal(w, t, n))
  {
  }

  lemma PlanOwn(w: World, s: Step, t: TaskId)
    requires t < |w.tasks| && Actor(s, t)
    ensures t < |Apply(w, s).tasks| && PlanFollows(w, t, Apply(w, s))
  {
    match s
    case Call(_, c) => PlanCall(w, t, c);
    case Listen(_, l) => PlanListener(w, t, l);
    case Restart(_, r) => PlanRestart(w, t, r);
    case Renew(_, n) => PlanRenewal(w, t, n);
  }

  /** A start reads the spec when it begins. */
  lemma PlanNew(w: World, s: Step, t: TaskId)
    requires |w.tasks| <= t < |Apply(w, s).tasks| && Plan(Apply(w, s).tasks[t]).Some?
    ensures s.User? && s.u.StartBegin? && s.u.id in w.nodes && Apply(w, s).nodes == w.nodes
    ensures Apply(w, s).tasks[t] == Starter(s.u.id, w.nodes[s.u.id].spec, None, s.u.launch)
  {
    TasksMoveStep(w, s);
    assert Spawned(Apply(w, s), Apply(w, s).tasks[t]);
  }

  lemma FreshStep(w: World, s: Step, t: TaskId, id: NodeId)
    requires Inv(w) && id in w.used && Fresh(w, t, id) && Edits(w, s, id).None?
    ensures Fresh(Apply(w, s), t, id)
  {
    var w' := Apply(w, s);
    if t < |w'.tasks| && Plan(w'.tasks[t]).Some? && w'.tasks[t].id == id && id in w'.nodes {
      TasksMoveStep(w, s);
      if t >= |w.tasks| {
        PlanNew(w, s, t);
      } else {
        if Actor(s, t) { PlanOwn(w, s, t); }
        KeysStep(w, s, id);
        FieldsStep(w, s, id);
      }
    }
  }

  lemma {:induction false} FreshRun(w: World, steps: seq<Step>, t: TaskId, id: NodeId)
    requires Inv(w) && id in w.used && Fresh(w, t, id) && LastEdit(w, steps, id).None?
    ensures Fresh(Run(w, steps), t, id)
    decreases |steps|
  {
    if steps != [] {
      InvStep(w, steps[0]);
      UsedGrows(w, steps[0]);
      FreshStep(w, steps[0], t, id);
      FreshRun(Apply(w, steps[0]), steps[1..], t, id);
    }
  }

  /** A build is stale only if an edit went through after its task read the spec: from any point where what
      a task has read, if anything, is what is recorded, a stale build comes after an edit. */
  lemma StaleNeedsEdit(w: World, steps: seq<Step>, s: Step, t: TaskId, id: NodeId)
    requires Inv(w) && id in w.used && Fresh(w, t, id) && Actor(s, t) && BuildsStale(Run(w, steps), s, id)
    ensures LastEdit(w, steps, id).Some?
  {
    if LastEdit(w, steps, id).None? { FreshRun(w, steps, t, id); }
  }
}
