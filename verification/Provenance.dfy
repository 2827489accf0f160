/** Whose pack an engine runs: every engine in a slot carries the identity of its node. */
module Provenance {
  import opened Types
  import opened Supervision
  import opened Invariants
  import opened Stops
  import opened Sites
  import opened Identity
  import opened States
  import opened Entries
  import opened LivePrefs

  /** What a start, a restart or a rebuild under way has loaded. */
  function Loaded(k: Task): Option<Pack> {
    match k
    case Starter(_, _, pack, _) => pack
    case Restarter(_, _, Preparing(_, pack)) => pack
    case Renewal(_, _, Rebuilding(_, pack)) => pack
    case _ => None
  }

  /** The step by which task `t` loads this pack. */
  predicate LoadsBy(c: Step, t: TaskId, pack: Pack) {
    c == Call(t, StartLoad(pack)) || c == Restart(t, Load(pack)) || c == Renew(t, Reload(pack))
  }

  /** A task has its pack from before, with what it was read for, or has loaded it in this very step. */
  ghost predicate LoadFollows(w: World, c: Step, w': World, t: TaskId)
    requires t < |w.tasks| && t < |w'.tasks|
  {
    Loaded(w'.tasks[t]).Some? ==>
      && Plan(w.tasks[t]).Some? && Plan(w'.tasks[t]) == Plan(w.tasks[t]) && w'.tasks[t].id == w.tasks[t].id
      && (Loaded(w'.tasks[t]) == Loaded(w.tasks[t]) || LoadsBy(c, t, Loaded(w'.tasks[t]).value))
  }

  lemma LoadCall(w: World, t: TaskId, c: CallMove)
    requires t < |w.tasks|
    ensures t < |ApplyCall(w, t, c).tasks| && LoadFollows(w, Call(t, c), ApplyCall(w, t, c), t)
  {
    if c.StartCommit? { LoadCommit(w, t, c.built, c.error); }
  }

  /** A build ends its start, and with it what the start has loaded. */
  lemma LoadCommit(w: World, t: TaskId, built: Option<NodeState>, error: string)
    requires t < |w.tasks|
    ensures t < |DoStartCommit(w, t, built, error).tasks|
    ensures Loaded(DoStartCommit(w, t, built, error).tasks[t]).None? || DoStartCommit(w, t, built, error) == w
  {
  }

  lemma LoadListener(w: World, t: TaskId, l: ListenerMove)
    requires t < |w.tasks|
    ensures t < |ApplyListener(w, t, l).tasks| && LoadFollows(w, Listen(t, l), ApplyListener(w, t, l), t)
  {
  }

  lemma LoadRestart(w: World, t: TaskId, r: RestartMove)
    requires t < |w.tasks|
    ensures t < |ApplyRestart(w, t, r).tasks| && LoadFollows(w, Restart(t, r), ApplyRestart(w, t, r), t)
  {
  }

  lemma LoadRenewal(w: World, t: TaskId, n: RenewalMove)
    requires t < |w.tasks|
    ensures t < |ApplyRenewal(w, t, n).tasks| && LoadFollows(w, Renew(t, n), ApplyRenewal(w, t, n), t)
  {
    if n.Reinstall? { LoadReinstall(w, t, n.built, n.error); }
  }

  lemma LoadReinstall(w: World, t: TaskId, built: Option<NodeState>, error: string)
    requires t < |w.tasks|
    ensures t < |DoRenewalInstall(w, t, built, error).tasks|
    ensures Loaded(DoRenewalInstall(w, t, built, error).tasks[t]).None? || DoRenewalInstall(w, t, built, error) == w
  {
  }

  lemma LoadStep(w: World, c: Step, t: TaskId)
    requires t < |w.tasks|
    ensures t < |Apply(w, c).tasks| && LoadFollows(w, c, Apply(w, c), t)
  {
    TasksMoveStep(w, c);
    if Actor(c, t) {
      match c
      case Call(_, m) => LoadCall(w, t, m);
      case Listen(_, l) => LoadListener(w, t, l);
      case Restart(_, r) => LoadRestart(w, t, r);
      case Renew(_, n) => LoadRenewal(w, t, n);
    }
  }

  // ----- engines ----------------------------------------------------------------------------

  /** Engines keep their pack, and a build installs what its task loaded. */
  ghost predicate PacksFollow(w: World, c: Step, w': World) {
    && |w.engines| <= |w'.engines|
    && (forall x | 0 <= x < |w.engines| :: w'.engines[x].pack == w.engines[x].pack)
    && (|w.engines| < |w'.engines| ==>
          && (c.Call? || c.Restart? || c.Renew?) && c.t < |w.tasks|
          && Loaded(w.tasks[c.t]) == Some(w'.engines[|w.engines|].pack))
  }

  lemma PacksUser(w: World, u: UserMove)
    ensures PacksFollow(w, User(u), ApplyUser(w, u))
  {
  }

  lemma PacksCall(w: World, t: TaskId, c: CallMove)
    ensures PacksFollow(w, Call(t, c), ApplyCall(w, t, c))
  {
  }

  lemma PacksListener(w: World, t: TaskId, l: ListenerMove)
    ensures PacksFollow(w, Listen(t, l), ApplyListener(w, t, l))
  {
  }

  lemma PacksRestart(w: World, t: TaskId, r: RestartMove)
    ensures PacksFollow(w, Restart(t, r), ApplyRestart(w, t, r))
  {
  }

  lemma PacksRenewal(w: World, t: TaskId, n: RenewalMove)
    ensures PacksFollow(w, Renew(t, n), ApplyRenewal(w, t, n))
  {
  }

  lemma PacksStep(w: World, c: Step)
    ensures PacksFollow(w, c, Apply(w, c))
  {
    match c
    case User(u) => PacksUser(w, u);
    case Call(t, m) => PacksCall(w, t, m);
    case Listen(t, l) => PacksListener(w, t, l);
    case Restart(t, r) => PacksRestart(w, t, r);
    case Renew(t, n) => PacksRenewal(w, t, n);
    case Deliver =>
    case EngineFlip(x, alive) =>
  }

  // ----- whose they are ---------------------------------------------------------------------

  /** What a task has read is of its node's directory, and what it has loaded of its node's identity. */
  ghost predicate TaskOwn(w: World, k: Task) {
    Plan(k).Some? ==>
      && k.id in w.used
      && (k.id in w.nodes ==>
            && Plan(k).value.dir == w.nodes[k.id].spec.dir
            && (Loaded(k).Some? ==> w.nodes[k.id].spec.principal == Some(Loaded(k).value.principal)))
  }

  ghost predicate SlotOwn(w: World, id: NodeId) {
    id in w.nodes && w.nodes[id].engine.Some? && w.nodes[id].engine.value < |w.engines| ==>
      w.nodes[id].spec.principal == Some(w.engines[w.nodes[id].engine.value].pack.principal)
  }

  ghost predicate Own(w: World) {
    && (forall t | 0 <= t < |w.tasks| :: TaskOwn(w, w.tasks[t]))
    && (forall id | id in w.nodes :: SlotOwn(w, id))
  }

  /** Whatever is loaded is what the directory of the spec at hand reads as. */
  lemma LoadIsRead(site: Site, s: SiteStep, t: TaskId, pack: Pack)
    requires Within(site, s).Some? && LoadsBy(Within(site, s).value, t, pack)
    requires t < |site.world.tasks| && Plan(site.world.tasks[t]).Some?
    requires Loaded(Apply(site.world, Within(site, s).value).tasks[t]) == Some(pack)
        && Loaded(site.world.tasks[t]) != Some(pack)
    ensures Reads(site.disk, Plan(site.world.tasks[t]).value.dir.canonical) == Some(pack)
  {
    LoadKinds(site.world, Within(site, s).value, t, pack);
  }

  /** A load moves only the kind of task it is for. */
  lemma LoadKinds(w: World, c: Step, t: TaskId, pack: Pack)
    requires LoadsBy(c, t, pack) && t < |w.tasks| && t < |Apply(w, c).tasks|
    requires Loaded(Apply(w, c).tasks[t]) == Some(pack) && Loaded(w.tasks[t]) != Some(pack)
    ensures match c
            case Call(_, _) => IsStarter(w, t)
            case Restart(_, _) => RestarterAt(w, t) && w.tasks[t].rphase.Preparing?
            case Renew(_, _) => RenewalAt(w, t) && w.tasks[t].nphase.Rebuilding?
            case _ => false
  {
  }

  lemma TaskStaysOwn(site: Site, s: SiteStep, site': Site, t: TaskId)
    requires SiteInv(site) && Own(site.world) && Follows(site, site') && Within(site, s).Some?
    requires site'.world == Apply(site.world, Within(site, s).value) && t < |site'.world.tasks|
    ensures TaskOwn(site'.world, site'.world.tasks[t])
  {
    var w, c, w' := site.world, Within(site, s).value, site'.world;
    TasksMoveStep(w, c);
    var k' := w'.tasks[t];
    if Plan(k').Some? {
      if t >= |w.tasks| {
        PlanNew(w, c, t);
      } else {
        assert TaskOwn(w, w.tasks[t]);
        LoadStep(w, c, t);
        if Actor(c, t) { PlanOwn(w, c, t); }
        if k'.id in w'.nodes { assert NodeFollows(site, site', k'.id); }
        if Loaded(k').Some? && Loaded(k') != Loaded(w.tasks[t]) && k'.id in w'.nodes {
          LoadIsRead(site, s, t, Loaded(k').value);
          assert Readable(site, k'.id) == Loaded(k');
        }
      }
    }
  }

  lemma SlotStaysOwn(site: Site, s: SiteStep, site': Site, id: NodeId)
    requires SiteInv(site) && Own(site.world) && Follows(site, site') && Within(site, s).Some?
    requires site'.world == Apply(site.world, Within(site, s).value) && id in site'.world.nodes
    ensures SlotOwn(site'.world, id)
  {
    var w, c, w' := site.world, Within(site, s).value, site'.world;
    KeysStep(w, c, id);
    PacksStep(w, c);
    if id in w.nodes {
      assert NodeFollows(site, site', id) && SlotOwn(w, id);
      FieldsStep(w, c, id);
      SlotFollows(w, c, w', id);
    }
  }

  lemma SlotFollows(w: World, c: Step, w': World, id: NodeId)
    requires SlotsBuilt(w) && (forall t | 0 <= t < |w.tasks| :: TaskOwn(w, w.tasks[t])) && SlotOwn(w, id)
    requires id in w.nodes && id in w'.nodes && w'.nodes[id].spec.principal == w.nodes[id].spec.principal
    requires PacksFollow(w, c, w') && FieldsFollow(w, c, w', id)
    ensures SlotOwn(w', id)
  {
    if Builds(w, c, id) { assert TaskOwn(w, w.tasks[c.t]); }
  }

  lemma OwnStep(site: Site, s: SiteStep)
    requires SiteInv(site) && Own(site.world)
    ensures Own(ApplySite(site, s).world)
  {
    var site' := ApplySite(site, s);
    StepFollows(site, s);
    StepIsAStep(site, s);
    if Within(site, s).Some? {
      forall t | 0 <= t < |site'.world.tasks| ensures TaskOwn(site'.world, site'.world.tasks[t]) {
        TaskStaysOwn(site, s, site', t);
      }
      forall id | id in site'.world.nodes ensures SlotOwn(site'.world, id) { SlotStaysOwn(site, s, site', id); }
    }
  }

  lemma {:induction false} OwnRun(site: Site, steps: seq<SiteStep>)
    requires SiteInv(site) && Own(site.world)
    ensures Own(RunSites(site, steps).world)
  {
    if steps != [] {
      var n := |steps| - 1;
      SiteInvRun(site, steps[..n]);
      OwnRun(site, steps[..n]);
      OwnStep(RunSites(site, steps[..n]), steps[n]);
    }
  }

  /** In every site a session without duplicates reaches, with any number of updates in flight, the engine in
      a node's slot runs a pack of the node's own identity: whatever started it loaded what the node's
      directory read as. */
  lemma EnginesRunTheirOwnIdentity(profile: Profile, disk: map<string, Pack>, steps: seq<SiteStep>, id: NodeId)
    requires NoDuplicates(Opened(profile, disk).world.nodes)
    ensures var w := RunSites(Opened(profile, disk), steps).world;
            id in w.nodes && w.nodes[id].engine.Some? ==>
              && w.nodes[id].engine.value < |w.engines|
              && w.nodes[id].spec.principal == Some(w.engines[w.nodes[id].engine.value].pack.principal)
  {
    OpenedInv(profile, disk);
    OwnRun(Opened(profile, disk), steps);
    SiteInvRun(Opened(profile, disk), steps);
    var w := RunSites(Opened(profile, disk), steps).world;
    if id in w.nodes { assert SlotOwn(w, id); }
  }
}
