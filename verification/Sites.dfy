/**
Pack updates in flight. A site is the manager together with the packs on disk and the update calls
that have begun. An update takes the lock for its snapshot, its stop, its refresh and its start, and
checks, swaps and loads packs without it; each of these is a step of its own, and any other step of
the manager, of another update or of the environment may come in between. Whatever starts an engine
loads what its directory reads as at that moment. A step that does not apply leaves the site as
it is, so every sequence of steps is a run.
*/
module Sites {
  import opened Types
  import opened Supervision

  /** The swap may fail before it touches the directory, after moving the old pack aside, or after
      the new pack is already in place. */
  datatype Swap = Swapped | SwapUntouched | SwapEmptied | SwapLate

  datatype StartOutcome = PackUnusable(error: string) | BuildFailed(error: string) | Built(state: NodeState)

  /** `Refused` is a check that failed; `Broken` a failure after the checks. */
  datatype UpdateResult =
    | Updated(from: nat, to: nat, restarted: bool)
    | Refused(reason: string)
    | Broken(reason: string)

  /** How far an accepted update has come; `Halting` names the stop under way, `Launching` the start and
      `Building` the start once its pack is loaded. */
  datatype Point =
    | Approved
    | Halting(t: TaskId)
    | Halted
    | Placed
    | Recorded
    | Launching(t: TaskId)
    | Building(t: TaskId)

  /** `from` is the generation the check found in place. */
  datatype Progress =
    | Snapped(principal: Option<string>, cached: nat)
    | Underway(from: nat, point: Point)
    | Finished(result: UpdateResult)

  /** One update call: the node, and the directory and intent its snapshot captured. */
  datatype Updater = Updater(id: NodeId, dir: string, desired: bool, source: Option<Pack>, progress: Progress)

  /** `disk` says what each (canonical) directory reads as. */
  datatype Site = Site(world: World, disk: map<string, Pack>, updaters: seq<Updater>)

  datatype UpdateMove =
    | Approve(source: Option<Pack>)
    | Halt
    | HaltEnds(ok: bool)
    | Place(swap: Swap)
    | Record
    | Launch
    | LaunchLoads
    | LaunchEnds(outcome: StartOutcome)

  /** `Vanish` is a directory that stops reading. */
  datatype SiteStep =
    | Core(s: Step)
    | Vanish(dir: string)
    | Snap(id: NodeId)
    | Move(u: nat, m: UpdateMove)

  // ----- steps ------------------------------------------------------------------------------

  /** The update's own start is under way. */
  predicate StartUnderway(point: Point) {
    point.Launching? || point.Building?
  }

  /** The stop or start an update waits for. */
  function OwnedTask(k: Updater): Option<TaskId> {
    if k.progress.Underway? && (k.progress.point.Halting? || StartUnderway(k.progress.point))
    then Some(k.progress.point.t)
    else None
  }

  predicate Owned(site: Site, t: TaskId) {
    exists u | 0 <= u < |site.updaters| :: OwnedTask(site.updaters[u]) == Some(t)
  }

  /** A node is added as its directory reads. */
  predicate AddFits(disk: map<string, Pack>, spec: Spec) {
    && spec.dir.canonical in disk
    && RefreshedSpec(spec, disk[spec.dir.canonical]) == spec
  }

  function Reads(disk: map<string, Pack>, dir: string): Option<Pack> {
    if dir in disk then Some(disk[dir]) else None
  }

  /** A pack is loaded as the directory of the spec at hand reads when it is loaded. */
  predicate LoadFits(site: Site, s: Step) {
    var w := site.world;
    match s
    case Call(t, StartLoad(pack)) =>
      IsStarter(w, t) ==> Reads(site.disk, w.tasks[t].prepared.dir.canonical) == Some(pack)
    case Restart(t, Load(pack)) =>
      RestarterAt(w, t) && w.tasks[t].rphase.Preparing? ==>
        Reads(site.disk, w.tasks[t].rphase.prepared.dir.canonical) == Some(pack)
    case Renew(t, Reload(pack)) =>
      RenewalAt(w, t) && w.tasks[t].nphase.Rebuilding? ==>
        Reads(site.disk, w.tasks[t].nphase.prepared.dir.canonical) == Some(pack)
    case _ => true
  }

  /** Only updates refresh caches, and only the update itself goes on with its own stop and start. */
  predicate Admitted(site: Site, s: Step) {
    && LoadFits(site, s)
    && match s
       case User(u) => !u.Refresh? && (u.Add? ==> AddFits(site.disk, u.spec))
       case Call(t, _) => !Owned(site, t)
       case _ => true
  }

  function SetProgress(site: Site, u: nat, p: Progress): Site
    requires u < |site.updaters|
  {
    site.(updaters := site.updaters[u := site.updaters[u].(progress := p)])
  }

  /** The snapshot; an unknown node ends the call at once. */
  function DoSnap(site: Site, id: NodeId): Site {
    var k :=
      if id in site.world.nodes then
        var e := site.world.nodes[id];
        Updater(id, e.spec.dir.canonical, e.desired, None, Snapped(e.spec.principal, e.spec.packGeneration))
      else Updater(id, "", false, None, Finished(Refused("unknown node")));
    site.(updaters := site.updaters + [k])
  }

  /** The generation in place as the check reads it: that of its pack, or the snapshot's cached one. */
  function FoundInPlace(disk: map<string, Pack>, dir: string, cached: nat): nat {
    if dir in disk then disk[dir].generation else cached
  }

  /** Where the checks lead; None for a source that does not load. */
  function Checks(disk: map<string, Pack>, k: Updater, source: Option<Pack>): Progress
    requires k.progress.Snapped?
  {
    var from := FoundInPlace(disk, k.dir, k.progress.cached);
    if source.None? then Finished(Refused("source pack rejected"))
    else if k.progress.principal.None? then Finished(Refused("identity cannot be verified"))
    else if k.progress.principal.value != source.value.principal then Finished(Refused("identity mismatch"))
    else if source.value.generation < from then Finished(Refused("downgrade refused"))
    else Underway(from, Approved)
  }

  predicate IsSnapped(site: Site, u: nat) {
    u < |site.updaters| && site.updaters[u].progress.Snapped?
  }

  predicate IsUnderway(site: Site, u: nat) {
    u < |site.updaters| && site.updaters[u].progress.Underway? && site.updaters[u].source.Some?
  }

  predicate IsAt(site: Site, u: nat, point: Point) {
    IsUnderway(site, u) && site.updaters[u].progress.point == point
  }

  function DoApprove(site: Site, u: nat, source: Option<Pack>): Site {
    if !IsSnapped(site, u) then site
    else
      var k := site.updaters[u];
      site.(updaters := site.updaters[u := k.(source := source, progress := Checks(site.disk, k, source))])
  }

  function DoHalt(site: Site, u: nat): Site {
    if !IsAt(site, u, Approved) then site
    else
      var k := site.updaters[u];
      if k.id !in site.world.nodes then SetProgress(site, u, Finished(Broken("unknown node")))
      else SetProgress(site.(world := DoStopBegin(site.world, k.id)), u,
          Underway(k.progress.from, Halting(|site.world.tasks|)))
  }

  predicate IsHalting(site: Site, u: nat) {
    && IsUnderway(site, u) && site.updaters[u].progress.point.Halting?
    && site.updaters[u].progress.point.t < |site.world.tasks|
    && site.world.tasks[site.updaters[u].progress.point.t].Stopper?
  }

  function DoHaltEnds(site: Site, u: nat, ok: bool): Site {
    if !IsHalting(site, u) then site
    else
      var k := site.updaters[u];
      var t := k.progress.point.t;
      SetProgress(site.(world := DoStopEnd(site.world, t, ok)), u,
                  if site.world.tasks[t].hand.Some? && !ok then Finished(Broken("shutdown failed"))
                  else Underway(k.progress.from, Halted))
  }

  function SwapDisk(disk: map<string, Pack>, dir: string, source: Pack, swap: Swap): map<string, Pack> {
    match swap
    case SwapUntouched => disk
    case SwapEmptied => disk - {dir}
    case _ => disk[dir := source]
  }

  function DoPlace(site: Site, u: nat, swap: Swap): Site {
    if !IsAt(site, u, Halted) then site
    else
      var k := site.updaters[u];
      SetProgress(site.(disk := SwapDisk(site.disk, k.dir, k.source.value, swap)), u,
                  if swap.Swapped? then Underway(k.progress.from, Placed) else Finished(Broken("pack swap failed")))
  }

  function Success(k: Updater): UpdateResult
    requires k.progress.Underway? && k.source.Some?
  {
    Updated(k.progress.from, k.source.value.generation, k.desired)
  }

  function DoRecord(site: Site, u: nat): Site {
    if !IsAt(site, u, Placed) then site
    else
      var k := site.updaters[u];
      if k.id !in site.world.nodes then SetProgress(site, u, Finished(Broken("unknown node")))
      else SetProgress(site.(world := DoRefresh(site.world, k.id, k.source.value)), u,
                       if k.desired then Underway(k.progress.from, Recorded) else Finished(Success(k)))
  }

  function DoLaunch(site: Site, u: nat): Site {
    if !IsAt(site, u, Recorded) then site
    else
      var k := site.updaters[u];
      if k.id !in site.world.nodes then SetProgress(site, u, Finished(Broken("unknown node")))
      else SetProgress(site.(world := DoStartBegin(site.world, k.id, false)), u,
                       Underway(k.progress.from, Launching(|site.world.tasks|)))
  }

  predicate IsLaunching(site: Site, u: nat) {
    && IsUnderway(site, u) && site.updaters[u].progress.point.Launching?
    && IsStarter(site.world, site.updaters[u].progress.point.t)
    && site.world.tasks[site.updaters[u].progress.point.t].pack.None?
  }

  /** The update's own start loads its pack; a directory that does not read, or reads as a pack of
      another kind than the start was prepared for, ends it. */
  function LoadMove(disk: map<string, Pack>, prepared: Spec): CallMove {
    match Reads(disk, prepared.dir.canonical)
    case Some(pack) => if pack.kind == prepared.kind then StartLoad(pack) else StartPrepareFails("wrong kind")
    case None => StartPrepareFails("Credential Pack rejected")
  }

  function DoLaunchLoads(site: Site, u: nat): Site {
    if !IsLaunching(site, u) then site
    else
      var k := site.updaters[u];
      var t := k.progress.point.t;
      var c := LoadMove(site.disk, site.world.tasks[t].prepared);
      SetProgress(site.(world := ApplyCall(site.world, t, c)), u,
                  if c.StartLoad? then Underway(k.progress.from, Building(t)) else Finished(Broken("start failed")))
  }

  /** Its pack is loaded; what is left is the rest of the preparation and the build. */
  predicate IsBuilding(site: Site, u: nat) {
    && IsUnderway(site, u) && site.updaters[u].progress.point.Building?
    && IsLoaded(site.world, site.updaters[u].progress.point.t)
  }

  function LaunchMove(outcome: StartOutcome): CallMove {
    match outcome
    case PackUnusable(error) => StartPrepareFails(error)
    case BuildFailed(error) => StartCommit(None, error)
    case Built(state) => StartCommit(Some(state), "")
  }

  function DoLaunchEnds(site: Site, u: nat, outcome: StartOutcome): Site {
    if !IsBuilding(site, u) then site
    else
      var k := site.updaters[u];
      var t := k.progress.point.t;
      SetProgress(site.(world := ApplyCall(site.world, t, LaunchMove(outcome))), u,
                  Finished(if outcome.Built? && StartGoes(site.world, t) then Success(k) else Broken("start failed")))
  }

  function ApplyMove(site: Site, u: nat, m: UpdateMove): Site {
    match m
    case Approve(source) => DoApprove(site, u, source)
    case Halt => DoHalt(site, u)
    case HaltEnds(ok) => DoHaltEnds(site, u, ok)
    case Place(swap) => DoPlace(site, u, swap)
    case Record => DoRecord(site, u)
    case Launch => DoLaunch(site, u)
    case LaunchLoads => DoLaunchLoads(site, u)
    case LaunchEnds(outcome) => DoLaunchEnds(site, u, outcome)
  }

  function ApplySite(site: Site, s: SiteStep): Site {
    match s
    case Core(c) => if Admitted(site, c) then site.(world := Apply(site.world, c)) else site
    case Vanish(dir) => site.(disk := site.disk - {dir})
    case Snap(id) => DoSnap(site, id)
    case Move(u, m) => ApplyMove(site, u, m)
  }

  function RunSites(site: Site, steps: seq<SiteStep>): Site {
    if steps == [] then site
    else ApplySite(RunSites(site, steps[..|steps| - 1]), steps[|steps| - 1])
  }

  lemma RunSitesSnoc(site: Site, steps: seq<SiteStep>, s: SiteStep)
    ensures RunSites(site, steps + [s]) == ApplySite(RunSites(site, steps), s)
  {
    assert (steps + [s])[..|steps|] == steps;
  }

  lemma {:induction false} RunSitesAppend(site: Site, a: seq<SiteStep>, b: seq<SiteStep>)
    ensures RunSites(site, a + b) == RunSites(RunSites(site, a), b)
  {
    if b == [] {
      assert a + b == a;
    } else {
      var n := |b| - 1;
      assert a + b == a + b[..n] + [b[n]];
      RunSitesSnoc(site, a + b[..n], b[n]);
      RunSitesAppend(site, a, b[..n]);
    }
  }

  lemma RunSitesSplit(site: Site, steps: seq<SiteStep>, n: nat)
    requires n <= |steps|
    ensures RunSites(site, steps) == RunSites(RunSites(site, steps[..n]), steps[n..])
  {
    assert steps[..n] + steps[n..] == steps;
    RunSitesAppend(site, steps[..n], steps[n..]);
  }

  // ----- the manager's part of a step -------------------------------------------------------

  /** The step of the manager a step of the site amounts to, if any. */
  function Within(site: Site, s: SiteStep): Option<Step> {
    match s
    case Core(c) => if Admitted(site, c) then Some(c) else None
    case Vanish(_) => None
    case Snap(_) => None
    case Move(u, m) => WithinMove(site, u, m)
  }

  function WithinMove(site: Site, u: nat, m: UpdateMove): Option<Step> {
    match m
    case Halt => if IsAt(site, u, Approved) then Some(User(StopBegin(site.updaters[u].id))) else None
    case HaltEnds(ok) => if IsHalting(site, u) then Some(Call(site.updaters[u].progress.point.t, StopEnd(ok))) else None
    case Record => if IsAt(site, u, Placed) then Some(User(Refresh(site.updaters[u].id, site.updaters[u].source.value)))
        else None
    case Launch => if IsAt(site, u, Recorded) then Some(User(StartBegin(site.updaters[u].id, false))) else None
    case LaunchLoads =>
      if IsLaunching(site, u) then
        var t := site.updaters[u].progress.point.t;
        Some(Call(t, LoadMove(site.disk, site.world.tasks[t].prepared)))
      else None
    case LaunchEnds(outcome) =>
      if IsBuilding(site, u) then Some(Call(site.updaters[u].progress.point.t, LaunchMove(outcome))) else None
    case _ => None
  }

  lemma MoveIsAStep(site: Site, u: nat, m: UpdateMove)
    ensures ApplyMove(site, u, m).world ==
              if WithinMove(site, u, m).Some? then Apply(site.world, WithinMove(site, u, m).value) else site.world
  {
    if m.HaltEnds? || m.LaunchLoads? || m.LaunchEnds? { EndIsACall(site, u, m); } else { MoveIsACall(site, u, m); }
  }

  lemma EndIsACall(site: Site, u: nat, m: UpdateMove)
    requires m.HaltEnds? || m.LaunchLoads? || m.LaunchEnds?
    ensures var c := WithinMove(site, u, m);
            && (c.Some? ==> c.value.Call? && ApplyMove(site, u, m).world == ApplyCall(site.world, c.value.t, c.value.c))
            && (c.None? ==> ApplyMove(site, u, m) == site)
  {
  }

  lemma MoveIsACall(site: Site, u: nat, m: UpdateMove)
    requires !m.HaltEnds? && !m.LaunchLoads? && !m.LaunchEnds?
    ensures var c := WithinMove(site, u, m);
            && (c.Some? ==> c.value.User? && ApplyMove(site, u, m).world == ApplyUser(site.world, c.value.u))
            && (c.None? ==> ApplyMove(site, u, m).world == site.world)
  {
  }

  lemma StepIsAStep(site: Site, s: SiteStep)
    ensures ApplySite(site, s).world == if Within(site, s).Some? then Apply(site.world, Within(site, s).value)
        else site.world
  {
    if s.Move? { MoveIsAStep(site, s.u, s.m); }
  }

  /** The manager's steps of a run of the site, in order. */
  function StepsWithin(site: Site, steps: seq<SiteStep>): seq<Step> {
    if steps == [] then []
    else
      var n := |steps| - 1;
      var last := Within(RunSites(site, steps[..n]), steps[n]);
      StepsWithin(site, steps[..n]) + if last.Some? then [last.value] else []
  }

  /** Whatever updates do to the table is a run of the protocol's own sections, so every theorem about
      runs of the manager holds with updates in flight. */
  lemma {:induction false} SiteRunIsARun(site: Site, steps: seq<SiteStep>)
    ensures RunSites(site, steps).world == Run(site.world, StepsWithin(site, steps))
  {
    if steps != [] {
      var n := |steps| - 1;
      SiteRunIsARun(site, steps[..n]);
      StepIsAStep(RunSites(site, steps[..n]), steps[n]);
      var last := Within(RunSites(site, steps[..n]), steps[n]);
      if last.Some? {
        RunSnoc(site.world, StepsWithin(site, steps[..n]), last.value);
      } else {
        assert StepsWithin(site, steps[..n]) + [] == StepsWithin(site, steps[..n]);
      }
    }
  }

  // ----- packs and caches -------------------------------------------------------------------

  function DirOf(site: Site, id: NodeId): string
    requires id in site.world.nodes
  {
    site.world.nodes[id].spec.dir.canonical
  }

  function Readable(site: Site, id: NodeId): Option<Pack>
    requires id in site.world.nodes
  {
    Reads(site.disk, DirOf(site, id))
  }

  function Cached(site: Site, id: NodeId): nat
    requires id in site.world.nodes
  {
    site.world.nodes[id].spec.packGeneration
  }

  /** The generation in place: that of its pack, or the cached one when no pack reads. */
  function InPlace(site: Site, id: NodeId): nat
    requires id in site.world.nodes
  {
    FoundInPlace(site.disk, DirOf(site, id), Cached(site, id))
  }

  /** The packs as a session finds them, no update in flight. */
  function Opened(profile: Profile, disk: map<string, Pack>): Site {
    Site(Restore(profile, (d: PackDir) => Reads(disk, d.canonical)), disk, [])
  }
}
