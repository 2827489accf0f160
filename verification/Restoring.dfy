/** How a successful update ends, whatever ran between its sections. */
module Restoring {
  import opened Types
  import opened Supervision
  import opened Invariants
  import opened Stops
  import opened Sites
  import opened Identity
  import opened Histories
  import opened Updates

  // ----- what an update has left behind -----------------------------------------------------

  /** What had last been done to the directory when the update's own start loaded its pack. */
  function LoadedPut(site: Site, steps: seq<SiteStep>, u: nat, dir: string): Option<Option<Pack>> {
    if steps == [] then None
    else
      var n := |steps| - 1;
      if steps[n] == Move(u, LaunchLoads) && IsLaunching(RunSites(site, steps[..n]), u)
      then LastPut(site, steps[..n], dir)
      else LoadedPut(site, steps[..n], u, dir)
  }

  /** What the start under way has loaded is the last one put in the directory by then. */
  ghost predicate Prepared(site: Site, steps: seq<SiteStep>, u: nat, dir: string) {
    var end := RunSites(site, steps);
    && IsBuilding(end, u)
    && LoadedPut(site, steps, u, dir) == Some(end.world.tasks[end.updaters[u].progress.point.t].pack)
  }

  /** What a run has seen of an update that stopped its node at the start of it. */
  ghost predicate Trail(site: Site, steps: seq<SiteStep>, u: nat, k: Updater) {
    IsUnderway(RunSites(site, steps), u) ==>
      var point := RunSites(site, steps).updaters[u].progress.point;
      && !point.Approved?
      && (point.Placed? || point.Recorded? || StartUnderway(point) ==> LastPut(site, steps, k.dir).Some?)
      && (point.Recorded? || StartUnderway(point) ==> LastRecord(site, steps, k.id).Some?)
      && (point.Building? ==> Prepared(site, steps, u, k.dir))
  }

  /** A stop or start under way is not touched by anybody else. */
  lemma OwnedKept(site: Site, s: SiteStep, u: nat)
    requires SiteInv(site) && IsBuilding(site, u) && !(s.Move? && s.u == u)
    ensures var t := site.updaters[u].progress.point.t;
            t < |ApplySite(site, s).world.tasks| && ApplySite(site, s).world.tasks[t] == site.world.tasks[t]
  {
    var t := site.updaters[u].progress.point.t;
    assert OwnedTask(site.updaters[u]) == Some(t);
    StepIsAStep(site, s);
    if Within(site, s).Some? {
      var c := Within(site, s).value;
      TasksMoveStep(site.world, c);
      if Actor(c, t) && !c.Call? { StrangerStutters(site.world, c, t); }
      if c.Call? { assert c.t != t; }
    }
  }

  lemma PreparedKept(site: Site, steps: seq<SiteStep>, s: SiteStep, u: nat, dir: string)
    requires SiteInv(RunSites(site, steps)) && Prepared(site, steps, u, dir) && !(s.Move? && s.u == u)
    ensures Prepared(site, steps + [s], u, dir)
  {
    var mid := RunSites(site, steps);
    RunSitesSnoc(site, steps, s);
    OwnedKept(mid, s, u);
    PersistsStep(mid, s, u);
    assert (steps + [s])[..|steps|] == steps;
  }

  /** A start begins. */
  lemma LaunchLeads(mid: Site, u: nat)
    requires IsAt(mid, u, Recorded) && IsUnderway(ApplySite(mid, Move(u, Launch)), u)
    ensures IsLaunching(ApplySite(mid, Move(u, Launch)), u)
  {
  }

  /** It loads what its directory reads as, or is over. */
  lemma LoadLeads(mid: Site, u: nat)
    requires IsLaunching(mid, u) && Fits(mid, mid.updaters[u])
    ensures var k, next := mid.updaters[u], ApplySite(mid, Move(u, LaunchLoads));
            IsUnderway(next, u) ==>
              && IsBuilding(next, u) && next.updaters[u].progress.point.t == k.progress.point.t
              && next.world.tasks[k.progress.point.t].pack == Reads(mid.disk, k.dir)
  {
  }

  lemma PreparedByLoad(site: Site, steps: seq<SiteStep>, u: nat, dir: string)
    requires var mid := RunSites(site, steps);
             IsLaunching(mid, u) && mid.updaters[u].dir == dir && Fits(mid, mid.updaters[u])
    requires LastPut(site, steps, dir).Some? && IsUnderway(ApplySite(RunSites(site, steps), Move(u, LaunchLoads)), u)
    ensures Prepared(site, steps + [Move(u, LaunchLoads)], u, dir)
  {
    RunSitesSnoc(site, steps, Move(u, LaunchLoads));
    ReadsRun(site, steps, dir);
    LoadLeads(RunSites(site, steps), u);
    assert (steps + [Move(u, LaunchLoads)])[..|steps|] == steps;
  }

  lemma TrailStep(site: Site, steps: seq<SiteStep>, s: SiteStep, u: nat, k: Updater)
    requires SiteInv(site) && u < |site.updaters| && site.updaters[u] == k && k.id in site.world.nodes
    requires Trail(site, steps, u, k) && !k.progress.Snapped?
    ensures Trail(site, steps + [s], u, k)
  {
    var mid := RunSites(site, steps);
    RunSitesSnoc(site, steps, s);
    SiteInvRun(site, steps);
    PersistsRun(site, steps, u);
    PersistsStep(mid, s, u);
    assert (steps + [s])[..|steps|] == steps;
    if IsUnderway(ApplySite(mid, s), u) && s.Move? && s.u == u {
      TrailMove(site, steps, s.m, u, k);
    } else if IsUnderway(ApplySite(mid, s), u) && IsUnderway(mid, u) && mid.updaters[u].progress.point.Building? {
      PreparedKept(site, steps, s, u, k.dir);
    }
  }

  lemma TrailMove(site: Site, steps: seq<SiteStep>, m: UpdateMove, u: nat, k: Updater)
    requires SiteInv(site) && u < |site.updaters| && site.updaters[u] == k && k.id in site.world.nodes
        && !k.progress.Snapped?
    requires SiteInv(RunSites(site, steps)) && u < |RunSites(site, steps).updaters|
        && Persists(k, RunSites(site, steps).updaters[u])
    requires Trail(site, steps, u, k) && IsUnderway(ApplySite(RunSites(site, steps), Move(u, m)), u)
    ensures Trail(site, steps + [Move(u, m)], u, k)
  {
    var mid, s := RunSites(site, steps), Move(u, m);
    RunSitesSnoc(site, steps, s);
    Snocs(site, steps, s, k);
    if ApplySite(mid, s) == mid {
      if mid.updaters[u].progress.point.Building? { PreparedAgain(site, steps, s, u, k.dir); }
    } else if m.Launch? {
      LaunchLeads(mid, u);
    } else if m.LaunchLoads? {
      PreparedByLoad(site, steps, u, k.dir);
    } else if m.Place? {
      PlaceLeads(mid, u, m.swap);
    } else if m.Record? {
      RecordLeads(mid, u);
    } else {
      OtherwiseLeads(mid, u, m);
    }
  }

  lemma PreparedAgain(site: Site, steps: seq<SiteStep>, s: SiteStep, u: nat, dir: string)
    requires Prepared(site, steps, u, dir) && ApplySite(RunSites(site, steps), s) == RunSites(site, steps)
    ensures Prepared(site, steps + [s], u, dir)
  {
    RunSitesSnoc(site, steps, s);
    assert (steps + [s])[..|steps|] == steps;
  }

  lemma Snocs(site: Site, steps: seq<SiteStep>, s: SiteStep, k: Updater)
    ensures var mid, all := RunSites(site, steps), steps + [s];
            && LastPut(site, all, k.dir) == (if Puts(mid, s, k.dir).Some? then Puts(mid, s, k.dir)
                else LastPut(site, steps, k.dir))
            && LastRecord(site, all, k.id) == if Records(mid, s, k.id).Some? then Records(mid, s, k.id)
                else LastRecord(site, steps, k.id)
  {
    assert (steps + [s])[..|steps|] == steps;
  }

  /** Where the single sections lead, and what they leave behind. */
  lemma PlaceLeads(mid: Site, u: nat, swap: Swap)
    requires IsUnderway(ApplySite(mid, Move(u, Place(swap))), u)
    ensures IsUnderway(mid, u)
    ensures ApplySite(mid, Move(u, Place(swap))).updaters[u].progress.point ==
              (if IsAt(mid, u, Halted) then Placed else mid.updaters[u].progress.point)
    ensures IsAt(mid, u, Halted) ==> Puts(mid, Move(u, Place(swap)), mid.updaters[u].dir).Some?
    ensures !IsAt(mid, u, Halted) ==> ApplySite(mid, Move(u, Place(swap))) == mid
  {
  }

  lemma RecordLeads(mid: Site, u: nat)
    requires IsUnderway(ApplySite(mid, Move(u, Record)), u)
    ensures IsUnderway(mid, u)
    ensures ApplySite(mid, Move(u, Record)).updaters[u].progress.point == (if IsAt(mid, u, Placed) then Recorded
        else mid.updaters[u].progress.point)
    ensures IsAt(mid, u, Placed) ==> Records(mid, Move(u, Record), mid.updaters[u].id).Some?
    ensures !IsAt(mid, u, Placed) ==> ApplySite(mid, Move(u, Record)) == mid
  {
  }

  lemma OtherwiseLeads(mid: Site, u: nat, m: UpdateMove)
    requires IsUnderway(ApplySite(mid, Move(u, m)), u) && !m.Launch? && !m.LaunchLoads? && !m.Place?
        && !m.Record?
    ensures ApplySite(mid, Move(u, m)) == mid || m.Approve? || (IsUnderway(mid, u) && (m.Halt? || m.HaltEnds?))
    ensures ApplySite(mid, Move(u, m)) != mid ==>
              var point := ApplySite(mid, Move(u, m)).updaters[u].progress.point;
              (m.Approve? && point.Approved? && IsSnapped(mid, u)) || (m.Halt? && point.Halting?)
                  || (m.HaltEnds? && point.Halted?)
  {
    match m
    case Approve(source) =>
    case Halt =>
    case HaltEnds(ok) =>
    case LaunchEnds(outcome) =>
    case _ =>
  }

  lemma {:induction false} TrailRun(site: Site, steps: seq<SiteStep>, u: nat)
    requires SiteInv(site) && IsUnderway(site, u) && site.updaters[u].progress.point.Halting?
        && site.updaters[u].id in site.world.nodes
    ensures Trail(site, steps, u, site.updaters[u])
  {
    if steps != [] {
      var n := |steps| - 1;
      TrailRun(site, steps[..n], u);
      TrailStep(site, steps[..n], steps[n], u, site.updaters[u]);
      assert steps[..n] + [steps[n]] == steps;
    }
  }

  // ----- the slot ---------------------------------------------------------------------------

  /** Does a section raise or empty the slot for good: a start and a completed renewal may fill it, a
      stop and a sweep empty it. */
  function Raises(w: World, c: Step, id: NodeId): Option<bool> {
    if Starts(w, c, id) || Rearms(w, c, id) then Some(true)
    else if c == User(StopBegin(id)) || (c.User? && c.u.SweepBegin?) then Some(false)
    else None
  }

  /** The last word a run has on the slot is that it may be filled. */
  predicate Rose(site: Site, steps: seq<SiteStep>, id: NodeId) {
    if steps == [] then false
    else
      var n := |steps| - 1;
      var mid := RunSites(site, steps[..n]);
      var word := if Within(mid, steps[n]).Some? then Raises(mid.world, Within(mid, steps[n]).value, id) else None;
      if word.Some? then word.value else Rose(site, steps[..n], id)
  }

  lemma SilentStep(w: World, c: Step, id: NodeId)
    requires Inv(w) && id in w.used
    requires if Raises(w, c, id).Some? then !Raises(w, c, id).value else Silent(w, id)
    ensures Silent(Apply(w, c), id)
  {
    NodesMoveStep(w, c);
    if Raises(w, c, id).None? {
      SilentKept(w, c, Apply(w, c), id);
    } else if c == User(StopBegin(id)) {
      if id in w.nodes { StopTakesDown(w, id); }
    } else {
      SweepSilences(w, c.u.clear, id);
    }
  }

  lemma SweepSilences(w: World, clear: bool, id: NodeId)
    requires id in w.used
    ensures Silent(ApplyUser(w, SweepBegin(clear)), id)
  {
  }

  lemma {:induction false} SilentUnlessRose(site: Site, steps: seq<SiteStep>, id: NodeId)
    requires SiteInv(site) && id in site.world.nodes && Silent(site.world, id)
    ensures !Rose(site, steps, id) ==> Silent(RunSites(site, steps).world, id)
  {
    if steps != [] {
      var n := |steps| - 1;
      var mid := RunSites(site, steps[..n]);
      SilentUnlessRose(site, steps[..n], id);
      SiteInvRun(site, steps[..n]);
      GoneForever(site, steps[..n], id);
      StepIsAStep(mid, steps[n]);
      if !Rose(site, steps, id) && Within(mid, steps[n]).Some? {
        SilentStep(mid.world, Within(mid, steps[n]).value, id);
      }
    }
  }

  // ----- how it ends ------------------------------------------------------------------------

  /** The node is as the update promises: the captured intent, the source in place and in the cache, and,
      if it was wanted, a live engine built from it. */
  ghost predicate Restored(end: Site, k: Updater, source: Pack)
    requires k.id in end.world.nodes
  {
    var e := end.world.nodes[k.id];
    && e.desired == k.desired
    && Shows(e.spec, source)
    && Readable(end, k.id) == Some(source)
    && (k.desired ==> SlotAlive(end.world, k.id) && end.world.engines[e.engine.value].pack == source)
  }

  /** Read off the sections between the update's stop and its end: the last word on the intent is not a
      start (unless the node was wanted), and the last pack put in the directory, the last one recorded,
      and the last one put in the directory when the update's own start loaded it, are the update's. */
  ghost predicate Undisturbed(site: Site, steps: seq<SiteStep>, u: nat, k: Updater) {
    && (k.desired || LastWord(site, steps, k.id) != Some(true))
    && LastPut(site, steps, k.dir) == Some(k.source)
    && LastRecord(site, steps, k.id) == k.source
    && (k.desired ==> LoadedPut(site, steps, u, k.dir) == Some(k.source))
  }

  /** The update's last section is this one, and it reports success. */
  ghost predicate Succeeds(site: Site, steps: seq<SiteStep>, u: nat) {
    && steps != []
    && IsUnderway(RunSites(site, steps[..|steps| - 1]), u)
    && u < |RunSites(site, steps).updaters|
    && RunSites(site, steps).updaters[u].progress.Finished?
    && RunSites(site, steps).updaters[u].progress.result.Updated?
  }

  /** A section that ends an update in success: the end of its start, or, for a node that was not wanted,
      its refresh. */
  predicate IsLast(mid: Site, s: SiteStep, u: nat) {
    && IsUnderway(mid, u) && s.Move? && s.u == u
    && (if mid.updaters[u].desired
        then s.m.LaunchEnds? && s.m.outcome.Built? && IsBuilding(mid, u)
            && StartGoes(mid.world, mid.updaters[u].progress.point.t)
        else s.m.Record? && IsAt(mid, u, Placed))
  }

  lemma LastSection(mid: Site, s: SiteStep, u: nat)
    requires IsUnderway(mid, u) && Fits(mid, mid.updaters[u])
    requires u < |ApplySite(mid, s).updaters| && ApplySite(mid, s).updaters[u].progress.Finished?
    requires ApplySite(mid, s).updaters[u].progress.result.Updated?
    ensures var k := mid.updaters[u];
            && IsLast(mid, s, u) && k.id in mid.world.nodes
            && ApplySite(mid, s).updaters[u].progress.result == Success(k)
  {
    PersistsStep(mid, s, u);
    if s.Move? && s.u == u {
      match s.m
      case Record =>
      case LaunchEnds(outcome) =>
      case _ =>
    }
  }

  lemma BuildRuns(w: World, t: TaskId, state: NodeState)
    requires StartGoes(w, t)
    ensures var id, w' := w.tasks[t].id, ApplyCall(w, t, StartCommit(Some(state), ""));
            && id in w'.nodes && w'.nodes[id].desired && !w'.nodes[id].expectedStop && SlotAlive(w', id)
            && Some(w'.engines[w'.nodes[id].engine.value].pack) == w.tasks[t].pack
  {
  }

  /** A packed cache names its pack. */
  lemma ShowsOne(spec: Spec, a: Pack, b: Pack)
    requires Shows(spec, a)
    ensures Shows(spec, b) <==> a == b
  {
  }

  /** The window of a successful update: it begins right after the update's own stop section and ends
      with the update's last one. */
  ghost predicate Window(site: Site, steps: seq<SiteStep>, u: nat) {
    && SiteInv(site) && IsUnderway(site, u) && site.updaters[u].progress.point.Halting?
    && site.updaters[u].id in site.world.nodes && Down(site.world, site.updaters[u].id)
    && Succeeds(site, steps, u)
  }

  /** A stop section opens the window. */
  lemma WindowOpens(before: Site, u: nat, steps: seq<SiteStep>)
    requires SiteInv(before) && IsAt(before, u, Approved) && before.updaters[u].id in before.world.nodes
    ensures var site := ApplySite(before, Move(u, Halt));
            Window(site, steps, u) <==> Succeeds(site, steps, u)
  {
    SiteInvStep(before, Move(u, Halt));
    HaltsHere(before, u);
  }

  lemma HaltsHere(before: Site, u: nat)
    requires Inv(before.world) && IsAt(before, u, Approved) && before.updaters[u].id in before.world.nodes
    ensures var site := ApplySite(before, Move(u, Halt));
            && IsUnderway(site, u) && site.updaters[u].progress.point.Halting?
                && site.updaters[u].id == before.updaters[u].id
            && site.updaters[u].id in site.world.nodes && Down(site.world, site.updaters[u].id)
  {
    StopTakesDown(before.world, before.updaters[u].id);
    StopShape(before.world, before.updaters[u].id);
  }

  /** The last section of a window, seen from the site before it. */
  ghost predicate Ending(k: Updater, mid: Site, s: SiteStep, u: nat, end: Site) {
    && SiteInv(mid) && SiteInv(end) && IsLast(mid, s, u) && Persists(k, mid.updaters[u])
    && k.id in mid.world.nodes && k.id in end.world.nodes && DirOf(end, k.id) == k.dir
    && u < |end.updaters| && k.progress.Underway? && k.source.Some?
    && end.updaters[u].progress == Finished(Updated(k.progress.from, k.source.value.generation, k.desired))
  }

  lemma EndsThere(site: Site, steps: seq<SiteStep>, u: nat)
    requires Window(site, steps, u)
    ensures Ending(site.updaters[u], RunSites(site, steps[..|steps| - 1]), steps[|steps| - 1], u, RunSites(site, steps))
  {
    var n, k := |steps| - 1, site.updaters[u];
    var mid := RunSites(site, steps[..n]);
    SiteInvRun(site, steps[..n]);
    SiteInvRun(site, steps);
    PersistsRun(site, steps[..n], u);
    assert Fits(mid, mid.updaters[u]) && Fits(site, k);
    LastSection(mid, steps[n], u);
    NodeRemains(mid, steps[n], k.id);
    IdentityRun(site, steps, k.id);
  }

  /** The sections of an update remove no node. */
  lemma NodeRemains(site: Site, s: SiteStep, id: NodeId)
    requires s.Move? && id in site.world.nodes
    ensures id in ApplySite(site, s).world.nodes
  {
    StepIsAStep(site, s);
    if Within(site, s).Some? { KeepsNodes(site.world, Within(site, s).value, id); }
  }

  lemma KeepsNodes(w: World, c: Step, id: NodeId)
    requires id in w.nodes && (c.User? ==> c.u.StopBegin? || c.u.Refresh? || c.u.StartBegin?) && (c.User? || c.Call?)
    ensures id in Apply(w, c).nodes
  {
    if c.Call? { CallKeepsNodes(w, c.t, c.c, id); } else { UserKeepsNodes(w, c.u, id); }
  }

  lemma UserKeepsNodes(w: World, u: UserMove, id: NodeId)
    requires id in w.nodes && (u.StopBegin? || u.Refresh? || u.StartBegin?)
    ensures id in ApplyUser(w, u).nodes
  {
  }

  lemma CallKeepsNodes(w: World, t: TaskId, c: CallMove, id: NodeId)
    requires id in w.nodes
    ensures id in ApplyCall(w, t, c).nodes
  {
  }

  lemma LaunchWorld(mid: Site, u: nat, outcome: StartOutcome)
    requires IsBuilding(mid, u)
    ensures ApplySite(mid, Move(u, LaunchEnds(outcome))).world ==
              ApplyCall(mid.world, mid.updaters[u].progress.point.t, LaunchMove(outcome))
  {
  }

  lemma LaunchRuns(mid: Site, u: nat, s: SiteStep)
    requires IsLast(mid, s, u) && mid.updaters[u].desired && Fits(mid, mid.updaters[u])
    ensures var id, w' := mid.updaters[u].id, ApplySite(mid, s).world;
            && id in w'.nodes && w'.nodes[id].desired && !w'.nodes[id].expectedStop && SlotAlive(w', id)
            && mid.world.tasks[mid.updaters[u].progress.point.t].pack ==
                 Some(w'.engines[w'.nodes[id].engine.value].pack)
  {
    LaunchWorld(mid, u, s.m.outcome);
    BuildRuns(mid.world, mid.updaters[u].progress.point.t, s.m.outcome.state);
  }

  lemma LoadedPutKept(site: Site, steps: seq<SiteStep>, u: nat, dir: string)
    requires steps != [] && steps[|steps| - 1] != Move(u, LaunchLoads)
    ensures LoadedPut(site, steps, u, dir) == LoadedPut(site, steps[..|steps| - 1], u, dir)
  {
  }

  /** An update of a node that was wanted ends with the node wanted and running, whatever came between;
      the engine is of the last pack put in the directory when the update's own start loaded it. */
  lemma EndsRunning(site: Site, steps: seq<SiteStep>, u: nat)
    requires Window(site, steps, u) && site.updaters[u].desired
    ensures var k, end := site.updaters[u], RunSites(site, steps);
            && k.id in end.world.nodes && end.world.nodes[k.id].desired && !end.world.nodes[k.id].expectedStop
            && SlotAlive(end.world, k.id)
            && LoadedPut(site, steps, u, k.dir) ==
                 Some(Some(end.world.engines[end.world.nodes[k.id].engine.value].pack))
  {
    var n, k := |steps| - 1, site.updaters[u];
    var mid := RunSites(site, steps[..n]);
    EndsThere(site, steps, u);
    TrailRun(site, steps[..n], u);
    assert Fits(mid, mid.updaters[u]) && Prepared(site, steps[..n], u, k.dir);
    LaunchRuns(mid, u, steps[n]);
    LoadedPutKept(site, steps, u, k.dir);
  }

  lemma PutAndRecorded(site: Site, steps: seq<SiteStep>, u: nat)
    requires Window(site, steps, u)
    ensures var k := site.updaters[u];
            && LastPut(site, steps, k.dir).Some? && LastRecord(site, steps, k.id).Some?
            && (!k.desired ==> LastRecord(site, steps, k.id) == k.source)
  {
    var n, k := |steps| - 1, site.updaters[u];
    EndsThere(site, steps, u);
    TrailRun(site, steps[..n], u);
  }

  /** How a successful update ends. It reports the generations it checked and installed. The intent it
      leaves is the last word on it since its own stop: the captured one, exactly when the node was
      wanted or that word is not a start. All it promises holds exactly when it was undisturbed; and the
      slot is empty unless a start or a completed renewal had the last word on it. */
  ghost predicate EndsAsSaid(site: Site, steps: seq<SiteStep>, u: nat)
    requires IsUnderway(site, u)
  {
    var k, end := site.updaters[u], RunSites(site, steps);
    && u < |end.updaters| && k.id in end.world.nodes
    && end.updaters[u].progress == Finished(Updated(k.progress.from, k.source.value.generation, k.desired))
    && (end.world.nodes[k.id].desired == k.desired <==> k.desired || LastWord(site, steps, k.id) != Some(true))
    && (Restored(end, k, k.source.value) <==> Undisturbed(site, steps, u, k))
    && (!Rose(site, steps, k.id) ==> Silent(end.world, k.id))
  }

  lemma WindowEnds(site: Site, steps: seq<SiteStep>, u: nat)
    requires Window(site, steps, u)
    ensures EndsAsSaid(site, steps, u)
  {
    var k, end := site.updaters[u], RunSites(site, steps);
    EndsThere(site, steps, u);
    PutAndRecorded(site, steps, u);
    DesiredRun(site, steps, k.id);
    CacheRun(site, steps, k.id);
    ReadsRun(site, steps, k.dir);
    SilentUnlessRose(site, steps, k.id);
    ShowsOne(end.world.nodes[k.id].spec, LastRecord(site, steps, k.id).value, k.source.value);
    if k.desired { EndsRunning(site, steps, u); }
  }

  // ----- how a start that fails leaves the node ---------------------------------------------

  /** An update's own start that fails before its build changes nothing of the table. One that reaches its
      build and fails there leaves the node wanted, with an empty slot; no profile is queued, so that the
      disk still has what the update's stop left. */
  lemma LaunchFailureLeaves(mid: Site, u: nat, outcome: StartOutcome)
    requires IsBuilding(mid, u) && !outcome.Built?
    ensures var w, w' := mid.world, ApplySite(mid, Move(u, LaunchEnds(outcome))).world;
            var t := mid.updaters[u].progress.point.t;
            && w'.log == w.log && w'.nodes.Keys == w.nodes.Keys
            && (if outcome.BuildFailed? && StartGoes(w, t)
                then w'.nodes[w.tasks[t].id].desired && w'.nodes[w.tasks[t].id].engine.None?
                else w'.nodes == w.nodes)
  {
    LaunchWorld(mid, u, outcome);
    FailedBuild(mid.world, mid.updaters[u].progress.point.t, outcome);
  }

  lemma FailedBuild(w: World, t: TaskId, outcome: StartOutcome)
    requires IsLoaded(w, t) && !outcome.Built?
    ensures var w' := ApplyCall(w, t, LaunchMove(outcome));
            && w'.log == w.log && w'.nodes.Keys == w.nodes.Keys
            && (if outcome.BuildFailed? && StartGoes(w, t)
                then w'.nodes[w.tasks[t].id].desired && w'.nodes[w.tasks[t].id].engine.None?
                else w'.nodes == w.nodes)
  {
  }

  // ----- how a failure leaves the node ------------------------------------------------------

  /** What an update leaves of its node at any point after its own stop, and so when it fails there: the
      node is wanted exactly when the last word since the stop is a start, the update's own included;
      the captured intent of a wanted node is lost otherwise. */
  ghost predicate LeavesAsSaid(site: Site, steps: seq<SiteStep>, id: NodeId) {
    var end := RunSites(site, steps);
    id in end.world.nodes ==>
      && (end.world.nodes[id].desired <==> LastWord(site, steps, id) == Some(true))
      && (!Rose(site, steps, id) ==> Silent(end.world, id))
  }

  lemma StoppedLeaves(before: Site, u: nat, steps: seq<SiteStep>)
    requires SiteInv(before) && IsAt(before, u, Approved) && before.updaters[u].id in before.world.nodes
    ensures LeavesAsSaid(ApplySite(before, Move(u, Halt)), steps, before.updaters[u].id)
  {
    var site, id := ApplySite(before, Move(u, Halt)), before.updaters[u].id;
    SiteInvStep(before, Move(u, Halt));
    HaltsHere(before, u);
    if id in RunSites(site, steps).world.nodes { DesiredRun(site, steps, id); }
    SilentUnlessRose(site, steps, id);
  }
}
