/** One identity runs at most once, and an update never changes who a node is. */
module Identity {
  import opened Types
  import opened Supervision
  import opened Invariants
  import opened Sites

  ghost predicate NoDuplicates(nodes: map<NodeId, Entry>) {
    forall a, b | a in nodes && b in nodes && a != b :: !Conflict(nodes[a].spec, nodes[b].spec)
  }

  // ----- what updates in flight rely on -----------------------------------------------------

  /** The identity an update that is not over stands for. */
  function Claims(k: Updater): Option<string> {
    match k.progress
    case Snapped(principal, _) => principal
    case Underway(_, _) => if k.source.Some? then Some(k.source.value.principal) else None
    case Finished(_) => None
  }

  /** Whatever is in the directory, and whatever node has it, is of one identity. */
  ghost predicate OneIdentity(site: Site, dir: string, principal: string) {
    && (dir in site.disk ==> site.disk[dir].principal == principal)
    && (forall o | o in site.world.nodes && DirOf(site, o) == dir ::
        site.world.nodes[o].spec.principal == Some(principal))
  }

  /** The stop or start an update waits for is its own, and the start is of its directory. */
  ghost predicate Holds(w: World, k: Updater) {
    OwnedTask(k).Some? ==>
      var t := k.progress.point.t;
      && t < |w.tasks|
      && (if k.progress.point.Halting? then w.tasks[t].Stopper?
          else
            && w.tasks[t].Starter? && w.tasks[t].prepared.dir.canonical == k.dir
            && (w.tasks[t].pack.Some? <==> k.progress.point.Building?))
      && w.tasks[t].id == k.id
  }

  /** An accepted update has a source no older than what the check found; only a wanted node is started. */
  predicate Consistent(k: Updater) {
    k.progress.Underway? ==>
      && k.source.Some? && k.progress.from <= k.source.value.generation
      && (k.progress.point.Recorded? || StartUnderway(k.progress.point) ==> k.desired)
  }

  ghost predicate Fits(site: Site, k: Updater) {
    && Consistent(k)
    && (Claims(k).Some? ==> OneIdentity(site, k.dir, Claims(k).value))
    && (!k.progress.Finished? ==> k.id in site.world.used && (k.id in site.world.nodes ==> DirOf(site, k.id) == k.dir))
    && Holds(site.world, k)
  }

  ghost predicate Agree(k: Updater, l: Updater) {
    Claims(k).Some? && Claims(l).Some? && k.dir == l.dir ==> Claims(k) == Claims(l)
  }

  ghost predicate DiskAgrees(site: Site) {
    forall id | id in site.world.nodes && Readable(site, id).Some? ::
      site.world.nodes[id].spec.principal == Some(Readable(site, id).value.principal)
  }

  ghost predicate UpdatersFit(site: Site) {
    && (forall u | 0 <= u < |site.updaters| :: Fits(site, site.updaters[u]))
    && (forall u, v | 0 <= u < |site.updaters| && 0 <= v < |site.updaters| :: Agree(site.updaters[u], site.updaters[v]))
    && (forall u, v | 0 <= u < |site.updaters| && 0 <= v < |site.updaters| && OwnedTask(site.updaters[u]).Some?
                      && OwnedTask(site.updaters[u]) == OwnedTask(site.updaters[v]) :: u == v)
  }

  ghost predicate SiteInv(site: Site) {
    Inv(site.world) && NoDuplicates(site.world.nodes) && DiskAgrees(site) && UpdatersFit(site)
  }

  // ----- how a step may change a site -------------------------------------------------------

  /** Nodes keep identity and directory; a new one is what its directory reads as. */
  ghost predicate NodeFollows(site: Site, site': Site, o: NodeId)
    requires o in site'.world.nodes
  {
    if o in site.world.nodes then
      && site'.world.nodes[o].spec.principal == site.world.nodes[o].spec.principal
      && site'.world.nodes[o].spec.dir == site.world.nodes[o].spec.dir
    else
      && o !in site.world.used
      && DirOf(site', o) in site.disk
      && site'.world.nodes[o].spec.principal == Some(site.disk[DirOf(site', o)].principal)
      && (forall x | x in site.world.nodes :: !Conflict(site'.world.nodes[o].spec, site.world.nodes[x].spec))
      && site'.world.nodes == site.world.nodes[o := site'.world.nodes[o]]
  }

  /** A pack in a directory was of that identity before, or an update in flight stands for it. */
  ghost predicate DirFollows(site: Site, site': Site, dir: string)
    requires dir in site'.disk
  {
    || (dir in site.disk && site'.disk[dir].principal == site.disk[dir].principal)
    || (exists u | 0 <= u < |site.updaters| ::
          site.updaters[u].dir == dir && Claims(site.updaters[u]) == Some(site'.disk[dir].principal))
  }

  ghost predicate Follows(site: Site, site': Site) {
    && site.world.used <= site'.world.used
    && (forall o | o in site'.world.nodes :: NodeFollows(site, site', o))
    && (forall dir | dir in site'.disk :: DirFollows(site, site', dir))
  }

  lemma NodeFollowsWithin(site: Site, s: SiteStep, w': World, o: NodeId)
    requires UpdatersFit(site) && o in w'.nodes && NoDuplicates(site.world.nodes)
    requires Within(site, s).Some? && NodesMove(site.world, Within(site, s).value, w')
    ensures NodeFollows(site, site.(world := w'), o)
  {
    assert NodeMoves(site.world, Within(site, s).value, w', o);
    if o in site.world.nodes && s.Move? && s.m.Record? {
      assert Fits(site, site.updaters[s.u]);
    }
  }

  lemma StepFollows(site: Site, s: SiteStep)
    requires SiteInv(site)
    ensures Follows(site, ApplySite(site, s))
  {
    var site' := ApplySite(site, s);
    StepIsAStep(site, s);
    if Within(site, s).Some? {
      NodesMoveStep(site.world, Within(site, s).value);
      forall o | o in site'.world.nodes
        ensures NodeFollows(site, site', o)
      {
        NodeFollowsWithin(site, s, site'.world, o);
      }
    }
    forall dir | dir in site'.disk ensures DirFollows(site, site', dir) { DiskFollows(site, s, dir); }
  }

  lemma DiskFollows(site: Site, s: SiteStep, dir: string)
    requires dir in ApplySite(site, s).disk
    ensures DirFollows(site, ApplySite(site, s), dir)
  {
    if s.Move? && s.m.Place? && IsAt(site, s.u, Halted) {
      assert Claims(site.updaters[s.u]) == Some(site.updaters[s.u].source.value.principal);
    }
  }

  lemma NoDuplicatesKept(site: Site, site': Site)
    requires NoDuplicates(site.world.nodes) && Follows(site, site')
    ensures NoDuplicates(site'.world.nodes)
  {
    forall a, b | a in site'.world.nodes && b in site'.world.nodes && a != b
      ensures !Conflict(site'.world.nodes[a].spec, site'.world.nodes[b].spec)
    {
      assert NodeFollows(site, site', a) && NodeFollows(site, site', b);
    }
  }

  lemma OneIdentityKept(site: Site, site': Site, k: Updater)
    requires Follows(site, site') && Claims(k).Some? && OneIdentity(site, k.dir, Claims(k).value)
    requires forall u | 0 <= u < |site.updaters| :: Agree(k, site.updaters[u])
    ensures OneIdentity(site', k.dir, Claims(k).value)
  {
    forall o | o in site'.world.nodes && DirOf(site', o) == k.dir
      ensures site'.world.nodes[o].spec.principal == Some(Claims(k).value)
    {
      assert NodeFollows(site, site', o);
    }
    if k.dir in site'.disk { assert DirFollows(site, site', k.dir); }
  }

  lemma DiskAgreesKept(site: Site, site': Site)
    requires SiteInv(site) && Follows(site, site')
    requires site'.disk == site.disk || site'.world == site.world
    ensures DiskAgrees(site')
  {
    forall id | id in site'.world.nodes && Readable(site', id).Some?
      ensures site'.world.nodes[id].spec.principal == Some(Readable(site', id).value.principal)
    {
      assert NodeFollows(site, site', id);
      var dir := DirOf(site', id);
      assert DirFollows(site, site', dir);
      if !(dir in site.disk && site'.disk[dir].principal == site.disk[dir].principal) {
        var u :| 0 <= u < |site.updaters| && site.updaters[u].dir == dir
            && Claims(site.updaters[u]) == Some(site'.disk[dir].principal);
        assert Fits(site, site.updaters[u]);
      } else {
        assert id in site.world.nodes ==> Readable(site, id).Some?;
      }
    }
  }

  // ----- the updates themselves -------------------------------------------------------------

  /** A stop or start under way moves only by its own call. */
  lemma StrangerStutters(w: World, s: Step, t: TaskId)
    requires t < |w.tasks| && (w.tasks[t].Stopper? || w.tasks[t].Starter?) && Actor(s, t) && !s.Call?
    ensures Apply(w, s) == w
  {
    match s
    case Listen(_, l) =>
    case Restart(_, r) =>
    case Renew(_, n) =>
  }

  lemma HoldsStill(site: Site, s: SiteStep, k: Updater)
    requires Holds(site.world, k)
    requires s.Core? && OwnedTask(k).Some? ==> Owned(site, OwnedTask(k).value)
    requires s.Move? && IsUnderway(site, s.u) && OwnedTask(k).Some? ==> OwnedTask(site.updaters[s.u]) != OwnedTask(k)
    ensures Holds(ApplySite(site, s).world, k)
  {
    StepIsAStep(site, s);
    if Within(site, s).Some? && OwnedTask(k).Some? {
      var c, t := Within(site, s).value, OwnedTask(k).value;
      TasksMoveStep(site.world, c);
      if Actor(c, t) && !c.Call? { StrangerStutters(site.world, c, t); }
    }
  }

  /** An update that another step passes by. */
  lemma FitsStill(site: Site, site': Site, k: Updater)
    requires Fits(site, k) && Follows(site, site') && Holds(site'.world, k)
    requires forall u | 0 <= u < |site.updaters| :: Agree(k, site.updaters[u])
    ensures Fits(site', k)
  {
    if Claims(k).Some? { OneIdentityKept(site, site', k); }
    if k.id in site'.world.nodes { assert NodeFollows(site, site', k.id); }
  }

  /** An update's own move keeps what it is about, and what it stands for while it stands for something. */
  ghost predicate Resumes(k: Updater, k': Updater) {
    && k'.id == k.id && k'.dir == k.dir && k'.desired == k.desired
    && Consistent(k')
    && (Claims(k').Some? ==> Claims(k') == Claims(k))
    && (!k'.progress.Finished? ==> !k.progress.Finished?)
  }

  lemma MoveResumes(site: Site, u: nat, m: UpdateMove)
    requires u < |site.updaters| && Fits(site, site.updaters[u])
    ensures var site' := ApplySite(site, Move(u, m));
            |site'.updaters| == |site.updaters| && site'.updaters == site.updaters[u := site'.updaters[u]]
            && Resumes(site.updaters[u], site'.updaters[u])
  {
    ResumesAfter(site, u, m);
  }

  lemma ResumesAfter(site: Site, u: nat, m: UpdateMove)
    requires u < |site.updaters| && Consistent(site.updaters[u])
    ensures var site' := ApplyMove(site, u, m);
            |site'.updaters| == |site.updaters| && site'.updaters == site.updaters[u := site'.updaters[u]]
            && Resumes(site.updaters[u], site'.updaters[u])
  {
    match m
    case Approve(source) =>
    case Halt =>
    case HaltEnds(ok) =>
    case Place(swap) =>
    case Record =>
    case Launch =>
    case LaunchLoads =>
    case LaunchEnds(outcome) =>
  }

  /** The stop or start an update begins is a new one, which it then owns. */
  ghost predicate OwnsNext(site: Site, u: nat, site': Site)
    requires u < |site.updaters| && u < |site'.updaters|
  {
    && Holds(site'.world, site'.updaters[u])
    && (OwnedTask(site'.updaters[u]).Some? ==>
          || OwnedTask(site'.updaters[u]) == OwnedTask(site.updaters[u])
          || OwnedTask(site'.updaters[u]) == Some(|site.world.tasks|))
  }

  lemma MoveHolds(site: Site, u: nat, m: UpdateMove)
    requires u < |site.updaters| && Fits(site, site.updaters[u])
    ensures u < |ApplySite(site, Move(u, m)).updaters| && OwnsNext(site, u, ApplySite(site, Move(u, m)))
  {
    match m
    case Halt => BeginHolds(site, u, m);
    case Launch => BeginHolds(site, u, m);
    case LaunchLoads => LoadHolds(site, u);
    case _ => EndHolds(site, u, m);
  }

  lemma BeginHolds(site: Site, u: nat, m: UpdateMove)
    requires u < |site.updaters| && Fits(site, site.updaters[u]) && (m.Halt? || m.Launch?)
    ensures u < |ApplyMove(site, u, m).updaters| && OwnsNext(site, u, ApplyMove(site, u, m))
  {
  }

  lemma LoadHolds(site: Site, u: nat)
    requires u < |site.updaters| && Fits(site, site.updaters[u])
    ensures u < |DoLaunchLoads(site, u).updaters| && OwnsNext(site, u, DoLaunchLoads(site, u))
  {
  }

  lemma EndHolds(site: Site, u: nat, m: UpdateMove)
    requires u < |site.updaters| && Fits(site, site.updaters[u]) && !m.Halt? && !m.Launch? && !m.LaunchLoads?
    ensures u < |ApplyMove(site, u, m).updaters| && OwnsNext(site, u, ApplyMove(site, u, m))
  {
    match m
    case HaltEnds(ok) =>
    case LaunchEnds(outcome) =>
    case _ =>
  }

  lemma SnapFits(site: Site, id: NodeId)
    requires SiteInv(site)
    ensures var site' := DoSnap(site, id);
            && |site'.updaters| == |site.updaters| + 1 && site'.updaters[..|site.updaters|] == site.updaters
            && Fits(site', site'.updaters[|site.updaters|])
            && (forall u | 0 <= u < |site.updaters| :: Agree(site'.updaters[|site.updaters|], site.updaters[u]))
            && OwnedTask(site'.updaters[|site.updaters|]).None?
  {
    var k := DoSnap(site, id).updaters[|site.updaters|];
    if Claims(k).Some? {
      forall o | o in site.world.nodes && DirOf(site, o) == k.dir
        ensures o == id
      {
        assert o != id ==> Conflict(site.world.nodes[o].spec, site.world.nodes[id].spec);
      }
      forall u | 0 <= u < |site.updaters| ensures Agree(k, site.updaters[u]) { assert Fits(site, site.updaters[u]); }
    }
  }

  /** The updates after a step that is none of theirs. */
  lemma UpdatersFitCore(site: Site, s: SiteStep)
    requires SiteInv(site) && (s.Core? || s.Vanish?)
    ensures UpdatersFit(ApplySite(site, s))
  {
    var site' := ApplySite(site, s);
    StepFollows(site, s);
    forall u | 0 <= u < |site'.updaters|
      ensures Fits(site', site'.updaters[u])
    {
      assert Fits(site, site.updaters[u]);
      HoldsStill(site, s, site.updaters[u]);
      FitsStill(site, site', site.updaters[u]);
    }
  }

  lemma UpdatersFitSnap(site: Site, id: NodeId)
    requires SiteInv(site)
    ensures UpdatersFit(ApplySite(site, Snap(id)))
  {
    var site' := DoSnap(site, id);
    assert ApplySite(site, Snap(id)) == site';
    SnapFits(site, id);
    forall u | 0 <= u < |site.updaters|
      ensures Fits(site', site'.updaters[u]) && site'.updaters[u] == site.updaters[u]
    {
      assert site'.updaters[..|site.updaters|][u] == site.updaters[u];
      assert Fits(site, site.updaters[u]);
    }
  }

  /** An update that moved itself. */
  lemma FitsMoved(site: Site, site': Site, k: Updater, k': Updater)
    requires Fits(site, k) && Follows(site, site') && Resumes(k, k') && Holds(site'.world, k')
    requires forall u | 0 <= u < |site.updaters| :: Agree(k, site.updaters[u])
    ensures Fits(site', k')
  {
    if Claims(k').Some? {
      forall v | 0 <= v < |site.updaters| ensures Agree(k', site.updaters[v]) { assert Agree(k, site.updaters[v]); }
      OneIdentityKept(site, site', k');
    }
    if k'.id in site'.world.nodes { assert NodeFollows(site, site', k'.id); }
  }

  lemma EachFits(site: Site, u: nat, m: UpdateMove, v: nat)
    requires SiteInv(site) && u < |site.updaters| && v < |site.updaters|
    ensures |ApplySite(site, Move(u, m)).updaters| == |site.updaters|
    ensures Fits(ApplySite(site, Move(u, m)), ApplySite(site, Move(u, m)).updaters[v])
  {
    var site' := ApplySite(site, Move(u, m));
    assert Fits(site, site.updaters[u]) && Fits(site, site.updaters[v]);
    MoveResumes(site, u, m);
    StepFollows(site, Move(u, m));
    if u == v {
      MoveHolds(site, u, m);
      FitsMoved(site, site', site.updaters[u], site'.updaters[u]);
    } else {
      HoldsStill(site, Move(u, m), site.updaters[v]);
      FitsStill(site, site', site.updaters[v]);
    }
  }

  lemma UpdatersFitMove(site: Site, u: nat, m: UpdateMove)
    requires SiteInv(site)
    ensures UpdatersFit(ApplySite(site, Move(u, m)))
  {
    if u < |site.updaters| {
      var site' := ApplySite(site, Move(u, m));
      assert Fits(site, site.updaters[u]);
      MoveResumes(site, u, m);
      MoveHolds(site, u, m);
      forall v | 0 <= v < |site'.updaters| ensures Fits(site', site'.updaters[v]) { EachFits(site, u, m, v); }
      StillAgree(site, site', u);
    }
  }

  lemma StillAgree(site: Site, site': Site, u: nat)
    requires UpdatersFit(site) && u < |site.updaters| == |site'.updaters|
    requires site'.updaters == site.updaters[u := site'.updaters[u]] && Resumes(site.updaters[u], site'.updaters[u])
    requires OwnedTask(site'.updaters[u]).Some? ==>
               || OwnedTask(site'.updaters[u]) == OwnedTask(site.updaters[u])
               || OwnedTask(site'.updaters[u]) == Some(|site.world.tasks|)
    requires forall v | 0 <= v < |site'.updaters| :: Fits(site', site'.updaters[v])
    ensures UpdatersFit(site')
  {
    forall v, x | 0 <= v < |site'.updaters| && 0 <= x < |site'.updaters|
      ensures Agree(site'.updaters[v], site'.updaters[x])
    {
      assert Agree(site.updaters[v], site.updaters[x]);
    }
    forall v | 0 <= v < |site.updaters| && v != u && OwnedTask(site.updaters[v]).Some?
      ensures OwnedTask(site.updaters[v]) != OwnedTask(site'.updaters[u])
    {
      assert Fits(site, site.updaters[v]);
    }
  }

  lemma WorldInvStep(site: Site, s: SiteStep)
    requires Inv(site.world)
    ensures Inv(ApplySite(site, s).world)
  {
    StepIsAStep(site, s);
    if Within(site, s).Some? { InvStep(site.world, Within(site, s).value); }
  }

  /** No step touches both the table and the disk. */
  lemma OneSideMoves(site: Site, s: SiteStep)
    ensures ApplySite(site, s).disk == site.disk || ApplySite(site, s).world == site.world
  {
  }

  lemma SiteInvStep(site: Site, s: SiteStep)
    requires SiteInv(site)
    ensures SiteInv(ApplySite(site, s))
  {
    var site' := ApplySite(site, s);
    StepFollows(site, s);
    WorldInvStep(site, s);
    NoDuplicatesKept(site, site');
    OneSideMoves(site, s);
    DiskAgreesKept(site, site');
    match s
    case Core(c) => UpdatersFitCore(site, s);
    case Vanish(dir) => UpdatersFitCore(site, s);
    case Snap(id) => UpdatersFitSnap(site, id);
    case Move(u, m) => UpdatersFitMove(site, u, m);
  }

  lemma {:induction false} SiteInvRun(site: Site, steps: seq<SiteStep>)
    requires SiteInv(site)
    ensures SiteInv(RunSites(site, steps))
  {
    if steps != [] {
      SiteInvRun(site, steps[..|steps| - 1]);
      SiteInvStep(RunSites(site, steps[..|steps| - 1]), steps[|steps| - 1]);
    }
  }

  /** A session that opens without duplicates meets the invariant. */
  lemma OpenedInv(profile: Profile, disk: map<string, Pack>)
    requires NoDuplicates(Opened(profile, disk).world.nodes)
    ensures SiteInv(Opened(profile, disk))
  {
  }

  // ----- the theorems -----------------------------------------------------------------------

  /** A removed id never comes back. */
  lemma {:induction false} GoneForever(site: Site, steps: seq<SiteStep>, id: NodeId)
    requires SiteInv(site) && id in site.world.used
    ensures id in RunSites(site, steps).world.used
    ensures id in RunSites(site, steps).world.nodes ==> id in site.world.nodes
  {
    if steps != [] {
      var mid := RunSites(site, steps[..|steps| - 1]);
      GoneForever(site, steps[..|steps| - 1], id);
      SiteInvRun(site, steps[..|steps| - 1]);
      StepFollows(mid, steps[|steps| - 1]);
      if id in RunSites(site, steps).world.nodes { assert NodeFollows(mid, RunSites(site, steps), id); }
    }
  }

  /** No two nodes come to share a known principal or a canonical pack directory, and no node changes
      its own, with any number of updates in flight. */
  lemma {:induction false} IdentityRun(site: Site, steps: seq<SiteStep>, id: NodeId)
    requires SiteInv(site) && id in site.world.nodes
    ensures var site' := RunSites(site, steps);
            && NoDuplicates(site'.world.nodes)
            && (id in site'.world.nodes ==>
                  && site'.world.nodes[id].spec.principal == site.world.nodes[id].spec.principal
                  && site'.world.nodes[id].spec.dir == site.world.nodes[id].spec.dir)
  {
    SiteInvRun(site, steps);
    if steps != [] {
      var n := |steps| - 1;
      var mid := RunSites(site, steps[..n]);
      IdentityRun(site, steps[..n], id);
      GoneForever(site, steps[..n], id);
      SiteInvRun(site, steps[..n]);
      StepFollows(mid, steps[n]);
      if id in RunSites(site, steps).world.nodes { assert NodeFollows(mid, RunSites(site, steps), id); }
    }
  }
}
