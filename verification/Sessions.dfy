/** The main theorems about packs, of every run of a session opened without duplicates. */
module Sessions {
  import opened Types
  import opened Supervision
  import opened Sites
  import opened Identity
  import opened Histories
  import opened Updates
  import opened Restoring
  import opened Publish
  import opened Convergence
  import Profiles
  import Quits

  /** No two nodes of the profile share a known principal or a canonical directory. */
  ghost predicate Clean(profile: Profile, disk: map<string, Pack>) {
    NoDuplicates(Opened(profile, disk).world.nodes)
  }

  /** The site a session reaches with these steps. */
  function Reached(profile: Profile, disk: map<string, Pack>, steps: seq<SiteStep>): Site {
    RunSites(Opened(profile, disk), steps)
  }

  lemma ReachedInv(profile: Profile, disk: map<string, Pack>, steps: seq<SiteStep>)
    requires Clean(profile, disk)
    ensures SiteInv(Reached(profile, disk, steps))
  {
    OpenedInv(profile, disk);
    SiteInvRun(Opened(profile, disk), steps);
  }

  lemma ReachedLater(profile: Profile, disk: map<string, Pack>, before: seq<SiteStep>, steps: seq<SiteStep>)
    ensures Reached(profile, disk, before + steps) == RunSites(Reached(profile, disk, before), steps)
  {
    RunSitesAppend(Opened(profile, disk), before, steps);
  }

  // ----- the cache follows the directory ----------------------------------------------------

  /** A node that is just added has its cache in order: no update of it can be in flight yet. */
  lemma AddedInOrder(mid: Site, s: SiteStep, id: NodeId)
    requires SiteInv(mid) && id !in mid.world.nodes && id in ApplySite(mid, s).world.nodes
    requires Alone(ApplySite(mid, s), id)
    ensures InOrder(ApplySite(mid, s), id)
  {
    var next := ApplySite(mid, s);
    StepFollows(mid, s);
    assert NodeFollows(mid, next, id);
    OnlyAdds(mid, s, id);
    forall u | 0 <= u < |next.updaters| ensures !OnDir(next, u, id) { NotYetUpdated(mid, next, id, u); }
  }

  lemma NotYetUpdated(mid: Site, next: Site, id: NodeId, u: nat)
    requires UpdatersFit(mid) && id !in mid.world.used && id in next.world.nodes && next.updaters == mid.updaters
    requires u < |next.updaters| && Alone(next, id)
    ensures !OnDir(next, u, id)
  {
    assert Fits(mid, mid.updaters[u]);
  }

  lemma OnlyAdds(mid: Site, s: SiteStep, id: NodeId)
    requires mid.world.nodes.Keys <= mid.world.used && id !in mid.world.nodes && id in ApplySite(mid, s).world.nodes
    ensures ApplySite(mid, s).updaters == mid.updaters && ApplySite(mid, s).disk == mid.disk
    ensures var spec := ApplySite(mid, s).world.nodes[id].spec; AddFits(mid.disk, spec)
  {
    StepIsAStep(mid, s);
    var c := Within(mid, s).value;
    Invariants.NodesMoveStep(mid.world, c);
    assert Invariants.NodeMoves(mid.world, c, ApplySite(mid, s).world, id);
  }

  lemma {:induction false} ReachedInOrder(profile: Profile, disk: map<string, Pack>, steps: seq<SiteStep>, id: NodeId)
    requires Clean(profile, disk) && id in Reached(profile, disk, steps).world.nodes
    requires AloneThroughout(Opened(profile, disk), steps, id)
    ensures InOrder(Reached(profile, disk, steps), id)
  {
    if steps == [] {
      OpenedInOrder(profile, disk, id);
    } else {
      var n, start := |steps| - 1, Opened(profile, disk);
      var mid := Reached(profile, disk, steps[..n]);
      ReachedInv(profile, disk, steps[..n]);
      assert steps[..|steps|] == steps;
      if id in mid.world.nodes {
        AlonePrefix(start, steps, id);
        ReachedInOrder(profile, disk, steps[..n], id);
        LoneStep(mid, steps[n], id);
      } else {
        AddedInOrder(mid, steps[n], id);
      }
    }
  }

  lemma AloneLater(profile: Profile, disk: map<string, Pack>, before: seq<SiteStep>, steps: seq<SiteStep>, id: NodeId)
    requires AloneThroughout(Opened(profile, disk), before + steps, id)
    ensures AloneThroughout(Opened(profile, disk), before, id)
    ensures AloneThroughout(Reached(profile, disk, before), steps, id)
  {
    var start, site := Opened(profile, disk), Reached(profile, disk, before);
    forall n | 0 <= n <= |before| && id in RunSites(start, before[..n]).world.nodes
      ensures Alone(RunSites(start, before[..n]), id)
    {
      assert (before + steps)[..n] == before[..n];
    }
    forall n | 0 <= n <= |steps| && id in RunSites(site, steps[..n]).world.nodes
      ensures Alone(RunSites(site, steps[..n]), id)
    {
      assert (before + steps)[..|before| + n] == before + steps[..n];
      ReachedLater(profile, disk, before, steps[..n]);
    }
  }

  // ----- the theorems -----------------------------------------------------------------------

  /** Identity, with any number of updates in flight: in every site a session reaches, no two nodes share a
      known principal or a canonical pack directory, and from then on no node changes its own, although
      every refresh writes the principal anew. */
  lemma IdentitiesStayUnique(profile: Profile, disk: map<string, Pack>, before: seq<SiteStep>, steps: seq<SiteStep>,
                             id: NodeId)
    requires Clean(profile, disk)
    ensures var site := Reached(profile, disk, before);
            var site' := Reached(profile, disk, before + steps);
            && (forall o | o in site.world.nodes && id in site.world.nodes && o != id ::
                  && (site.world.nodes[id].spec.principal.Some? ==>
                        site.world.nodes[o].spec.principal != site.world.nodes[id].spec.principal)
                  && site.world.nodes[o].spec.dir.canonical != site.world.nodes[id].spec.dir.canonical)
            && (id in site.world.nodes && id in site'.world.nodes ==>
                  && site'.world.nodes[id].spec.principal == site.world.nodes[id].spec.principal
                  && site'.world.nodes[id].spec.dir == site.world.nodes[id].spec.dir)
  {
    ReachedInv(profile, disk, before);
    ReachedLater(profile, disk, before, steps);
    if id in Reached(profile, disk, before).world.nodes { IdentityRun(Reached(profile, disk, before), steps, id); }
  }

  /** The update's checks have passed, and the steps since lead to its swap. */
  predicate AboutToSwap(site: Site, u: nat, source: Pack, steps: seq<SiteStep>) {
    IsSnapped(site, u) &&
    var checked := ApplySite(site, Move(u, Approve(Some(source))));
    && IsAt(checked, u, Approved) && IsAt(RunSites(checked, steps), u, Halted)
    && site.updaters[u].id in RunSites(checked, steps).world.nodes
  }

  /** A swap against what the other updates did since its checks. With any steps in between, a swap that
      takes effect lowers the generation in place exactly when the last pack put into the directory
      since the checks is newer than its source, or, if the directory does not read, when the last
      generation recorded since the checks (or cached at them) is. */
  lemma SwapLowersIff(profile: Profile, disk: map<string, Pack>, before: seq<SiteStep>, u: nat, source: Pack,
                      steps: seq<SiteStep>, swap: Swap)
    requires Clean(profile, disk) && (swap.Swapped? || swap.SwapLate?)
    ensures var site := Reached(profile, disk, before);
            AboutToSwap(site, u, source, steps) ==>
              var checked := ApplySite(site, Move(u, Approve(Some(source))));
              var end := RunSites(checked, steps);
              var id, dir := site.updaters[u].id, site.updaters[u].dir;
              && id in checked.world.nodes && id in ApplySite(end, Move(u, Place(swap))).world.nodes
              && (InPlace(ApplySite(end, Move(u, Place(swap))), id) < InPlace(end, id) <==>
                    if Readable(end, id).Some?
                    then Newer(LastPut(checked, steps, dir), source.generation)
                    else source.generation < CachedAfter(checked, steps, id))
  {
    var site := Reached(profile, disk, before);
    ReachedInv(profile, disk, before);
    if AboutToSwap(site, u, source, steps) {
      SiteInvStep(site, Move(u, Approve(Some(source))));
      SwapLowersFrom(ApplySite(site, Move(u, Approve(Some(source)))), u, source, steps, swap);
    }
  }

  /** Updates move forward only. Over every run of a session in which the updates of a node do not overlap,
      with every other step of the manager, of other updates and of the environment free to come between
      their sections, the cached generation never falls, and the generation in place never falls unless
      the directory is emptied while its cache is behind. */
  lemma UpdatesMoveForward(profile: Profile, disk: map<string, Pack>, before: seq<SiteStep>, steps: seq<SiteStep>,
                           id: NodeId)
    requires Clean(profile, disk) && AloneThroughout(Opened(profile, disk), before + steps, id)
    ensures var site := Reached(profile, disk, before);
            var site' := Reached(profile, disk, before + steps);
            id in site.world.nodes && id in site'.world.nodes ==>
              && Cached(site, id) <= Cached(site', id)
              && (NeverLosesTrack(site, steps, id) ==> InPlace(site, id) <= InPlace(site', id))
  {
    var site := Reached(profile, disk, before);
    ReachedInv(profile, disk, before);
    ReachedLater(profile, disk, before, steps);
    AloneLater(profile, disk, before, steps, id);
    if id in site.world.nodes && id in RunSites(site, steps).world.nodes {
      ReachedInOrder(profile, disk, before, id);
      ForwardRun(site, steps, id);
    }
  }

  predicate OffOnDisk(w: World, id: NodeId) {
    id in w.nodes && !w.nodes[id].desired ==> id in Profiles.Disk(w) && !Profiles.Disk(w)[id].desiredRunning
  }

  /** The disk never wants a node the manager does not want. */
  lemma UnwantedOnDisk(profile: Profile, disk: map<string, Pack>, steps: seq<SiteStep>)
    ensures forall id :: OffOnDisk(Reached(profile, disk, steps).world, id)
  {
    Quits.OpenedPersists(profile, disk, steps);
  }

  /** How an accepted update ends, whatever ran since its stop: as said when it succeeds, and in any case,
      failure included, with its node left as the last word since the stop says; a node left unwanted is
      unwanted on disk too. */
  lemma UpdateEnds(profile: Profile, disk: map<string, Pack>, before: seq<SiteStep>, u: nat, steps: seq<SiteStep>)
    requires Clean(profile, disk)
    ensures var site := Reached(profile, disk, before);
            IsAt(site, u, Approved) && site.updaters[u].id in site.world.nodes ==>
              var stopped := ApplySite(site, Move(u, Halt));
              && IsUnderway(stopped, u)
              && (Succeeds(stopped, steps, u) ==> EndsAsSaid(stopped, steps, u))
              && LeavesAsSaid(stopped, steps, site.updaters[u].id)
              && OffOnDisk(RunSites(stopped, steps).world, site.updaters[u].id)
  {
    var site := Reached(profile, disk, before);
    UnwantedOnDisk(profile, disk, before + [Move(u, Halt)] + steps);
    RunSitesSnoc(Opened(profile, disk), before, Move(u, Halt));
    ReachedLater(profile, disk, before + [Move(u, Halt)], steps);
    ReachedInv(profile, disk, before);
    if IsAt(site, u, Approved) && site.updaters[u].id in site.world.nodes {
      WindowOpens(site, u, steps);
      HaltsHere(site, u);
      if Succeeds(ApplySite(site, Move(u, Halt)), steps, u) { WindowEnds(ApplySite(site, Move(u, Halt)), steps, u); }
      StoppedLeaves(site, u, steps);
    }
  }

  /** What a publish guarantees of every node it lists, at the end of the whole run and whatever others did
      meanwhile: its identity, what its entry in the report says, and, while no two updates overlap on its
      directory, a generation in place that has not fallen unless the directory was emptied while its
      cache was behind. */
  lemma PublishConverges(profile: Profile, disk: map<string, Pack>, before: seq<SiteStep>, trace: seq<SiteStep>,
                         info: Info, packs: seq<Pack>, k: Turn)
    requires Clean(profile, disk)
    ensures var site := Reached(profile, disk, before);
            var end := RunSites(site, trace);
            info.id in site.world.nodes && info.id in end.world.nodes && Took(site, trace, info, packs, k) ==>
              && ConvergesAsSaid(site, trace, info, packs, k)
              && (AloneThroughout(Opened(profile, disk), before + trace, info.id) ==>
                    NeverLosesTrack(site, trace, info.id) ==> InPlace(site, info.id) <= InPlace(end, info.id))
  {
    var site := Reached(profile, disk, before);
    ReachedInv(profile, disk, before);
    ReachedLater(profile, disk, before, trace);
    if info.id in site.world.nodes && info.id in RunSites(site, trace).world.nodes
       && Took(site, trace, info, packs, k) {
      TurnConverges(site, trace, info, packs, k);
      if AloneThroughout(Opened(profile, disk), before + trace, info.id) {
        UpdatesMoveForward(profile, disk, before, trace, info.id);
      }
    }
  }
}
