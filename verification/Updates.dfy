/** Pack updates over every interleaving: generations, and the intent an update restores. */
module Updates {
  import opened Types
  import opened Supervision
  import opened Sites
  import opened Identity
  import opened Histories

  // ----- the checks -------------------------------------------------------------------------

  /** An update is refused exactly when a check fails, and then nothing was touched. */
  lemma UpdateRefusedIff(site: Site, u: nat, source: Option<Pack>)
    requires IsSnapped(site, u)
    ensures var k := site.updaters[u];
            var site' := ApplySite(site, Move(u, Approve(source)));
            && site'.world == site.world && site'.disk == site.disk
            && (site'.updaters[u].progress.Finished? <==>
                  || source.None?
                  || k.progress.principal != Some(source.value.principal)
                  || source.value.generation < FoundInPlace(site.disk, k.dir, k.progress.cached))
            && (site'.updaters[u].progress.Finished? ==>
                site'.updaters[u].progress.result == Refused(RefusalOf(site, k, source)))
            && (!site'.updaters[u].progress.Finished? ==>
                IsAt(site', u, Approved) && site'.updaters[u].source == source)
  {
  }

  /** The first check that fails gives the reason: the source, then the identity, then the generation. */
  function RefusalOf(site: Site, k: Updater, source: Option<Pack>): string
    requires k.progress.Snapped?
  {
    match (source, k.progress.principal)
    case (None, _) => "source pack rejected"
    case (_, None) => "identity cannot be verified"
    case (Some(pack), Some(principal)) =>
      if pack.principal != principal then "identity mismatch" else "downgrade refused"
  }

  /** Why a section of an accepted update breaks it off, if it does. */
  function BreaksOff(site: Site, u: nat, m: UpdateMove): Option<string>
    requires IsUnderway(site, u)
  {
    var k, w := site.updaters[u], site.world;
    match (k.progress.point, m)
    case (Approved, Halt) => if k.id in w.nodes then None else Some("unknown node")
    case (Halting(t), HaltEnds(ok)) =>
      if t < |w.tasks| && w.tasks[t].Stopper? && w.tasks[t].hand.Some? && !ok then Some("shutdown failed") else None
    case (Halted, Place(swap)) => if swap.Swapped? then None else Some("pack swap failed")
    case (Placed, Record) => if k.id in w.nodes then None else Some("unknown node")
    case (Recorded, Launch) => if k.id in w.nodes then None else Some("unknown node")
    case (Launching(t), LaunchLoads) =>
      if IsLaunching(site, u) && !LoadsHere(site, w.tasks[t].prepared) then Some("start failed") else None
    case (Building(t), LaunchEnds(outcome)) =>
      if IsBuilding(site, u) && !(outcome.Built? && StartGoes(w, t)) then Some("start failed") else None
    case _ => None
  }

  /** The directory reads as a pack of the kind the spec recorded. */
  predicate LoadsHere(site: Site, prepared: Spec) {
    prepared.dir.canonical in site.disk && site.disk[prepared.dir.canonical].kind == prepared.kind
  }

  /** When exactly an accepted update fails, and with which reason. */
  lemma BrokenIff(site: Site, u: nat, m: UpdateMove)
    requires IsUnderway(site, u)
    ensures u < |ApplySite(site, Move(u, m)).updaters|
    ensures var p := ApplySite(site, Move(u, m)).updaters[u].progress;
            && (p.Finished? && p.result.Broken? <==> BreaksOff(site, u, m).Some?)
            && (BreaksOff(site, u, m).Some? ==> p.result.reason == BreaksOff(site, u, m).value)
  {
    match m
    case Approve(source) =>
    case Halt =>
    case HaltEnds(ok) =>
    case Place(swap) =>
    case Record =>
    case Launch =>
    case LaunchLoads =>
    case LaunchEnds(outcome) =>
  }

  // ----- one update over a run --------------------------------------------------------------

  /** An update keeps what its snapshot captured, its source once it has one, and its end. */
  ghost predicate Persists(k: Updater, k': Updater) {
    && k'.id == k.id && k'.dir == k.dir && k'.desired == k.desired
    && (!k.progress.Snapped? ==> k'.source == k.source && !k'.progress.Snapped?)
    && (k.progress.Finished? ==> k' == k)
    && (k.progress.Underway? && k'.progress.Underway? ==> k'.progress.from == k.progress.from)
  }

  lemma PersistsStep(site: Site, s: SiteStep, u: nat)
    requires u < |site.updaters|
    ensures u < |ApplySite(site, s).updaters| && Persists(site.updaters[u], ApplySite(site, s).updaters[u])
    ensures !(s.Move? && s.u == u) ==> ApplySite(site, s).updaters[u] == site.updaters[u]
  {
    if s.Move? { PersistsMove(site, s.u, s.m, u); }
  }

  lemma PersistsMove(site: Site, v: nat, m: UpdateMove, u: nat)
    requires u < |site.updaters|
    ensures u < |ApplyMove(site, v, m).updaters| && Persists(site.updaters[u], ApplyMove(site, v, m).updaters[u])
    ensures v != u ==> ApplyMove(site, v, m).updaters[u] == site.updaters[u]
  {
    match m
    case Approve(source) =>
    case Halt =>
    case HaltEnds(ok) =>
    case Place(swap) =>
    case Record =>
    case Launch =>
    case LaunchLoads =>
    case LaunchEnds(outcome) =>
  }

  lemma {:induction false} PersistsRun(site: Site, steps: seq<SiteStep>, u: nat)
    requires u < |site.updaters|
    ensures u < |RunSites(site, steps).updaters| && Persists(site.updaters[u], RunSites(site, steps).updaters[u])
  {
    if steps != [] {
      var n := |steps| - 1;
      PersistsRun(site, steps[..n], u);
      PersistsStep(RunSites(site, steps[..n]), steps[n], u);
    }
  }

  // ----- the generation in place ------------------------------------------------------------

  /** The step puts an older pack in the directory, empties it while the cache is behind, or records an
      older pack while nothing reads. */
  predicate Lowers(site: Site, s: SiteStep, id: NodeId)
    requires id in site.world.nodes
  {
    match Puts(site, s, DirOf(site, id))
    case Some(None) => Cached(site, id) < InPlace(site, id)
    case Some(Some(pack)) => pack.generation < InPlace(site, id)
    case None =>
      Records(site, s, id).Some? && Readable(site, id).None? && Records(site, s, id).value.generation < Cached(site, id)
  }

  lemma InPlaceFallsIff(site: Site, s: SiteStep, id: NodeId)
    requires SiteInv(site) && id in site.world.nodes && id in ApplySite(site, s).world.nodes
    ensures InPlace(ApplySite(site, s), id) < InPlace(site, id) <==> Lowers(site, s, id)
  {
    StepFollows(site, s);
    assert NodeFollows(site, ApplySite(site, s), id);
    ReadsStep(site, s, DirOf(site, id));
    CacheStep(site, s, id);
  }

  /** The cached generation after a run: the last one recorded, or the one before. */
  function CachedAfter(site: Site, steps: seq<SiteStep>, id: NodeId): nat
    requires id in site.world.nodes
  {
    var pack := LastRecord(site, steps, id);
    if pack.Some? then pack.value.generation else Cached(site, id)
  }

  /** A pack newer than the given generation was put there. */
  predicate Newer(put: Option<Option<Pack>>, generation: nat) {
    put.Some? && put.value.Some? && generation < put.value.value.generation
  }

  /** A swap against what was done since its check: it lowers the generation in place exactly when the
      last pack put into the directory is newer, or, if nothing reads, the last generation recorded is. */
  lemma SwapLowersFrom(checked: Site, u: nat, source: Pack, steps: seq<SiteStep>, swap: Swap)
    requires SiteInv(checked) && IsAt(checked, u, Approved) && (swap.Swapped? || swap.SwapLate?)
    requires checked.updaters[u].source == Some(source)
    requires checked.updaters[u].dir in checked.disk ==>
        checked.disk[checked.updaters[u].dir].generation <= source.generation
    requires IsAt(RunSites(checked, steps), u, Halted) && checked.updaters[u].id in RunSites(checked, steps).world.nodes
    ensures var end := RunSites(checked, steps);
            var id, dir := checked.updaters[u].id, checked.updaters[u].dir;
            && id in checked.world.nodes && id in ApplySite(end, Move(u, Place(swap))).world.nodes
            && (InPlace(ApplySite(end, Move(u, Place(swap))), id) < InPlace(end, id) <==>
                  if Readable(end, id).Some?
                  then Newer(LastPut(checked, steps, dir), source.generation)
                  else source.generation < CachedAfter(checked, steps, id))
  {
    var end := RunSites(checked, steps);
    var k := checked.updaters[u];
    assert Fits(checked, k);
    GoneForever(checked, steps, k.id);
    SiteInvRun(checked, steps);
    PersistsRun(checked, steps, u);
    assert Fits(end, end.updaters[u]);
    ReadsRun(checked, steps, k.dir);
    CacheRun(checked, steps, k.id);
    OneSideMoves(end, Move(u, Place(swap)));
    InPlaceFallsIff(end, Move(u, Place(swap)), k.id);
  }

  // ----- updates of a node that do not overlap ----------------------------------------------

  /** At most one update works on the node's directory, and it is the node's own. */
  ghost predicate Alone(site: Site, id: NodeId)
    requires id in site.world.nodes
  {
    forall u, v | 0 <= u < |site.updaters| && 0 <= v < |site.updaters| && OnDir(site, u, id) && OnDir(site, v, id) ::
      u == v && site.updaters[u].id == id
  }

  predicate OnDir(site: Site, u: nat, id: NodeId)
    requires id in site.world.nodes && u < |site.updaters|
  {
    !site.updaters[u].progress.Finished? && site.updaters[u].dir == DirOf(site, id)
  }

  /** How far a lone update may be from the node's cache and directory. */
  ghost predicate InStep(site: Site, id: NodeId, k: Updater)
    requires id in site.world.nodes
  {
    match k.progress
    case Snapped(_, cached) => cached == Cached(site, id)
    case Underway(_, point) =>
      && k.source.Some?
      && (point.Approved? || point.Halting? || point.Halted? ==>
            InPlace(site, id) <= k.source.value.generation && Cached(site, id) <= k.source.value.generation)
      && (point.Placed? ==>
            && Cached(site, id) <= k.source.value.generation
            && (Readable(site, id).Some? ==> Readable(site, id).value.generation == k.source.value.generation))
    case Finished(_) => true
  }

  /** The cache is not ahead of the directory, and every update on it is in step. */
  ghost predicate InOrder(site: Site, id: NodeId)
    requires id in site.world.nodes
  {
    && (Readable(site, id).Some? ==> Cached(site, id) <= Readable(site, id).value.generation)
    && (forall u | 0 <= u < |site.updaters| && OnDir(site, u, id) :: InStep(site, id, site.updaters[u]))
  }

  lemma OpenedInOrder(profile: Profile, disk: map<string, Pack>, id: NodeId)
    requires id in profile
    ensures InOrder(Opened(profile, disk), id)
  {
  }

  /** What a step does to the node's cache and directory, whatever else it does. */
  lemma PlaceAndCache(site: Site, s: SiteStep, id: NodeId)
    requires SiteInv(site) && id in site.world.nodes && id in ApplySite(site, s).world.nodes
    ensures var site' := ApplySite(site, s);
            && DirOf(site', id) == DirOf(site, id)
            && Readable(site', id) == (if Puts(site, s, DirOf(site, id)).Some? then Puts(site, s, DirOf(site, id)).value
                else Readable(site, id))
            && Cached(site', id) == if Records(site, s, id).Some? then Records(site, s, id).value.generation
                else Cached(site, id)
  {
    StepFollows(site, s);
    assert NodeFollows(site, ApplySite(site, s), id);
    ReadsStep(site, s, DirOf(site, id));
    CacheStep(site, s, id);
  }

  /** Puts and records on the node's directory come from updates in flight on it. */
  lemma WhoPuts(site: Site, s: SiteStep, id: NodeId)
    requires SiteInv(site) && id in site.world.nodes
    ensures var dir := DirOf(site, id);
            && (Puts(site, s, dir).Some? ==>
                  s == Vanish(dir) || (s.Move? && s.m.Place? && IsAt(site, s.u, Halted) && OnDir(site, s.u, id)))
            && (Records(site, s, id).Some? ==>
                  s.Move? && s.m.Record? && IsAt(site, s.u, Placed) && OnDir(site, s.u, id))
  {
    if s.Move? && IsUnderway(site, s.u) { assert Fits(site, site.updaters[s.u]); }
  }

  lemma InStepKept(site: Site, s: SiteStep, id: NodeId, v: nat)
    requires SiteInv(site) && id in site.world.nodes && id in ApplySite(site, s).world.nodes
    requires InOrder(site, id) && Alone(site, id)
    requires v < |ApplySite(site, s).updaters|
    ensures OnDir(ApplySite(site, s), v, id) ==> InStep(ApplySite(site, s), id, ApplySite(site, s).updaters[v])
  {
    PlaceAndCache(site, s, id);
    if OnDir(ApplySite(site, s), v, id) {
      if v < |site.updaters| {
        PersistsStep(site, s, v);
        assert OnDir(site, v, id) && InStep(site, id, site.updaters[v]);
        if s.Move? && s.u == v { InStepMoved(site, s.m, id, v); } else { InStepStill(site, s, id, v); }
      } else {
        SnapInStep(site, s, id, v);
      }
    }
  }

  lemma SnapInStep(site: Site, s: SiteStep, id: NodeId, v: nat)
    requires SiteInv(site) && id in site.world.nodes && |site.updaters| <= v < |ApplySite(site, s).updaters|
    requires id in ApplySite(site, s).world.nodes && OnDir(ApplySite(site, s), v, id)
    ensures InStep(ApplySite(site, s), id, ApplySite(site, s).updaters[v])
  {
    OnlySnaps(site, s, v);
    assert s.id != id ==> !Conflict(site.world.nodes[s.id].spec, site.world.nodes[id].spec);
  }

  /** Only a snapshot begins an update, with what the table says. */
  lemma OnlySnaps(site: Site, s: SiteStep, v: nat)
    requires |site.updaters| <= v < |ApplySite(site, s).updaters|
    ensures s.Snap? && v == |site.updaters| && ApplySite(site, s).world == site.world
        && ApplySite(site, s).disk == site.disk
    ensures !ApplySite(site, s).updaters[v].progress.Finished? ==>
              && s.id in site.world.nodes
              && ApplySite(site, s).updaters[v].dir == DirOf(site, s.id)
              && ApplySite(site, s).updaters[v].progress == Snapped(site.world.nodes[s.id].spec.principal,
                  Cached(site, s.id))
  {
    if s.Move? { SameCount(site, s.u, s.m); }
  }

  lemma SameCount(site: Site, u: nat, m: UpdateMove)
    ensures |ApplyMove(site, u, m).updaters| == |site.updaters|
  {
  }

  /** Nothing another step does takes a lone update out of step. */
  lemma InStepStill(site: Site, s: SiteStep, id: NodeId, v: nat)
    requires SiteInv(site) && id in site.world.nodes && id in ApplySite(site, s).world.nodes && v < |site.updaters|
    requires InOrder(site, id) && Alone(site, id) && OnDir(site, v, id) && !(s.Move? && s.u == v)
    ensures InStep(ApplySite(site, s), id, site.updaters[v])
  {
    PlaceAndCache(site, s, id);
    WhoPuts(site, s, id);
    assert InStep(site, id, site.updaters[v]);
  }

  lemma InStepMoved(site: Site, m: UpdateMove, id: NodeId, v: nat)
    requires SiteInv(site) && id in site.world.nodes && v < |site.updaters| && OnDir(site, v, id)
        && InStep(site, id, site.updaters[v])
    requires Readable(site, id).Some? ==> Cached(site, id) <= Readable(site, id).value.generation
    requires site.updaters[v].id == id && id in ApplySite(site, Move(v, m)).world.nodes
    ensures v < |ApplySite(site, Move(v, m)).updaters|
    ensures InStep(ApplySite(site, Move(v, m)), id, ApplySite(site, Move(v, m)).updaters[v])
  {
    match m
    case Approve(source) => InStepApproved(site, id, v, source);
    case Place(swap) => InStepPlaced(site, id, v, swap);
    case Record => InStepRecorded(site, id, v);
    case _ => InStepOtherwise(site, id, v, m);
  }

  lemma InStepApproved(site: Site, id: NodeId, v: nat, source: Option<Pack>)
    requires SiteInv(site) && id in site.world.nodes && v < |site.updaters| && OnDir(site, v, id)
        && InStep(site, id, site.updaters[v])
    requires Readable(site, id).Some? ==> Cached(site, id) <= Readable(site, id).value.generation
    requires site.updaters[v].id == id && id in ApplySite(site, Move(v, Approve(source))).world.nodes
    ensures v < |ApplySite(site, Move(v, Approve(source))).updaters|
    ensures InStep(ApplySite(site, Move(v, Approve(source))), id, ApplySite(site, Move(v, Approve(source))).updaters[v])
  {
    PlaceAndCache(site, Move(v, Approve(source)), id);
    ApproveGoes(site, v, source);
  }

  lemma InStepPlaced(site: Site, id: NodeId, v: nat, swap: Swap)
    requires SiteInv(site) && id in site.world.nodes && v < |site.updaters| && OnDir(site, v, id)
        && InStep(site, id, site.updaters[v])
    requires Readable(site, id).Some? ==> Cached(site, id) <= Readable(site, id).value.generation
    requires site.updaters[v].id == id && id in ApplySite(site, Move(v, Place(swap))).world.nodes
    ensures v < |ApplySite(site, Move(v, Place(swap))).updaters|
    ensures InStep(ApplySite(site, Move(v, Place(swap))), id, ApplySite(site, Move(v, Place(swap))).updaters[v])
  {
    PlaceAndCache(site, Move(v, Place(swap)), id);
    PlaceGoes(site, v, swap);
  }

  lemma InStepRecorded(site: Site, id: NodeId, v: nat)
    requires SiteInv(site) && id in site.world.nodes && v < |site.updaters| && OnDir(site, v, id)
        && InStep(site, id, site.updaters[v])
    requires Readable(site, id).Some? ==> Cached(site, id) <= Readable(site, id).value.generation
    requires site.updaters[v].id == id && id in ApplySite(site, Move(v, Record)).world.nodes
    ensures v < |ApplySite(site, Move(v, Record)).updaters|
    ensures InStep(ApplySite(site, Move(v, Record)), id, ApplySite(site, Move(v, Record)).updaters[v])
  {
    PlaceAndCache(site, Move(v, Record), id);
    RecordGoes(site, v);
  }

  lemma InStepOtherwise(site: Site, id: NodeId, v: nat, m: UpdateMove)
    requires !m.Approve? && !m.Place? && !m.Record?
    requires SiteInv(site) && id in site.world.nodes && v < |site.updaters| && OnDir(site, v, id)
        && InStep(site, id, site.updaters[v])
    requires Readable(site, id).Some? ==> Cached(site, id) <= Readable(site, id).value.generation
    requires site.updaters[v].id == id && id in ApplySite(site, Move(v, m)).world.nodes
    ensures v < |ApplySite(site, Move(v, m)).updaters|
    ensures InStep(ApplySite(site, Move(v, m)), id, ApplySite(site, Move(v, m)).updaters[v])
  {
    PlaceAndCache(site, Move(v, m), id);
    OtherwiseGoes(site, v, m);
  }

  /** What a section does to its own update. */
  lemma ApproveGoes(site: Site, v: nat, source: Option<Pack>)
    requires v < |site.updaters|
    ensures var k, site' := site.updaters[v], ApplySite(site, Move(v, Approve(source)));
            && |site'.updaters| == |site.updaters|
            && site'.updaters[v] == (if k.progress.Snapped?
                then k.(source := source, progress := Checks(site.disk, k, source)) else k)
  {
  }

  lemma PlaceGoes(site: Site, v: nat, swap: Swap)
    requires v < |site.updaters|
    ensures var k, site' := site.updaters[v], ApplySite(site, Move(v, Place(swap)));
            && |site'.updaters| == |site.updaters|
            && (if !IsAt(site, v, Halted) then site'.updaters[v] == k
                else if swap.Swapped? then site'.updaters[v] == k.(progress := Underway(k.progress.from, Placed))
                else site'.updaters[v].progress.Finished?)
  {
  }

  lemma RecordGoes(site: Site, v: nat)
    requires v < |site.updaters|
    ensures var k, site' := site.updaters[v], ApplySite(site, Move(v, Record));
            && |site'.updaters| == |site.updaters|
            && (if !IsAt(site, v, Placed) then site'.updaters[v] == k
                else
                  || site'.updaters[v].progress.Finished?
                  || site'.updaters[v] == k.(progress := Underway(k.progress.from, Recorded)))
  {
  }

  lemma OtherwiseGoes(site: Site, v: nat, m: UpdateMove)
    requires v < |site.updaters| && !m.Approve? && !m.Place? && !m.Record?
    ensures var k, t, site' := site.updaters[v], |site.world.tasks|, ApplySite(site, Move(v, m));
            && |site'.updaters| == |site.updaters|
            && (|| site'.updaters[v] == k
                || site'.updaters[v].progress.Finished?
                || (IsAt(site, v, Approved) && site'.updaters[v] == k.(progress := Underway(k.progress.from,
                    Halting(t))))
                || (IsHalting(site, v) && site'.updaters[v] == k.(progress := Underway(k.progress.from, Halted)))
                || (IsAt(site, v, Recorded) && site'.updaters[v] == k.(progress := Underway(k.progress.from,
                    Launching(t))))
                || (IsLaunching(site, v) && site'.updaters[v] == k.(progress := Underway(k.progress.from,
                    Building(k.progress.point.t)))))
  {
    match m
    case Halt =>
    case HaltEnds(ok) =>
    case Launch =>
    case LaunchLoads =>
    case LaunchEnds(outcome) =>
    case _ =>
  }

  /** One step while no two updates overlap on the directory: the cache never falls, and the generation
      in place falls exactly when the directory is emptied while the cache is behind it. */
  lemma LoneStep(site: Site, s: SiteStep, id: NodeId)
    requires SiteInv(site) && id in site.world.nodes && id in ApplySite(site, s).world.nodes
    requires InOrder(site, id) && Alone(site, id)
    ensures InOrder(ApplySite(site, s), id)
    ensures Cached(site, id) <= Cached(ApplySite(site, s), id)
    ensures InPlace(ApplySite(site, s), id) < InPlace(site, id) <==>
              Puts(site, s, DirOf(site, id)) == Some(None) && Cached(site, id) < InPlace(site, id)
  {
    var site' := ApplySite(site, s);
    PlaceAndCache(site, s, id);
    InPlaceFallsIff(site, s, id);
    WhoPuts(site, s, id);
    if s.Move? && s.u < |site.updaters| && OnDir(site, s.u, id) { assert InStep(site, id, site.updaters[s.u]); }
    forall v | 0 <= v < |site'.updaters| && OnDir(site', v, id)
      ensures InStep(site', id, site'.updaters[v])
    {
      InStepKept(site, s, id, v);
    }
  }

  /** No two updates overlap on the directory at any point of the run. */
  ghost predicate AloneThroughout(site: Site, steps: seq<SiteStep>, id: NodeId) {
    forall n | 0 <= n <= |steps| :: id in RunSites(site, steps[..n]).world.nodes ==>
        Alone(RunSites(site, steps[..n]), id)
  }

  /** The directory is never emptied while the cache is behind it. */
  ghost predicate NeverLosesTrack(site: Site, steps: seq<SiteStep>, id: NodeId) {
    forall n | 0 <= n < |steps| ::
      var mid := RunSites(site, steps[..n]);
      id in mid.world.nodes && Puts(mid, steps[n], DirOf(mid, id)) == Some(None) ==> InPlace(mid, id) <= Cached(mid, id)
  }

  /** While no two updates overlap on the directory, the cached generation never falls, and the one in
      place never falls unless the directory is emptied while its cache is behind. */
  lemma {:induction false} ForwardRun(site: Site, steps: seq<SiteStep>, id: NodeId)
    requires SiteInv(site) && id in site.world.nodes && id in RunSites(site, steps).world.nodes
    requires InOrder(site, id) && AloneThroughout(site, steps, id)
    ensures var site' := RunSites(site, steps);
            && InOrder(site', id)
            && Cached(site, id) <= Cached(site', id)
            && (NeverLosesTrack(site, steps, id) ==> InPlace(site, id) <= InPlace(site', id))
  {
    if steps != [] {
      var n := |steps| - 1;
      var mid := RunSites(site, steps[..n]);
      StaysThere(site, steps, n, id);
      SiteInvRun(site, steps[..n]);
      AlonePrefix(site, steps, id);
      ForwardRun(site, steps[..n], id);
      assert steps[..|steps|] == steps;
      LoneStep(mid, steps[n], id);
      if NeverLosesTrack(site, steps, id) { TrackPrefix(site, steps, id); }
    }
  }

  lemma AlonePrefix(site: Site, steps: seq<SiteStep>, id: NodeId)
    requires steps != [] && AloneThroughout(site, steps, id)
    ensures AloneThroughout(site, steps[..|steps| - 1], id)
  {
    var init := steps[..|steps| - 1];
    forall n | 0 <= n <= |init| && id in RunSites(site, init[..n]).world.nodes
      ensures Alone(RunSites(site, init[..n]), id)
    {
      assert init[..n] == steps[..n];
    }
  }

  lemma TrackPrefix(site: Site, steps: seq<SiteStep>, id: NodeId)
    requires steps != [] && NeverLosesTrack(site, steps, id)
    ensures NeverLosesTrack(site, steps[..|steps| - 1], id)
  {
    var init := steps[..|steps| - 1];
    forall n | 0 <= n < |init| && id in RunSites(site, init[..n]).world.nodes
             && Puts(RunSites(site, init[..n]), init[n], DirOf(RunSites(site, init[..n]), id)) == Some(None)
      ensures InPlace(RunSites(site, init[..n]), id) <= Cached(RunSites(site, init[..n]), id)
    {
      assert init[..n] == steps[..n] && init[n] == steps[n];
    }
  }

  // ----- where the gate gives way -----------------------------------------------------------

  /** An update of the node whose snapshot and checks come right now would be accepted with this source. */
  predicate Accepts(site: Site, id: NodeId, source: Pack) {
    var snapped := ApplySite(site, Snap(id));
    IsAt(ApplySite(snapped, Move(|site.updaters|, Approve(Some(source)))), |site.updaters|, Approved)
  }

  /** Once the directory of a node stops reading, an update accepts an older pack than the one that was
      there exactly when the cache had fallen behind it. */
  lemma DowngradeIffCacheBehind(site: Site, id: NodeId)
    requires SiteInv(site) && id in site.world.nodes && Readable(site, id).Some?
    ensures var gone := ApplySite(site, Vanish(DirOf(site, id)));
            (exists source: Pack :: source.generation < InPlace(site, id) && Accepts(gone, id, source)) <==>
                Cached(site, id) < InPlace(site, id)
  {
    var gone := ApplySite(site, Vanish(DirOf(site, id)));
    forall source: Pack
      ensures Accepts(gone, id, source) <==>
                site.world.nodes[id].spec.principal == Some(source.principal) && Cached(site, id) <= source.generation
    {
    }
    if Cached(site, id) < InPlace(site, id) {
      var source := Readable(site, id).value.(generation := Cached(site, id));
      assert Accepts(gone, id, source);
    }
  }

  /** The cache is behind a pack that reads. */
  predicate Behind(site: Site, id: NodeId)
    requires id in site.world.nodes
  {
    Readable(site, id).Some? && Cached(site, id) < Readable(site, id).value.generation
  }

  /** Who leaves a cache behind, and for how long: while no two updates overlap on the directory, a cache
      that is not behind falls behind exactly when a newer pack is swapped in. A swap that is reported as
      done goes on to record it; one that fails after the exchange ends the update instead. */
  lemma FallsBehindIff(site: Site, s: SiteStep, id: NodeId)
    requires SiteInv(site) && id in site.world.nodes && id in ApplySite(site, s).world.nodes && !Behind(site, id)
    requires InOrder(site, id) && Alone(site, id)
    ensures Behind(ApplySite(site, s), id) <==> Newer(Puts(site, s, DirOf(site, id)), Cached(site, id))
    ensures Behind(ApplySite(site, s), id) ==>
              && s.Move? && s.m.Place? && s.u < |ApplySite(site, s).updaters|
              && (if s.m.swap.SwapLate? then ApplySite(site, s).updaters[s.u].progress.Finished?
                  else IsAt(ApplySite(site, s), s.u, Placed))
  {
    PlaceAndCache(site, s, id);
    WhoPuts(site, s, id);
    if s.Move? && s.u < |site.updaters| && OnDir(site, s.u, id) { assert InStep(site, id, site.updaters[s.u]); }
  }
}
