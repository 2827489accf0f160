/** What a full render guarantees of the packs in place, whatever else runs meanwhile. */
module Convergence {
  import opened Types
  import opened Supervision
  import opened Sites
  import opened Identity
  import opened Histories
  import opened Updates
  import opened Restoring
  import opened Publish

  // ----- what a full render guarantees ------------------------------------------------------

  /** The update has its pack in place, or had it when it ended in success. */
  predicate PastPlace(k: Updater) {
    match k.progress
    case Snapped(_, _) => false
    case Underway(_, point) => point.Placed? || point.Recorded? || StartUnderway(point)
    case Finished(r) => r.Updated?
  }

  lemma PlaceStep(site: Site, s: SiteStep, u: nat)
    requires u < |site.updaters| && !PastPlace(site.updaters[u])
    requires u < |ApplySite(site, s).updaters| && PastPlace(ApplySite(site, s).updaters[u])
    ensures s == Move(u, Place(Swapped)) && IsAt(site, u, Halted)
  {
    PersistsStep(site, s, u);
    if s.Move? && s.u == u {
      match s.m
      case Approve(source) =>
      case Halt =>
      case HaltEnds(ok) =>
      case Place(swap) =>
      case Record =>
      case Launch =>
      case LaunchLoads =>
      case LaunchEnds(outcome) =>
    }
  }

  /** A successful update put its pack in place at some point of its run. */
  lemma {:induction false} OwnPut(site: Site, steps: seq<SiteStep>, u: nat) returns (p: nat)
    requires u < |site.updaters| && !PastPlace(site.updaters[u])
    requires u < |RunSites(site, steps).updaters| && PastPlace(RunSites(site, steps).updaters[u])
    ensures p < |steps| && steps[p] == Move(u, Place(Swapped)) && IsAt(RunSites(site, steps[..p]), u, Halted)
  {
    var n := |steps| - 1;
    var mid := RunSites(site, steps[..n]);
    PersistsRun(site, steps[..n], u);
    if PastPlace(mid.updaters[u]) {
      p := OwnPut(site, steps[..n], u);
      assert steps[..n][..p] == steps[..p];
    } else {
      PlaceStep(mid, steps[n], u);
      p := n;
    }
  }

  lemma SiteAtLater(site: Site, trace: seq<SiteStep>, a: nat, b: nat)
    requires a <= b <= |trace|
    ensures SiteAt(site, trace, b) == RunSites(SiteAt(site, trace, a), trace[a..b])
  {
    assert trace[..b][..a] == trace[..a] && trace[..b][a..] == trace[a..b];
    RunSitesSplit(site, trace[..b], a);
  }

  /** A node that is there at the end was there at every point, in the same directory. */
  lemma ThereAt(site: Site, trace: seq<SiteStep>, n: nat, id: NodeId)
    requires SiteInv(site) && n <= |trace| && id in site.world.used && id in RunSites(site, trace).world.nodes
    ensures SiteInv(SiteAt(site, trace, n)) && id in SiteAt(site, trace, n).world.nodes
    ensures DirOf(SiteAt(site, trace, n), id) == DirOf(RunSites(site, trace), id)
  {
    GoneForever(site, trace, id);
    StaysThere(site, trace, n, id);
    SiteInvRun(site, trace[..n]);
    IdentityRun(site, trace, id);
    IdentityRun(site, trace[..n], id);
  }

  lemma SliceOfSlice(trace: seq<SiteStep>, a: nat, b: nat, q: nat)
    requires a + q <= b <= |trace|
    ensures trace[a..b][..q] == trace[a..a + q]
  {
  }

  /** The update of a turn starts from its snapshot. */
  lemma TurnSnaps(site: Site, trace: seq<SiteStep>, id: NodeId, dist: Pack, k: Turn)
    requires k.look <= k.begun <= k.end <= |trace| && RanUpdate(site, trace, id, dist, k)
    ensures k.u < |SiteAt(site, trace, k.begun + 1).updaters|
        && !PastPlace(SiteAt(site, trace, k.begun + 1).updaters[k.u])
        && !PastHalt(SiteAt(site, trace, k.begun + 1).updaters[k.u])
  {
    assert trace[..k.begun + 1] == trace[..k.begun] + [Snap(id)];
    RunSitesSnoc(site, trace[..k.begun], Snap(id));
  }

  /** Where in its turn a replaced node got the chosen pack. */
  lemma PlacedAt(site: Site, trace: seq<SiteStep>, id: NodeId, dist: Pack, k: Turn) returns (p: nat)
    requires k.look <= k.begun <= k.end <= |trace| && RanUpdate(site, trace, id, dist, k) && k.verdict.Replaced?
    ensures k.begun < p < k.end && trace[p] == Move(k.u, Place(Swapped)) && IsAt(SiteAt(site, trace, p), k.u, Halted)
    ensures SiteAt(site, trace, p).updaters[k.u].id == id && SiteAt(site, trace, p).updaters[k.u].source == Some(dist)
  {
    var snapped, steps := SiteAt(site, trace, k.begun + 1), trace[k.begun + 1..k.end];
    SiteAtLater(site, trace, k.begun + 1, k.end);
    TurnSnaps(site, trace, id, dist, k);
    var q := OwnPut(snapped, steps, k.u);
    p := k.begun + 1 + q;
    SliceOfSlice(trace, k.begun + 1, k.end, q);
    SiteAtLater(site, trace, k.begun + 1, p);
    StillAbout(site, trace, p, k.end, k.u);
  }

  /** From its checks on an update is about the same node and source. */
  lemma StillAbout(site: Site, trace: seq<SiteStep>, a: nat, b: nat, u: nat)
    requires a <= b <= |trace| && IsUnderway(SiteAt(site, trace, a), u)
    ensures var here, there := SiteAt(site, trace, a), SiteAt(site, trace, b);
            && u < |there.updaters|
            && there.updaters[u].id == here.updaters[u].id && there.updaters[u].source == here.updaters[u].source
  {
    SiteAtLater(site, trace, a, b);
    PersistsRun(SiteAt(site, trace, a), trace[a..b], u);
  }

  /** What reads is this very pack, or a pack with this digest. */
  predicate HasDigest(pack: Option<Pack>, digest: string) {
    pack.Some? && pack.value.digest == digest
  }

  /** The directory reads as what the cache says. */
  predicate InSync(site: Site, id: NodeId)
    requires id in site.world.nodes
  {
    HasDigest(Readable(site, id), site.world.nodes[id].spec.digest)
  }

  /** What became of a replaced node's pack by the end of the run. */
  lemma ReplacedIsInPlace(site: Site, trace: seq<SiteStep>, id: NodeId, dist: Pack, k: Turn) returns (p: nat)
    requires SiteInv(site) && id in site.world.used && id in RunSites(site, trace).world.nodes
    requires k.look <= k.begun <= k.end <= |trace| && RanUpdate(site, trace, id, dist, k) && k.verdict.Replaced?
    ensures k.begun < p < k.end
    ensures var end := RunSites(site, trace);
            && Puts(SiteAt(site, trace, p), trace[p], DirOf(end, id)) == Some(Some(dist))
            && (Readable(end, id) == Some(dist) <==>
                  Stays(LastPut(SiteAt(site, trace, p + 1), trace[p + 1..], DirOf(end, id)), dist))
  {
    p := PlacedAt(site, trace, id, dist, k);
    PlacedReads(site, trace, id, dist, k, p);
  }

  /** Nothing was put there since, or this pack was put there again. */
  predicate Stays(put: Option<Option<Pack>>, pack: Pack) {
    put.None? || put.value == Some(pack)
  }

  /** A node listed as hot has the chosen digest in place at the end exactly when the directory agreed
      with the cache when the publish looked and nothing was put there since, or what was last put there
      has that digest. */
  lemma HotIsInPlaceIff(site: Site, trace: seq<SiteStep>, info: Info, packs: seq<Pack>, k: Turn)
    requires SiteInv(site) && info.id in site.world.used && info.id in RunSites(site, trace).world.nodes
    requires Took(site, trace, info, packs, k)
    ensures k.verdict.Hot? ==>
            var end := RunSites(site, trace);
            && Newest(packs, info).Some? && info.id in SiteAt(site, trace, k.look).world.nodes
            && (HasDigest(Readable(end, info.id), Newest(packs, info).value.digest) <==>
                  var put := LastPut(SiteAt(site, trace, k.look), trace[k.look..], DirOf(end, info.id));
                  if put.Some? then HasDigest(put.value, Newest(packs, info).value.digest)
                      else InSync(SiteAt(site, trace, k.look), info.id))
  {
    if k.verdict.Hot? {
      ThereAt(site, trace, k.look, info.id);
      RunSitesSplit(site, trace, k.look);
      ReadsRun(SiteAt(site, trace, k.look), trace[k.look..], DirOf(RunSites(site, trace), info.id));
    }
  }

  // ----- turns that fail --------------------------------------------------------------------

  /** The update has begun its stop, or was over after its checks. */
  predicate PastHalt(k: Updater) {
    match k.progress
    case Snapped(_, _) => false
    case Underway(_, point) => !point.Approved?
    case Finished(r) => !r.Refused?
  }

  lemma HaltStep(site: Site, s: SiteStep, u: nat)
    requires u < |site.updaters| && !PastHalt(site.updaters[u])
    requires u < |ApplySite(site, s).updaters| && PastHalt(ApplySite(site, s).updaters[u])
    ensures s == Move(u, Halt) && IsAt(site, u, Approved)
  {
    PersistsStep(site, s, u);
    if s.Move? && s.u == u {
      match s.m
      case Approve(source) =>
      case Halt =>
      case HaltEnds(ok) =>
      case Place(swap) =>
      case Record =>
      case Launch =>
      case LaunchLoads =>
      case LaunchEnds(outcome) =>
    }
  }

  /** An update that broke off had stopped its node at some point of its run. */
  lemma {:induction false} OwnHalt(site: Site, steps: seq<SiteStep>, u: nat) returns (p: nat)
    requires u < |site.updaters| && !PastHalt(site.updaters[u])
    requires u < |RunSites(site, steps).updaters| && PastHalt(RunSites(site, steps).updaters[u])
    ensures p < |steps| && steps[p] == Move(u, Halt) && IsAt(RunSites(site, steps[..p]), u, Approved)
  {
    var n := |steps| - 1;
    var mid := RunSites(site, steps[..n]);
    PersistsRun(site, steps[..n], u);
    if PastHalt(mid.updaters[u]) {
      p := OwnHalt(site, steps[..n], u);
      assert steps[..n][..p] == steps[..p];
    } else {
      HaltStep(mid, steps[n], u);
      p := n;
    }
  }

  /** Where in its turn a node whose update broke off was stopped. */
  lemma HaltedAt(site: Site, trace: seq<SiteStep>, id: NodeId, dist: Pack, k: Turn) returns (p: nat)
    requires k.look <= k.begun <= k.end <= |trace| && RanUpdate(site, trace, id, dist, k)
    requires SiteAt(site, trace, k.end).updaters[k.u].progress.result.Broken?
    ensures k.begun < p < k.end && trace[p] == Move(k.u, Halt) && IsAt(SiteAt(site, trace, p), k.u, Approved)
    ensures SiteAt(site, trace, p).updaters[k.u].id == id
  {
    var snapped, steps := SiteAt(site, trace, k.begun + 1), trace[k.begun + 1..k.end];
    SiteAtLater(site, trace, k.begun + 1, k.end);
    TurnSnaps(site, trace, id, dist, k);
    var q := OwnHalt(snapped, steps, k.u);
    p := k.begun + 1 + q;
    SliceOfSlice(trace, k.begun + 1, k.end, q);
    SiteAtLater(site, trace, k.begun + 1, p);
    StillAbout(site, trace, p, k.end, k.u);
  }

  /** A broken update leaves its node, at the end of its turn, as the last word since its own stop says. */
  lemma BrokenLeaves(site: Site, trace: seq<SiteStep>, id: NodeId, dist: Pack, k: Turn) returns (p: nat)
    requires SiteInv(site) && id in site.world.used && id in RunSites(site, trace).world.nodes
    requires k.look <= k.begun <= k.end <= |trace| && RanUpdate(site, trace, id, dist, k)
    requires SiteAt(site, trace, k.end).updaters[k.u].progress.result.Broken?
    ensures k.begun < p < k.end && StoppedThere(site, trace, id, k, p)
  {
    p := HaltedAt(site, trace, id, dist, k);
    ThereAt(site, trace, p, id);
    StoppedLeaves(SiteAt(site, trace, p), k.u, trace[p + 1..k.end]);
    SiteAtNext(site, trace, p);
  }

  /** The turn's update stopped the node here, and the rest of the turn left it as its last word says. */
  ghost predicate StoppedThere(site: Site, trace: seq<SiteStep>, id: NodeId, k: Turn, p: nat)
    requires p < k.end <= |trace|
  {
    && trace[p] == Move(k.u, Halt) && IsAt(SiteAt(site, trace, p), k.u, Approved)
    && LeavesAsSaid(SiteAt(site, trace, p + 1), trace[p + 1..k.end], id)
  }

  /** What a refused update did to the table and the packs: nothing. */
  ghost predicate NeverTouched(site: Site, trace: seq<SiteStep>, k: Turn)
    requires k.begun <= k.end <= |trace|
  {
    forall n | k.begun <= n < k.end && trace[n].Move? && trace[n].u == k.u ::
      && SiteAt(site, trace, n + 1).world == SiteAt(site, trace, n).world
      && SiteAt(site, trace, n + 1).disk == SiteAt(site, trace, n).disk
  }

  /** Whatever an accepted update reports, it is not a refusal. */
  lemma UnderwayNotRefused(site: Site, s: SiteStep, u: nat)
    requires IsUnderway(site, u)
    ensures u < |ApplySite(site, s).updaters|
    ensures var k' := ApplySite(site, s).updaters[u];
            IsUnderway(ApplySite(site, s), u) || (k'.progress.Finished? && !k'.progress.result.Refused?)
  {
    PersistsStep(site, s, u);
    if s.Move? && s.u == u {
      match s.m
      case Approve(source) =>
      case Halt =>
      case HaltEnds(ok) =>
      case Place(swap) =>
      case Record =>
      case Launch =>
      case LaunchLoads =>
      case LaunchEnds(outcome) =>
    }
  }

  lemma {:induction false} RefusedThroughout(site: Site, trace: seq<SiteStep>, u: nat, n: nat, m: nat)
    requires n <= m <= |trace| && IsUnderway(SiteAt(site, trace, n), u)
    ensures u < |SiteAt(site, trace, m).updaters|
    ensures var k := SiteAt(site, trace, m).updaters[u];
            IsUnderway(SiteAt(site, trace, m), u) || (k.progress.Finished? && !k.progress.result.Refused?)
  {
    if n < m {
      RefusedThroughout(site, trace, u, n, m - 1);
      SiteAtNext(site, trace, m - 1);
      if IsUnderway(SiteAt(site, trace, m - 1), u) {
        UnderwayNotRefused(SiteAt(site, trace, m - 1), trace[m - 1], u);
      } else {
        PersistsStep(SiteAt(site, trace, m - 1), trace[m - 1], u);
      }
    }
  }

  lemma RefusedTouches(site: Site, u: nat, m: UpdateMove)
    requires !IsUnderway(site, u)
    ensures ApplySite(site, Move(u, m)).world == site.world && ApplySite(site, Move(u, m)).disk == site.disk
  {
    match m
    case Approve(source) =>
    case Halt =>
    case HaltEnds(ok) =>
    case Place(swap) =>
    case Record =>
    case Launch =>
    case LaunchLoads =>
    case LaunchEnds(outcome) =>
  }

  lemma RefusedLeaves(site: Site, trace: seq<SiteStep>, id: NodeId, dist: Pack, k: Turn)
    requires k.look <= k.begun <= k.end <= |trace| && RanUpdate(site, trace, id, dist, k)
    requires SiteAt(site, trace, k.end).updaters[k.u].progress.result.Refused?
    ensures NeverTouched(site, trace, k)
  {
    forall n | k.begun <= n < k.end && trace[n].Move? && trace[n].u == k.u
      ensures SiteAt(site, trace, n + 1).world == SiteAt(site, trace, n).world
      ensures SiteAt(site, trace, n + 1).disk == SiteAt(site, trace, n).disk
    {
      if IsUnderway(SiteAt(site, trace, n), k.u) { RefusedThroughout(site, trace, k.u, n, k.end); }
      SiteAtNext(site, trace, n);
      RefusedTouches(SiteAt(site, trace, n), k.u, trace[n].m);
    }
  }

  // ----- a listed node ----------------------------------------------------------------------

  /** Listed as updated: the chosen pack was put in place within the turn, and is in place at the end of
      the run exactly when nothing else was put there since. */
  ghost predicate ReplacedAsSaid(site: Site, trace: seq<SiteStep>, id: NodeId, dist: Pack, k: Turn)
    requires k.begun <= k.end <= |trace| && id in RunSites(site, trace).world.nodes
  {
    var end := RunSites(site, trace);
    exists p | k.begun < p < k.end ::
      && Puts(SiteAt(site, trace, p), trace[p], DirOf(end, id)) == Some(Some(dist))
      && (Readable(end, id) == Some(dist) <==>
            Stays(LastPut(SiteAt(site, trace, p + 1), trace[p + 1..], DirOf(end, id)), dist))
  }

  /** Listed as hot: the chosen digest is in place at the end exactly when directory and cache agreed at
      the look and nothing was put there since, or what was last put there has that digest. */
  ghost predicate HotAsSaid(site: Site, trace: seq<SiteStep>, id: NodeId, digest: string, k: Turn)
    requires k.look <= |trace| && id in RunSites(site, trace).world.nodes
  {
    var seen, end := SiteAt(site, trace, k.look), RunSites(site, trace);
    && id in seen.world.nodes
    && (HasDigest(Readable(end, id), digest) <==>
          var put := LastPut(seen, trace[k.look..], DirOf(end, id));
          if put.Some? then HasDigest(put.value, digest) else InSync(seen, id))
  }

  /** Listed as failed: refused, with nothing touched, or stopped in its turn and left, at the end of the
      turn, as the last word since that stop says. */
  ghost predicate FailedAsSaid(site: Site, trace: seq<SiteStep>, id: NodeId, dist: Pack, k: Turn)
    requires k.look <= k.begun <= k.end <= |trace| && RanUpdate(site, trace, id, dist, k)
  {
    if SiteAt(site, trace, k.end).updaters[k.u].progress.result.Refused? then NeverTouched(site, trace, k)
    else exists p | k.begun < p < k.end :: StoppedThere(site, trace, id, k, p)
  }

  /** What a full render guarantees of one listed node, whatever others did meanwhile. */
  ghost predicate ConvergesAsSaid(site: Site, trace: seq<SiteStep>, info: Info, packs: seq<Pack>, k: Turn)
    requires info.id in site.world.nodes && info.id in RunSites(site, trace).world.nodes
        && Took(site, trace, info, packs, k)
  {
    var end, dist := RunSites(site, trace), Newest(packs, info);
    && end.world.nodes[info.id].spec.principal == site.world.nodes[info.id].spec.principal
    && (k.verdict.Replaced? ==> dist.Some? && ReplacedAsSaid(site, trace, info.id, dist.value, k))
    && (k.verdict.Hot? ==> dist.Some? && HotAsSaid(site, trace, info.id, dist.value.digest, k))
    && (k.verdict.Failure? ==> dist.Some? && FailedAsSaid(site, trace, info.id, dist.value, k))
  }

  lemma TurnConverges(site: Site, trace: seq<SiteStep>, info: Info, packs: seq<Pack>, k: Turn)
    requires SiteInv(site) && info.id in site.world.nodes && info.id in RunSites(site, trace).world.nodes
    requires Took(site, trace, info, packs, k)
    ensures ConvergesAsSaid(site, trace, info, packs, k)
  {
    var id := info.id;
    assert id in site.world.used;
    IdentityRun(site, trace, id);
    if k.verdict.Replaced? { var p := ReplacedIsInPlace(site, trace, id, Newest(packs, info).value, k); }
    if k.verdict.Hot? { HotIsInPlaceIff(site, trace, info, packs, k); }
    if k.verdict.Failure? { FailedLeaves(site, trace, id, Newest(packs, info).value, k); }
  }

  lemma FailedLeaves(site: Site, trace: seq<SiteStep>, id: NodeId, dist: Pack, k: Turn)
    requires SiteInv(site) && id in site.world.used && id in RunSites(site, trace).world.nodes
    requires k.look <= k.begun <= k.end <= |trace| && RanUpdate(site, trace, id, dist, k) && k.verdict.Failure?
    ensures FailedAsSaid(site, trace, id, dist, k)
  {
    if SiteAt(site, trace, k.end).updaters[k.u].progress.result.Broken? {
      var p := BrokenLeaves(site, trace, id, dist, k);
    } else {
      RefusedLeaves(site, trace, id, dist, k);
    }
  }

  // ----- a publish nobody disturbs ----------------------------------------------------------

  /** Nobody but the turn itself updates the node or takes its directory away. */
  ghost predicate LeftAlone(site: Site, trace: seq<SiteStep>, id: NodeId, k: Turn)
    requires id in site.world.nodes
  {
    && (forall u | 0 <= u < |site.updaters| :: site.updaters[u].progress.Finished?)
    && (forall n | 0 <= n < |trace| && trace[n] == Snap(id) :: n == k.begun)
    && (forall n | 0 <= n < |trace| :: trace[n] != Vanish(DirOf(site, id)))
  }

  /** Updates in flight are the turn's own or work elsewhere. */
  ghost predicate OthersElsewhere(here: Site, id: NodeId, u: nat)
    requires id in here.world.nodes
  {
    forall v | 0 <= v < |here.updaters| && v != u ::
      here.updaters[v].progress.Finished? || here.updaters[v].dir != DirOf(here, id)
  }

  lemma ElsewhereStep(here: Site, s: SiteStep, id: NodeId, u: nat)
    requires SiteInv(here) && id in here.world.nodes && id in ApplySite(here, s).world.nodes
    requires OthersElsewhere(here, id, u) && (s == Snap(id) ==> u == |here.updaters|)
    ensures OthersElsewhere(ApplySite(here, s), id, u)
  {
    var next := ApplySite(here, s);
    StepFollows(here, s);
    assert NodeFollows(here, next, id);
    forall v | 0 <= v < |next.updaters| && v != u
      ensures next.updaters[v].progress.Finished? || next.updaters[v].dir != DirOf(next, id)
    {
      if v < |here.updaters| { PersistsStep(here, s, v); } else { SnapElsewhere(here, s, id, v); }
    }
  }

  lemma SnapElsewhere(here: Site, s: SiteStep, id: NodeId, v: nat)
    requires SiteInv(here) && id in here.world.nodes && s != Snap(id)
        && |here.updaters| <= v < |ApplySite(here, s).updaters|
    ensures ApplySite(here, s).updaters[v].progress.Finished? || ApplySite(here, s).updaters[v].dir != DirOf(here, id)
  {
    if s.Snap? && s.id in here.world.nodes { assert !Conflict(here.world.nodes[s.id].spec, here.world.nodes[id].spec); }
  }

  lemma {:induction false} ElsewhereRun(site: Site, trace: seq<SiteStep>, id: NodeId, dist: Pack, k: Turn, n: nat)
    requires SiteInv(site) && id in site.world.nodes && id in RunSites(site, trace).world.nodes && n <= |trace|
    requires k.look <= k.begun <= k.end <= |trace| && RanUpdate(site, trace, id, dist, k)
        && LeftAlone(site, trace, id, k)
    ensures id in SiteAt(site, trace, n).world.nodes && OthersElsewhere(SiteAt(site, trace, n), id, k.u)
  {
    assert id in site.world.used;
    ThereAt(site, trace, n, id);
    if n > 0 {
      ElsewhereRun(site, trace, id, dist, k, n - 1);
      ThereAt(site, trace, n - 1, id);
      ElsewhereNext(site, trace, n - 1, id, k.u);
    }
  }

  lemma ElsewhereNext(site: Site, trace: seq<SiteStep>, n: nat, id: NodeId, u: nat)
    requires n < |trace| && SiteInv(SiteAt(site, trace, n)) && id in SiteAt(site, trace, n).world.nodes
    requires id in SiteAt(site, trace, n + 1).world.nodes && OthersElsewhere(SiteAt(site, trace, n), id, u)
    requires trace[n] == Snap(id) ==> u == |SiteAt(site, trace, n).updaters|
    ensures OthersElsewhere(SiteAt(site, trace, n + 1), id, u)
  {
    SiteAtNext(site, trace, n);
    ElsewhereStep(SiteAt(site, trace, n), trace[n], id, u);
  }

  /** What is past its swap stays past it. */
  lemma PastStays(site: Site, s: SiteStep, u: nat)
    requires u < |site.updaters| && (PastPlace(site.updaters[u]) || site.updaters[u].progress.Finished?)
    ensures u < |ApplySite(site, s).updaters|
    ensures PastPlace(ApplySite(site, s).updaters[u]) || ApplySite(site, s).updaters[u].progress.Finished?
  {
    PersistsStep(site, s, u);
    if s.Move? && s.u == u {
      match s.m
      case Approve(source) =>
      case Halt =>
      case HaltEnds(ok) =>
      case Place(swap) =>
      case Record =>
      case Launch =>
      case LaunchLoads =>
      case LaunchEnds(outcome) =>
    }
  }

  /** The turn's update is past its swap from then on. */
  lemma {:induction false} PastFrom(site: Site, trace: seq<SiteStep>, u: nat, p: nat, n: nat)
    requires p < n <= |trace| && trace[p] == Move(u, Place(Swapped)) && IsAt(SiteAt(site, trace, p), u, Halted)
    ensures var here := SiteAt(site, trace, n);
            u < |here.updaters| && (PastPlace(here.updaters[u]) || here.updaters[u].progress.Finished?)
  {
    SiteAtNext(site, trace, n - 1);
    if n > p + 1 {
      PastFrom(site, trace, u, p, n - 1);
      PastStays(SiteAt(site, trace, n - 1), trace[n - 1], u);
    }
  }

  lemma PutsNothing(site: Site, trace: seq<SiteStep>, id: NodeId, dist: Pack, k: Turn, p: nat, n: nat)
    requires SiteInv(site) && id in site.world.nodes && id in RunSites(site, trace).world.nodes
    requires k.look <= k.begun <= k.end <= |trace| && RanUpdate(site, trace, id, dist, k)
        && LeftAlone(site, trace, id, k)
    requires p < n < |trace| && trace[p] == Move(k.u, Place(Swapped)) && IsAt(SiteAt(site, trace, p), k.u, Halted)
    ensures Puts(SiteAt(site, trace, n), trace[n], DirOf(site, id)).None?
  {
    PastFrom(site, trace, k.u, p, n);
    ElsewhereRun(site, trace, id, dist, k, n);
    SameDir(site, trace, n, id);
    NoPut(SiteAt(site, trace, n), trace[n], id, k.u);
  }

  lemma SiteAtNext(site: Site, trace: seq<SiteStep>, n: nat)
    requires n < |trace|
    ensures SiteAt(site, trace, n + 1) == ApplySite(SiteAt(site, trace, n), trace[n])
  {
    assert trace[..n + 1] == trace[..n] + [trace[n]];
    RunSitesSnoc(site, trace[..n], trace[n]);
  }

  lemma SameDir(site: Site, trace: seq<SiteStep>, n: nat, id: NodeId)
    requires SiteInv(site) && n <= |trace| && id in site.world.nodes && id in RunSites(site, trace).world.nodes
    ensures id in SiteAt(site, trace, n).world.nodes && DirOf(SiteAt(site, trace, n), id) == DirOf(site, id)
  {
    assert id in site.world.used;
    ThereAt(site, trace, n, id);
    IdentityRun(site, trace[..n], id);
  }

  /** Nobody is left to put anything there. */
  lemma NoPut(here: Site, s: SiteStep, id: NodeId, u: nat)
    requires id in here.world.nodes && OthersElsewhere(here, id, u) && s != Vanish(DirOf(here, id))
    requires u < |here.updaters| && (PastPlace(here.updaters[u]) || here.updaters[u].progress.Finished?)
    ensures Puts(here, s, DirOf(here, id)).None?
  {
  }

  /** A publish nobody disturbs: with any other steps of the manager and updates of other nodes in between,
      a node listed as updated has exactly the chosen pack in place when the whole run ends. */
  lemma UndisturbedPublish(site: Site, trace: seq<SiteStep>, info: Info, packs: seq<Pack>, k: Turn)
    requires SiteInv(site) && info.id in site.world.nodes && info.id in RunSites(site, trace).world.nodes
    requires Took(site, trace, info, packs, k) && k.verdict.Replaced? && LeftAlone(site, trace, info.id, k)
    ensures Newest(packs, info).Some? && Readable(RunSites(site, trace), info.id) == Newest(packs, info)
  {
    var id, dist := info.id, Newest(packs, info).value;
    assert id in site.world.used;
    var p := PlacedAt(site, trace, id, dist, k);
    NothingAfter(site, trace, id, dist, k, p);
    IdentityRun(site, trace, id);
    PlacedReads(site, trace, id, dist, k, p);
  }

  lemma NothingAfter(site: Site, trace: seq<SiteStep>, id: NodeId, dist: Pack, k: Turn, p: nat)
    requires SiteInv(site) && id in site.world.nodes && id in RunSites(site, trace).world.nodes
    requires k.look <= k.begun <= k.end <= |trace| && RanUpdate(site, trace, id, dist, k)
    requires LeftAlone(site, trace, id, k)
    requires p < |trace| && trace[p] == Move(k.u, Place(Swapped)) && IsAt(SiteAt(site, trace, p), k.u, Halted)
    ensures LastPut(SiteAt(site, trace, p + 1), trace[p + 1..], DirOf(site, id)).None?
  {
    if LastPut(SiteAt(site, trace, p + 1), trace[p + 1..], DirOf(site, id)).Some? {
      var n := PutAfter(site, trace, p + 1, DirOf(site, id));
      PutsNothing(site, trace, id, dist, k, p, n);
    }
  }

  lemma PutAfter(site: Site, trace: seq<SiteStep>, a: nat, dir: string) returns (n: nat)
    requires a <= |trace| && LastPut(SiteAt(site, trace, a), trace[a..], dir).Some?
    ensures a <= n < |trace| && Puts(SiteAt(site, trace, n), trace[n], dir).Some?
  {
    var m := PutSomewhere(SiteAt(site, trace, a), trace[a..], dir);
    n := a + m;
    SiteAtLater(site, trace, a, n);
    assert trace[a..][..m] == trace[a..n];
  }

  lemma PlacedReads(site: Site, trace: seq<SiteStep>, id: NodeId, dist: Pack, k: Turn, p: nat)
    requires SiteInv(site) && id in site.world.used && id in RunSites(site, trace).world.nodes && p < |trace|
    requires trace[p] == Move(k.u, Place(Swapped)) && IsAt(SiteAt(site, trace, p), k.u, Halted)
    requires SiteAt(site, trace, p).updaters[k.u].id == id && SiteAt(site, trace, p).updaters[k.u].source == Some(dist)
    ensures var end := RunSites(site, trace);
            && Puts(SiteAt(site, trace, p), trace[p], DirOf(end, id)) == Some(Some(dist))
            && (Readable(end, id) == Some(dist) <==>
                  Stays(LastPut(SiteAt(site, trace, p + 1), trace[p + 1..], DirOf(end, id)), dist))
  {
    var dir := DirOf(RunSites(site, trace), id);
    ThereAt(site, trace, p, id);
    var here := SiteAt(site, trace, p);
    assert Fits(here, here.updaters[k.u]);
    ReadsStep(here, trace[p], dir);
    assert trace[..p + 1] == trace[..p] + [trace[p]];
    RunSitesSnoc(site, trace[..p], trace[p]);
    RunSitesSplit(site, trace, p + 1);
    ReadsRun(SiteAt(site, trace, p + 1), trace[p + 1..], dir);
  }
}
