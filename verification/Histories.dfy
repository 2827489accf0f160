/** What the last section that touched a thing left of it: packs in directories, caches, intents. */
module Histories {
  import opened Types
  import opened Supervision
  import opened Invariants
  import opened Profiles
  import opened Sites
  import opened Identity

  // ----- directories ------------------------------------------------------------------------

  /** What a step does to a directory: nothing, empty it, or put a pack there. */
  function Puts(site: Site, s: SiteStep, dir: string): Option<Option<Pack>> {
    match s
    case Vanish(d) => if d == dir then Some(None) else None
    case Move(u, m) =>
      if m.Place? && IsAt(site, u, Halted) && site.updaters[u].dir == dir && !m.swap.SwapUntouched?
      then Some(if m.swap.SwapEmptied? then None else site.updaters[u].source)
      else None
    case _ => None
  }

  lemma ReadsStep(site: Site, s: SiteStep, dir: string)
    ensures Reads(ApplySite(site, s).disk, dir) == if Puts(site, s, dir).Some? then Puts(site, s, dir).value
        else Reads(site.disk, dir)
  {
    match s
    case Core(c) =>
    case Vanish(d) =>
    case Snap(id) =>
    case Move(u, m) =>
  }

  /** The last thing a run did to a directory. */
  function LastPut(site: Site, steps: seq<SiteStep>, dir: string): Option<Option<Pack>> {
    if steps == [] then None
    else
      var n := |steps| - 1;
      var put := Puts(RunSites(site, steps[..n]), steps[n], dir);
      if put.Some? then put else LastPut(site, steps[..n], dir)
  }

  lemma {:induction false} ReadsRun(site: Site, steps: seq<SiteStep>, dir: string)
    ensures Reads(RunSites(site, steps).disk, dir) ==
              if LastPut(site, steps, dir).Some? then LastPut(site, steps, dir).value else Reads(site.disk, dir)
  {
    if steps != [] {
      var n := |steps| - 1;
      ReadsRun(site, steps[..n], dir);
      ReadsStep(RunSites(site, steps[..n]), steps[n], dir);
    }
  }

  /** Where a run that did something to a directory did it. */
  lemma {:induction false} PutSomewhere(site: Site, steps: seq<SiteStep>, dir: string) returns (m: nat)
    requires LastPut(site, steps, dir).Some?
    ensures m < |steps| && Puts(RunSites(site, steps[..m]), steps[m], dir).Some?
  {
    var n := |steps| - 1;
    if Puts(RunSites(site, steps[..n]), steps[n], dir).Some? {
      m := n;
    } else {
      m := PutSomewhere(site, steps[..n], dir);
      assert steps[..n][..m] == steps[..m];
    }
  }

  // ----- caches -----------------------------------------------------------------------------

  /** The cached part of the spec is this pack's. */
  predicate Shows(spec: Spec, pack: Pack) {
    RefreshedSpec(spec, pack) == spec
  }

  /** Two specs that differ in preferences only. */
  predicate SameCache(a: Spec, b: Spec) {
    b == a.(transport := b.transport, quicAddr := b.quicAddr, addresses := b.addresses)
  }

  /** What pack, if any, a step records in the node's cache. */
  function Records(site: Site, s: SiteStep, id: NodeId): Option<Pack> {
    if s.Move? && s.m.Record? && IsAt(site, s.u, Placed) && site.updaters[s.u].id == id
    then site.updaters[s.u].source
    else None
  }

  lemma CacheStep(site: Site, s: SiteStep, id: NodeId)
    requires SiteInv(site) && id in site.world.nodes && id in ApplySite(site, s).world.nodes
    ensures var spec' := ApplySite(site, s).world.nodes[id].spec;
            if Records(site, s, id).Some? then Shows(spec', Records(site, s, id).value)
                else SameCache(site.world.nodes[id].spec, spec')
  {
    StepIsAStep(site, s);
    if Within(site, s).Some? {
      NodesMoveStep(site.world, Within(site, s).value);
      CacheMoves(site, s, ApplySite(site, s).world, id);
    }
  }

  lemma CacheMoves(site: Site, s: SiteStep, w': World, id: NodeId)
    requires Within(site, s).Some? && NodesMove(site.world, Within(site, s).value, w') && id in site.world.nodes
        && id in w'.nodes
    ensures if Records(site, s, id).Some? then Shows(w'.nodes[id].spec, Records(site, s, id).value)
            else SameCache(site.world.nodes[id].spec, w'.nodes[id].spec)
  {
    assert EntryMoves(site.world, Within(site, s).value, w', id);
  }

  function LastRecord(site: Site, steps: seq<SiteStep>, id: NodeId): Option<Pack> {
    if steps == [] then None
    else
      var n := |steps| - 1;
      var pack := Records(RunSites(site, steps[..n]), steps[n], id);
      if pack.Some? then pack else LastRecord(site, steps[..n], id)
  }

  lemma {:induction false} CacheRun(site: Site, steps: seq<SiteStep>, id: NodeId)
    requires SiteInv(site) && id in site.world.nodes && id in RunSites(site, steps).world.nodes
    ensures var spec' := RunSites(site, steps).world.nodes[id].spec;
            if LastRecord(site, steps, id).Some? then Shows(spec', LastRecord(site, steps, id).value)
            else SameCache(site.world.nodes[id].spec, spec')
  {
    if steps != [] {
      var n := |steps| - 1;
      var mid := RunSites(site, steps[..n]);
      SiteInvRun(site, steps[..n]);
      StaysThere(site, steps, n, id);
      CacheRun(site, steps[..n], id);
      CacheStep(mid, steps[n], id);
    }
  }

  /** A node that is there at the end was there all along. */
  lemma StaysThere(site: Site, steps: seq<SiteStep>, n: nat, id: NodeId)
    requires SiteInv(site) && n <= |steps| && id in site.world.nodes && id in RunSites(site, steps).world.nodes
    ensures id in RunSites(site, steps[..n]).world.nodes
  {
    var mid := RunSites(site, steps[..n]);
    SiteInvRun(site, steps[..n]);
    GoneForever(site, steps[..n], id);
    RunSitesSplit(site, steps, n);
    GoneForever(mid, steps[n..], id);
  }

  // ----- intents ----------------------------------------------------------------------------

  function SaysHere(site: Site, s: SiteStep, id: NodeId): Option<bool> {
    if Within(site, s).Some? then Says(site.world, Within(site, s).value, id) else None
  }

  /** The last word a run has on a node's intent. */
  function LastWord(site: Site, steps: seq<SiteStep>, id: NodeId): Option<bool> {
    if steps == [] then None
    else
      var n := |steps| - 1;
      var word := SaysHere(RunSites(site, steps[..n]), steps[n], id);
      if word.Some? then word else LastWord(site, steps[..n], id)
  }

  lemma {:induction false} DesiredRun(site: Site, steps: seq<SiteStep>, id: NodeId)
    requires SiteInv(site) && id in site.world.nodes && id in RunSites(site, steps).world.nodes
    ensures RunSites(site, steps).world.nodes[id].desired ==
              if LastWord(site, steps, id).Some? then LastWord(site, steps, id).value else site.world.nodes[id].desired
  {
    if steps != [] {
      var n := |steps| - 1;
      var mid := RunSites(site, steps[..n]);
      SiteInvRun(site, steps[..n]);
      StaysThere(site, steps, n, id);
      DesiredRun(site, steps[..n], id);
      StepIsAStep(mid, steps[n]);
      if Within(mid, steps[n]).Some? { DesiredStep(mid.world, Within(mid, steps[n]).value, id); }
    }
  }
}
