/** Runs that show what the protocol does not promise. */
module Races {
  import opened Types
  import opened Supervision
  import opened Invariants
  import opened Stops
  import opened Profiles
  import opened Sites
  import Quits
  import Stale
  import LivePrefs
  import Updates
  import Publish

  const N: NodeId := "n"

  const DIR := PackDir("packs/n", "/packs/n")

  const PACK := Pack(ExposeAgent, "n", "realm/main/agent/n", 1, "digest")

  function OnePack(dir: PackDir): Option<Pack> {
    Some(PACK)
  }

  /** One expose agent, not wanted yet. */
  function OneNode(): World {
    Restore(map[N := ProfileEntry(DIR, None, None, map[], false)], OnePack)
  }

  /** The node is up in generation one: engine 0, listener 1, renewal 2. */
  lemma Up() returns (steps: seq<Step>)
    ensures var w := Run(OneNode(), steps);
            && N in w.nodes && w.nodes[N] == Entry(OneNode().nodes[N].spec, Some(map[]), true, false, Connecting,
                Some(0),
                Some(2), 0, 1)
            && w.tasks == [Done, Listener(N, 1, 0, true, Watching), Renewal(N, 1, Waiting)]
            && w.engines == [Engine(true, false, PACK)]
  {
    var w0 := OneNode();
    var s := Call(0, StartCommit(Some(Connecting), ""));
    steps := Loaded();
    RunSnoc(w0, steps, s);
    assert StartGoes(Run(w0, steps), 0);
    steps := steps + [s];
  }

  /** A start of the node has loaded its pack. */
  lemma Loaded() returns (steps: seq<Step>)
    ensures Run(OneNode(), steps) == OneNode().(tasks := [Starter(N, OneNode().nodes[N].spec, Some(PACK), false)])
  {
    var s1, s2 := User(StartBegin(N, false)), Call(0, StartLoad(PACK));
    steps := [s1, s2];
    RunTwo(OneNode(), s1, s2);
    assert Apply(OneNode(), s1).tasks == [Starter(N, OneNode().nodes[N].spec, None, false)];
  }

  /** Stop-all undone: a renewal whose future ended just before is not aborted, and brings the node up
      again although the user stopped everything. */
  lemma StopAllUndone() returns (before: seq<Step>, after: seq<Step>)
    ensures var w := Apply(Run(OneNode(), before), User(SweepBegin(true)));
            && NeverStarts(w, after, N)
            && N in Run(w, after).nodes && Run(w, after).nodes[N].engine.Some?
  {
    before := Up();
    var w1 := Run(OneNode(), before);
    var s := Renew(2, FutureEnds(None));
    RunSnoc(OneNode(), before, s);
    before := before + [s];
    var w2 := Run(OneNode(), before);
    assert w2.tasks[2] == Renewal(N, 1, Ready);
    var w := Apply(w2, User(SweepBegin(true)));
    assert w.tasks[2] == Renewal(N, 1, Ready);
    after := Revive(w, 2, N);
  }

  /** The node is up and its renewal has begun. */
  lemma RenewalBegun() returns (steps: seq<Step>)
    ensures var w := Run(OneNode(), steps);
            && N in w.nodes && w.nodes[N].generation == 1 && w.nodes[N].engine == Some(0)
            && w.nodes[N].spec == OneNode().nodes[N].spec && w.nodes[N].renewal.None?
            && w.tasks == [Done, Listener(N, 1, 0, true, Watching), Renewal(N, 1, Begun)]
            && w.engines == [Engine(true, false, PACK)]
  {
    var w0 := OneNode();
    steps := Up();
    RunSnoc(w0, steps, Renew(2, FutureEnds(None)));
    steps := steps + [Renew(2, FutureEnds(None))];
    assert Run(w0, steps).tasks[2] == Renewal(N, 1, Ready);
    RunSnoc(w0, steps, Renew(2, Begin));
    steps := steps + [Renew(2, Begin)];
  }

  /** ... and is about to take the engine. */
  lemma MidRenewal() returns (steps: seq<Step>)
    ensures var w := Run(OneNode(), steps);
            && N in w.nodes && w.nodes[N].generation == 1 && w.nodes[N].engine == Some(0)
            && w.nodes[N].spec == OneNode().nodes[N].spec && w.nodes[N].renewal.None?
            && w.tasks == [Done, Listener(N, 1, 0, true, Watching), Renewal(N, 1, Taking)]
            && w.engines == [Engine(true, false, PACK)]
  {
    steps := RenewalBegun();
    RunSnoc(OneNode(), steps, Renew(2, AnnounceRenewal));
    steps := steps + [Renew(2, AnnounceRenewal)];
  }

  /** ... and meanwhile the user stops the node. */
  lemma StoppedMidRenewal() returns (steps: seq<Step>)
    ensures var w := Run(OneNode(), steps);
            && N in w.nodes && w.nodes[N].generation == 2 && w.nodes[N].engine.None?
                && w.nodes[N].spec == OneNode().nodes[N].spec
            && w.tasks == [Done, Listener(N, 1, 0, true, Watching), Renewal(N, 1, Taking), Stopper(N, Some(0))]
            && w.engines == [Engine(true, false, PACK)]
  {
    steps := MidRenewal();
    RunSnoc(OneNode(), steps, User(StopBegin(N)));
    steps := steps + [User(StopBegin(N))];
  }

  /** ... and starts it again. */
  lemma StartedMidRenewal() returns (steps: seq<Step>)
    ensures var w := Run(OneNode(), steps);
            && N in w.nodes && w.nodes[N].generation == 3 && w.nodes[N].engine == Some(1) && w.nodes[N].desired
            && !w.nodes[N].expectedStop
            && |w.tasks| > 2 && w.tasks[2] == Renewal(N, 1, Taking) && |w.engines| == 2 && w.engines[1].alive
  {
    var s := Call(4, StartCommit(Some(Connecting), ""));
    steps := LoadedMidRenewal();
    RunSnoc(OneNode(), steps, s);
    steps := steps + [s];
  }

  lemma LoadedMidRenewal() returns (steps: seq<Step>)
    ensures var w := Run(OneNode(), steps);
            && N in w.nodes && w.nodes[N].generation == 2 && StartGoes(w, 4) && w.tasks[4].id == N
            && w.tasks[2] == Renewal(N, 1, Taking) && |w.engines| == 1
  {
    var w0 := OneNode();
    steps := StoppedMidRenewal();
    var s, load := User(StartBegin(N, false)), Call(4, StartLoad(PACK));
    RunSnoc(w0, steps, s);
    assert Run(w0, steps + [s]).tasks == Run(w0, steps).tasks + [Starter(N, w0.nodes[N].spec, None, false)];
    RunSnoc(w0, steps + [s], load);
    steps := steps + [s] + [load];
  }

  /** A renewal that began before a stop and a fresh start takes the fresh engine: the node is wanted,
      was never stopped again, and has nothing running. */
  lemma StaleRenewalTakesFreshEngine() returns (steps: seq<Step>, s: Step)
    ensures var w := Run(OneNode(), steps);
            && Stale.Outdated(w, 2) && Actor(s, 2)
            && N in w.nodes && SlotAlive(w, N) && w.nodes[N].desired
            && N in Apply(w, s).nodes && Apply(w, s).nodes[N].engine.None? && Apply(w, s).nodes[N].desired
                && !Apply(w, s).nodes[N].expectedStop
  {
    steps := StartedMidRenewal();
    s := Renew(2, Take);
  }

  /** A start whose engine build fails is forgotten by a quit and relaunch. */
  lemma FailedStartForgotten() returns (steps: seq<Step>)
    ensures !Saved(Run(OneNode(), steps)) && Desired(Run(OneNode(), steps)) == {N}
  {
    var w0 := OneNode();
    var s := Call(0, StartCommit(None, "cannot start"));
    steps := Loaded();
    RunSnoc(w0, steps, s);
    var w2 := Apply(Run(w0, steps), s);
    steps := steps + [s];
    assert Disk(w2) == w0.base;
    assert ProfileOf(w2.nodes)[N].desiredRunning && !w0.base[N].desiredRunning;
  }

  /** A start is preparing when the preferences are edited. */
  lemma EditedMidStart() returns (steps: seq<Step>)
    ensures var w := Run(OneNode(), steps);
            && N in w.nodes && w.nodes[N].engine.None? && w.nodes[N].spec.addresses == map["web" := "127.0.0.1:3000"]
            && w.tasks == [Starter(N, OneNode().nodes[N].spec, Some(PACK), false)]
  {
    var w0 := OneNode();
    var s := User(SetPrefs(N, None, None, map["web" := "127.0.0.1:3000"]));
    steps := Loaded();
    RunSnoc(w0, steps, s);
    steps := steps + [s];
  }

  /** An edit that lands while a start is preparing is recorded but not live. */
  lemma EditMissedByStart() returns (steps: seq<Step>)
    ensures !LivePrefs.Tracks(Run(OneNode(), steps), N)
  {
    var s := Call(0, StartCommit(Some(Connecting), ""));
    steps := EditedMidStart();
    RunSnoc(OneNode(), steps, s);
    var w := Apply(Run(OneNode(), steps), s);
    assert w.nodes[N].table == Some(map[]) && "web" in w.nodes[N].spec.addresses;
    steps := steps + [s];
  }

  // ----- updates ----------------------------------------------------------------------------

  function PackOf(generation: nat, digest: string): Pack {
    Pack(ExposeAgent, "n", "realm/main/agent/n", generation, digest)
  }

  /** One expose agent with the first generation in its directory. */
  function OneSite(wanted: bool): Site {
    Opened(map[N := ProfileEntry(DIR, None, None, map[], wanted)], map["/packs/n" := PackOf(1, "old")])
  }

  lemma Then(start: Site, steps: seq<SiteStep>, s: SiteStep) returns (more: seq<SiteStep>)
    ensures more == steps + [s] && RunSites(start, more) == ApplySite(RunSites(start, steps), s)
  {
    more := steps + [s];
    RunSitesSnoc(start, steps, s);
  }

  /** The node's first update has passed its checks. */
  lemma UpdateApproved(wanted: bool, source: Pack) returns (steps: seq<SiteStep>)
    requires source.principal == "realm/main/agent/n" && source.generation >= 1
    ensures var site := RunSites(OneSite(wanted), steps);
            && site.updaters == [Updater(N, "/packs/n", wanted, Some(source), Underway(1, Approved))]
            && site.disk == OneSite(wanted).disk && site.world == OneSite(wanted).world
  {
    var start := OneSite(wanted);
    steps := Then(start, [], Snap(N));
    assert RunSites(start, []) == start;
    assert RunSites(start, steps).updaters == [Updater(N, "/packs/n", wanted, None,
        Snapped(Some("realm/main/agent/n"), 1))];
    steps := Then(start, steps, Move(0, Approve(Some(source))));
  }

  /** A quit while an update of a wanted node has its stop still to do: the stop comes after the quit, and
      a relaunch does not want the node, although nothing is owed to the disk. */
  lemma QuitDuringUpdate() returns (before: seq<SiteStep>, after: seq<SiteStep>)
    ensures var swept := RunSites(OneSite(true), before + [Core(User(SweepBegin(false)))]);
            var end := RunSites(swept, after).world;
            && Desired(RunSites(OneSite(true), before).world) == {N} && Quits.StopToDo(swept, N)
            && Quits.NoNewCalls(after) && Saved(end) && Desired(Restore(Disk(end), OnePack)) == {}
  {
    before := QuitApproved();
    var swept := RunSites(OneSite(true), before + [Core(User(SweepBegin(false)))]);
    assert Quits.MayHalt(swept.updaters[0], N);
    after := [Move(0, Halt)];
    RunSitesSnoc(swept, [], Move(0, Halt));
    assert [] + after == after;
    HaltSaves(swept);
  }

  lemma QuitApproved() returns (before: seq<SiteStep>)
    ensures var swept := RunSites(OneSite(true), before + [Core(User(SweepBegin(false)))]);
            && Desired(RunSites(OneSite(true), before).world) == {N}
            && swept.world.nodes.Keys == {N}
            && swept.updaters == [Updater(N, "/packs/n", true, Some(PackOf(2, "new")), Underway(1, Approved))]
  {
    before := UpdateApproved(true, PackOf(2, "new"));
    RunSitesSnoc(OneSite(true), before, Core(User(SweepBegin(false))));
  }

  lemma HaltSaves(site: Site)
    requires site.world.nodes.Keys == {N} && IsAt(site, 0, Approved) && site.updaters[0].id == N
    ensures var end := ApplySite(site, Move(0, Halt)).world;
            Saved(end) && Desired(Restore(Disk(end), OnePack)) == {}
  {
    var end := ApplySite(site, Move(0, Halt)).world;
    assert end.log[|end.log| - 1] == PersistEvent(ProfileOf(end.nodes));
    assert !ProfileOf(end.nodes)[N].desiredRunning;
  }

  /** ... and has stopped it. */
  lemma UpdateHalted(wanted: bool, source: Pack) returns (steps: seq<SiteStep>)
    requires source.principal == "realm/main/agent/n" && source.generation >= 1
    ensures var site := RunSites(OneSite(wanted), steps);
            && site.updaters == [Updater(N, "/packs/n", wanted, Some(source), Underway(1, Halted))]
            && site.disk == OneSite(wanted).disk && site.world.tasks == [Done] && site.world.engines == []
            && N in site.world.nodes && site.world.nodes[N].spec == OneSite(wanted).world.nodes[N].spec
            && site.world.nodes[N].engine.None? && !site.world.nodes[N].desired
  {
    steps := UpdateHalting(wanted, source);
    steps := Then(OneSite(wanted), steps, Move(0, HaltEnds(true)));
  }

  lemma UpdateHalting(wanted: bool, source: Pack) returns (steps: seq<SiteStep>)
    requires source.principal == "realm/main/agent/n" && source.generation >= 1
    ensures var site := RunSites(OneSite(wanted), steps);
            && site.updaters == [Updater(N, "/packs/n", wanted, Some(source), Underway(1, Halting(0)))]
            && site.disk == OneSite(wanted).disk && site.world.tasks == [Stopper(N, None)] && site.world.engines == []
            && N in site.world.nodes && site.world.nodes[N].spec == OneSite(wanted).world.nodes[N].spec
            && site.world.nodes[N].engine.None? && !site.world.nodes[N].desired
  {
    steps := UpdateApproved(wanted, source);
    steps := Then(OneSite(wanted), steps, Move(0, Halt));
  }

  /** ... and then the user starts it. */
  lemma StartedMidUpdate(source: Pack) returns (steps: seq<SiteStep>)
    requires source.principal == "realm/main/agent/n" && source.generation >= 1
    ensures var site, start := RunSites(OneSite(false), steps), OneSite(false);
            && site.updaters == [Updater(N, "/packs/n", false, Some(source), Underway(1, Halted))]
            && N in site.world.nodes && site.world.nodes[N].spec == start.world.nodes[N].spec
                && site.world.nodes[N].desired
            && site.world.nodes[N].engine == Some(0)
                && site.world.engines == [Engine(true, false, PackOf(1, "old"))]
  {
    steps := LoadedMidUpdate(source);
    steps := Then(OneSite(false), steps, Core(Call(1, StartCommit(Some(Connecting), ""))));
  }

  lemma LoadedMidUpdate(source: Pack) returns (steps: seq<SiteStep>)
    requires source.principal == "realm/main/agent/n" && source.generation >= 1
    ensures var site, start := RunSites(OneSite(false), steps), OneSite(false);
            && site.updaters == [Updater(N, "/packs/n", false, Some(source), Underway(1, Halted))]
            && N in site.world.nodes && site.world.nodes[N].spec == start.world.nodes[N].spec
                && site.world.nodes[N].engine.None?
            && site.world.engines == []
            && site.world.tasks == [Done, Starter(N, start.world.nodes[N].spec, Some(PackOf(1, "old")), false)]
  {
    var start := OneSite(false);
    steps := UpdateHalted(false, source);
    steps := Then(start, steps, Core(User(StartBegin(N, false))));
    assert RunSites(start, steps).world.tasks == [Done, Starter(N, start.world.nodes[N].spec, None, false)];
    steps := Then(start, steps, Core(Call(1, StartLoad(PackOf(1, "old")))));
  }

  /** A start inside the window of an update of a node that was not wanted: the update succeeds, and the
      node is wanted and alive on an engine of the old pack while its cache shows the new one. */
  lemma StartInsideUpdate() returns (steps: seq<SiteStep>)
    ensures var site := RunSites(OneSite(false), steps);
            && |site.updaters| == 1 && site.updaters[0].progress == Finished(Updated(1, 2, false))
            && N in site.world.nodes && site.world.nodes[N].desired && SlotAlive(site.world, N)
            && site.world.engines[site.world.nodes[N].engine.value].pack == PackOf(1, "old")
            && site.world.nodes[N].spec.digest == "new"
  {
    var start := OneSite(false);
    steps := StartedMidUpdate(PackOf(2, "new"));
    steps := Then(start, steps, Move(0, Place(Swapped)));
    steps := Then(start, steps, Move(0, Record));
  }

  /** The update of a wanted node has its pack in place, and the user stops the node once more. */
  lemma StoppedMidUpdate(source: Pack) returns (steps: seq<SiteStep>)
    requires source.principal == "realm/main/agent/n" && source.generation >= 1
    ensures var site := RunSites(OneSite(true), steps);
            && Core(User(StopBegin(N))) in steps
            && site.updaters == [Updater(N, "/packs/n", true, Some(source), Underway(1, Placed))]
            && N in site.world.nodes && site.world.nodes[N].engine.None? && site.world.tasks == [Done, Stopper(N, None)]
            && site.world.nodes[N].spec.dir == DIR && Reads(site.disk, "/packs/n") == Some(source)
  {
    var start := OneSite(true);
    steps := UpdateHalted(true, source);
    steps := Then(start, steps, Move(0, Place(Swapped)));
    assert RunSites(start, steps).updaters == [Updater(N, "/packs/n", true, Some(source), Underway(1, Placed))];
    steps := Then(start, steps, Core(User(StopBegin(N))));
  }

  lemma LaunchedMidUpdate(source: Pack) returns (steps: seq<SiteStep>)
    requires source.principal == "realm/main/agent/n" && source.generation >= 1
    ensures var site := RunSites(OneSite(true), steps);
            && Core(User(StopBegin(N))) in steps
            && site.updaters == [Updater(N, "/packs/n", true, Some(source), Underway(1, Launching(2)))]
            && N in site.world.nodes && site.world.nodes[N].engine.None? && IsLaunching(site, 0)
                && site.world.tasks[2].id == N && LoadMove(site.disk, site.world.tasks[2].prepared) == StartLoad(source)
  {
    var start := OneSite(true);
    steps := StoppedMidUpdate(source);
    steps := Then(start, steps, Move(0, Record));
    assert RunSites(start, steps).updaters == [Updater(N, "/packs/n", true, Some(source), Underway(1, Recorded))];
    steps := Then(start, steps, Move(0, Launch));
  }

  /** A stop inside the window of an update of a wanted node is undone by the update's own start. */
  lemma StopInsideUpdateUndone() returns (steps: seq<SiteStep>)
    ensures var site := RunSites(OneSite(true), steps);
            && Core(User(StopBegin(N))) in steps
            && |site.updaters| == 1 && site.updaters[0].progress == Finished(Updated(1, 2, true))
            && N in site.world.nodes && site.world.nodes[N].desired && SlotAlive(site.world, N)
  {
    steps := BuildingMidUpdate(PackOf(2, "new"));
    steps := Then(OneSite(true), steps, Move(0, LaunchEnds(Built(Connecting))));
  }

  lemma BuildingMidUpdate(source: Pack) returns (steps: seq<SiteStep>)
    requires source.principal == "realm/main/agent/n" && source.generation >= 1
    ensures var site := RunSites(OneSite(true), steps);
            && Core(User(StopBegin(N))) in steps
            && site.updaters == [Updater(N, "/packs/n", true, Some(source), Underway(1, Building(2)))]
            && StartGoes(site.world, 2) && site.world.tasks[2].id == N
  {
    steps := LaunchedMidUpdate(source);
    steps := Then(OneSite(true), steps, Move(0, LaunchLoads));
  }

  /** A second update passes its checks while the first one is under way. */
  lemma BothApproved(wanted: bool, early: Pack, late: Pack) returns (steps: seq<SiteStep>)
    requires early.principal == late.principal == "realm/main/agent/n" && early.generation >= 1 && late.generation >= 1
    ensures var site := RunSites(OneSite(wanted), steps);
            && site.updaters == [Updater(N, "/packs/n", wanted, Some(early), Underway(1, Halted)),
                                 Updater(N, "/packs/n", false, Some(late), Underway(1, Approved))]
            && N in site.world.nodes && site.world.nodes[N].spec.dir == DIR && site.world.nodes[N].engine.None?
                && site.world.tasks == [Done]
  {
    var start := OneSite(wanted);
    steps := UpdateHalted(wanted, early);
    steps := Then(start, steps, Snap(N));
    assert RunSites(start, steps).updaters[1] == Updater(N, "/packs/n", false, None,
        Snapped(Some("realm/main/agent/n"), 1));
    steps := Then(start, steps, Move(1, Approve(Some(late))));
  }

  lemma FirstPlaced(early: Pack, late: Pack) returns (steps: seq<SiteStep>)
    requires early.principal == late.principal == "realm/main/agent/n" && early.generation >= 1 && late.generation >= 1
    ensures var site := RunSites(OneSite(false), steps);
            && |site.updaters| == 2 && site.updaters[1] == Updater(N, "/packs/n", false, Some(late),
                Underway(1, Approved))
            && N in site.world.nodes && site.world.nodes[N].spec.dir == DIR && site.world.nodes[N].engine.None?
                && site.world.tasks == [Done]
            && "/packs/n" in site.disk && site.disk["/packs/n"] == early
  {
    steps := BothApproved(false, early, late);
    steps := Then(OneSite(false), steps, Move(0, Place(Swapped)));
  }

  lemma SecondHalting(early: Pack, late: Pack) returns (steps: seq<SiteStep>)
    requires early.principal == late.principal == "realm/main/agent/n" && early.generation >= 1 && late.generation >= 1
    ensures var site := RunSites(OneSite(false), steps);
            && |site.updaters| == 2 && site.updaters[1] == Updater(N, "/packs/n", false, Some(late),
                Underway(1, Halting(1)))
            && N in site.world.nodes && site.world.nodes[N].spec.dir == DIR
                && site.world.tasks == [Done, Stopper(N, None)]
            && "/packs/n" in site.disk && site.disk["/packs/n"] == early
  {
    steps := FirstPlaced(early, late);
    steps := Then(OneSite(false), steps, Move(1, Halt));
  }

  /** Two updates that overlap: both pass their checks, and the older pack is swapped in last. */
  lemma OverlapLowers() returns (steps: seq<SiteStep>, s: SiteStep)
    ensures var site := RunSites(OneSite(false), steps);
            && N in site.world.nodes && InPlace(site, N) == 3
            && N in ApplySite(site, s).world.nodes && InPlace(ApplySite(site, s), N) == 2
  {
    var start := OneSite(false);
    steps := SecondHalting(PackOf(3, "third"), PackOf(2, "second"));
    steps := Then(start, steps, Move(1, HaltEnds(true)));
    s := Move(1, Place(Swapped));
  }

  /** The second update, of another pack, has swapped while the first one waits with its swap. */
  lemma SecondPlaced(a: Pack, b: Pack) returns (steps: seq<SiteStep>)
    requires a.principal == b.principal == "realm/main/agent/n" && a.generation >= 1 && b.generation >= 1
    ensures var site := RunSites(OneSite(true), steps);
            && site.updaters == [Updater(N, "/packs/n", true, Some(a), Underway(1, Halted)),
                                 Updater(N, "/packs/n", false, Some(b), Underway(1, Placed))]
            && N in site.world.nodes && site.world.nodes[N].spec.dir == DIR && site.world.nodes[N].engine.None?
                && site.world.tasks == [Done, Done]
  {
    steps := SecondHalted(a, b);
    steps := Then(OneSite(true), steps, Move(1, Place(Swapped)));
  }

  lemma SecondHalted(a: Pack, b: Pack) returns (steps: seq<SiteStep>)
    requires a.principal == b.principal == "realm/main/agent/n" && a.generation >= 1 && b.generation >= 1
    ensures var site := RunSites(OneSite(true), steps);
            && site.updaters == [Updater(N, "/packs/n", true, Some(a), Underway(1, Halted)),
                                 Updater(N, "/packs/n", false, Some(b), Underway(1, Halted))]
            && N in site.world.nodes && site.world.nodes[N].spec.dir == DIR && site.world.nodes[N].engine.None?
                && site.world.tasks == [Done, Done]
  {
    steps := HaltingBoth(a, b);
    steps := Then(OneSite(true), steps, Move(1, HaltEnds(true)));
  }

  lemma HaltingBoth(a: Pack, b: Pack) returns (steps: seq<SiteStep>)
    requires a.principal == b.principal == "realm/main/agent/n" && a.generation >= 1 && b.generation >= 1
    ensures var site := RunSites(OneSite(true), steps);
            && site.updaters == [Updater(N, "/packs/n", true, Some(a), Underway(1, Halted)),
                                 Updater(N, "/packs/n", false, Some(b), Underway(1, Halting(1)))]
            && N in site.world.nodes && site.world.nodes[N].spec.dir == DIR && site.world.nodes[N].engine.None?
                && site.world.tasks == [Done, Stopper(N, None)]
  {
    steps := BothApproved(true, a, b);
    steps := Then(OneSite(true), steps, Move(1, Halt));
  }

  /** ... then the first swaps and records, and the second records last. */
  lemma SecondRecordedLast(a: Pack, b: Pack) returns (steps: seq<SiteStep>)
    requires a.principal == b.principal == "realm/main/agent/n" && a.generation >= 1 && b.generation >= 1
    ensures var site := RunSites(OneSite(true), steps);
            && |site.updaters| == 2
            && site.updaters[0] == Updater(N, "/packs/n", true, Some(a), Underway(1, Recorded))
            && site.updaters[1].progress.Finished?
            && N in site.world.nodes && site.world.nodes[N].spec.dir == DIR && site.world.nodes[N].engine.None?
                && site.world.nodes[N].spec.kind == b.kind && site.world.nodes[N].spec.digest == b.digest
                && site.world.tasks == [Done, Done] && Reads(site.disk, "/packs/n") == Some(a)
  {
    var start := OneSite(true);
    steps := SecondPlaced(a, b);
    steps := Then(start, steps, Move(0, Place(Swapped)));
    assert Reads(RunSites(start, steps).disk, "/packs/n") == Some(a);
    steps := Then(start, steps, Move(0, Record));
    assert RunSites(start, steps).updaters[0].progress == Underway(1, Recorded);
    steps := Then(start, steps, Move(1, Record));
  }

  /** Two updates that overlap, the second recording between the first one's record and its start: the
      first succeeds with its own pack in the directory and in the engine, and the other's in the cache. */
  lemma OverlapMislabels() returns (steps: seq<SiteStep>)
    ensures var site := RunSites(OneSite(true), steps);
            && |site.updaters| == 2 && site.updaters[0].progress == Finished(Updated(1, 2, true))
            && N in site.world.nodes && SlotAlive(site.world, N)
            && site.world.engines[site.world.nodes[N].engine.value].pack == PackOf(2, "a")
            && Readable(site, N) == Some(PackOf(2, "a"))
            && site.world.nodes[N].spec.digest == "b"
  {
    steps := MislabelledBuild(PackOf(2, "a"), PackOf(2, "b"));
    steps := Then(OneSite(true), steps, Move(0, LaunchEnds(Built(Connecting))));
  }

  lemma MislabelledBuild(a: Pack, b: Pack) returns (steps: seq<SiteStep>)
    requires a.principal == b.principal == "realm/main/agent/n" && a.generation >= 1 && b.generation >= 1
    requires a.kind == b.kind
    ensures var site := RunSites(OneSite(true), steps);
            && |site.updaters| == 2
            && site.updaters[0] == Updater(N, "/packs/n", true, Some(a), Underway(1, Building(2)))
            && N in site.world.nodes && site.world.nodes[N].spec.dir == DIR && site.world.nodes[N].engine.None?
                && site.world.nodes[N].spec.digest == b.digest && Reads(site.disk, "/packs/n") == Some(a)
                && IsLoaded(site.world, 2) && site.world.tasks[2].id == N && site.world.tasks[2].pack == Some(a)
  {
    var start := OneSite(true);
    steps := SecondRecordedLast(a, b);
    steps := Then(start, steps, Move(0, Launch));
    assert IsLaunching(RunSites(start, steps), 0);
    steps := Then(start, steps, Move(0, LaunchLoads));
  }

  /** A swap that fails after the exchange, a directory that then stops reading, and an older pack that is
      then accepted. */
  lemma OlderAcceptedAfterLateSwap() returns (steps: seq<SiteStep>)
    ensures var site := RunSites(OneSite(false), steps);
            && N in site.world.nodes && InPlace(site, N) == 3
            && Updates.Accepts(ApplySite(site, Vanish("/packs/n")), N, PackOf(2, "second"))
  {
    var start := OneSite(false);
    steps := UpdateHalted(false, PackOf(3, "third"));
    steps := Then(start, steps, Move(0, Place(SwapLate)));
  }

  /** A node listed as hot by its cache although its directory no longer reads. */
  lemma HotWithEmptyDirectory() returns (trace: seq<SiteStep>, k: Publish.Turn)
    ensures var info := Publish.Info(N, "n", Some("realm/main/agent/n"), true);
            && Publish.Took(OneSite(false), trace, info, [PackOf(1, "old")], k) && k.verdict.Hot?
            && N in RunSites(OneSite(false), trace).world.nodes && Readable(RunSites(OneSite(false), trace), N).None?
  {
    var info := Publish.Info(N, "n", Some("realm/main/agent/n"), true);
    trace := Then(OneSite(false), [], Vanish("/packs/n"));
    k := Publish.Turn(1, 1, 1, 0, Publish.Hot);
    assert trace[..1] == trace;
    assert Publish.Newest([PackOf(1, "old")], info) == Some(PackOf(1, "old"));
  }
}
