/** Quit, stop-all and relaunch, with calls, tasks and updates still under way. */
module Quits {
  import opened Types
  import opened Supervision
  import opened Invariants
  import opened Profiles
  import opened Sites
  import opened Identity
  import opened Histories
  import opened Updates

  predicate IsNewCall(s: SiteStep) {
    s.Snap? || (s.Core? && s.s.User?)
  }

  /** No new call comes in; calls, tasks and updates under way go on. */
  predicate NoNewCalls(steps: seq<SiteStep>) {
    forall i | 0 <= i < |steps| :: !IsNewCall(steps[i])
  }

  /** The nodes a run leaves wanted: those whose last word is a start, and, without a word, those wanted before. */
  function LeftWanted(site: Site, steps: seq<SiteStep>): set<NodeId> {
    set id | id in site.world.nodes &&
             (if LastWord(site, steps, id).Some? then LastWord(site, steps, id).value else site.world.nodes[id].desired)
  }

  lemma ClosesWithin(site: Site, s: SiteStep)
    requires !IsNewCall(s) && Within(site, s).Some?
    ensures IsClosing(Within(site, s).value)
  {
  }

  lemma ClosingSite(site: Site, s: SiteStep, id: NodeId)
    requires Inv(site.world) && !IsNewCall(s)
    ensures var w, w' := site.world, ApplySite(site, s).world;
            && Inv(w') && SameButIntent(w, w', id)
            && (id in w.nodes ==>
                  w'.nodes[id].desired ==
                    if SaysHere(site, s, id).Some? then SaysHere(site, s, id).value else w.nodes[id].desired)
  {
    WorldInvStep(site, s);
    StepIsAStep(site, s);
    if Within(site, s).Some? {
      ClosesWithin(site, s);
      ClosingStep(site.world, Within(site, s).value, id);
      if id in site.world.nodes { DesiredStep(site.world, Within(site, s).value, id); }
    }
  }

  lemma {:induction false} ClosingRun(site: Site, steps: seq<SiteStep>, id: NodeId)
    requires Inv(site.world) && NoNewCalls(steps)
    ensures var w, w' := site.world, RunSites(site, steps).world;
            && Inv(w') && SameButIntent(w, w', id)
            && (id in w'.nodes && w'.nodes[id].desired <==> id in LeftWanted(site, steps))
  {
    if steps != [] {
      var n := |steps| - 1;
      ClosingRun(site, steps[..n], id);
      ClosingSite(RunSites(site, steps[..n]), steps[n], id);
    }
  }

  lemma ClosingAll(site: Site, steps: seq<SiteStep>)
    requires Inv(site.world) && NoNewCalls(steps)
    ensures forall id :: SameButIntent(site.world, RunSites(site, steps).world, id)
    ensures Desired(RunSites(site, steps).world) == LeftWanted(site, steps)
  {
    var end := RunSites(site, steps).world;
    forall id
      ensures SameButIntent(site.world, end, id)
      ensures id in Desired(end) <==> id in LeftWanted(site, steps)
    {
      ClosingRun(site, steps, id);
    }
  }

  // ----- quit and relaunch ------------------------------------------------------------------

  /** What a relaunch finds after a stop-all or a quit and whatever was still under way. */
  lemma Relaunch(profile: Profile, disk: map<string, Pack>, before: seq<SiteStep>, clear: bool, after: seq<SiteStep>,
                 reload: PackDir -> Option<Pack>)
    requires NoNewCalls(after)
    ensures var start, sweep := Opened(profile, disk), Core(User(SweepBegin(clear)));
            var w, swept := RunSites(start, before).world, RunSites(start, before + [sweep]);
            var end := RunSites(swept, after).world;
            var back := Restore(Disk(end), reload);
            && back.nodes.Keys == w.nodes.Keys && (forall id :: SameButIntent(w, back, id))
            && Desired(end) == LeftWanted(swept, after)
            && Desired(back) <= Desired(end)
            && (Desired(back) == Desired(end) <==>
                  !Owing(start.world, StepsWithin(start, before + [sweep] + after), false))
  {
    var start, sweep := Opened(profile, disk), Core(User(SweepBegin(clear)));
    var q, swept := RunSites(start, before), RunSites(start, before + [sweep]);
    var end := RunSites(swept, after).world;
    RunSitesSnoc(start, before, sweep);
    RunSitesAppend(start, before + [sweep], after);
    OpenedPersists(profile, disk, before + [sweep] + after);
    OpenedRun(profile, disk, before + [sweep]);
    ClosingAll(swept, after);
    QuitKeeps(q.world, clear);
    RelaunchFrom(q.world, swept.world, end, reload);
  }

  lemma {:induction false} OpenedRun(profile: Profile, disk: map<string, Pack>, steps: seq<SiteStep>)
    ensures Inv(RunSites(Opened(profile, disk), steps).world)
  {
    if steps != [] {
      OpenedRun(profile, disk, steps[..|steps| - 1]);
      WorldInvStep(RunSites(Opened(profile, disk), steps[..|steps| - 1]), steps[|steps| - 1]);
    }
  }

  lemma OpenedSaved(profile: Profile, disk: map<string, Pack>)
    ensures Saved(Opened(profile, disk).world) && Profiles.Behind(Opened(profile, disk).world)
  {
  }

  lemma OpenedPersists(profile: Profile, disk: map<string, Pack>, steps: seq<SiteStep>)
    ensures var start := Opened(profile, disk);
            && Profiles.Behind(RunSites(start, steps).world)
            && (Saved(RunSites(start, steps).world) <==> !Owing(start.world, StepsWithin(start, steps), false))
  {
    var start := Opened(profile, disk);
    OpenedSaved(profile, disk);
    SiteRunIsARun(start, steps);
    BehindRun(start.world, StepsWithin(start, steps));
    OwingRun(start.world, StepsWithin(start, steps));
  }

  /** Quit and relaunch, whatever calls, tasks and updates under way still do: the same nodes come back
      with the same preferences. Wanted again is what was wanted at the quit, but for the nodes an update
      under way stopped or a start under way brought up since, if and only if no intent is owed to the disk. */
  lemma QuitRoundTrips(profile: Profile, disk: map<string, Pack>, before: seq<SiteStep>, after: seq<SiteStep>,
                       reload: PackDir -> Option<Pack>)
    requires NoNewCalls(after)
    ensures var start, quit := Opened(profile, disk), Core(User(SweepBegin(false)));
            var w, swept := RunSites(start, before).world, RunSites(start, before + [quit]);
            var back := Restore(Disk(RunSites(swept, after).world), reload);
            && back.nodes.Keys == w.nodes.Keys && (forall id :: SameButIntent(w, back, id))
            && Desired(swept.world) == Desired(w)
            && (Desired(back) == LeftWanted(swept, after) <==>
                  !Owing(start.world, StepsWithin(start, before + [quit] + after), false))
  {
    Relaunch(profile, disk, before, false, after, reload);
    RunSitesSnoc(Opened(profile, disk), before, Core(User(SweepBegin(false))));
    QuitKeeps(RunSites(Opened(profile, disk), before).world, false);
  }

  /** Stop-all and relaunch: nothing is wanted but a node whose last word since is a start under way. */
  lemma StopAllRelaunchWantsNothing(profile: Profile, disk: map<string, Pack>, before: seq<SiteStep>,
                                    after: seq<SiteStep>, reload: PackDir -> Option<Pack>)
    requires NoNewCalls(after)
    ensures var swept := RunSites(Opened(profile, disk), before + [Core(User(SweepBegin(true)))]);
            forall id | id in Desired(Restore(Disk(RunSites(swept, after).world), reload)) ::
              LastWord(swept, after, id) == Some(true)
  {
    Relaunch(profile, disk, before, true, after, reload);
    RunSitesSnoc(Opened(profile, disk), before, Core(User(SweepBegin(true))));
    QuitKeeps(RunSites(Opened(profile, disk), before).world, true);
    var swept := RunSites(Opened(profile, disk), before + [Core(User(SweepBegin(true)))]);
    forall id | id in Desired(Restore(Disk(RunSites(swept, after).world), reload))
      ensures LastWord(swept, after, id) == Some(true)
    {
      assert id in LeftWanted(swept, after) && id !in Desired(swept.world);
    }
  }

  // ----- which updates under way cost an intent ---------------------------------------------

  /** An update of the node has its stop still to do: it has passed its checks, or may still pass them. */
  predicate MayHalt(k: Updater, id: NodeId) {
    && k.id == id
    && match k.progress
       case Snapped(principal, _) => principal.Some?
       case Underway(_, point) => point.Approved? && k.source.Some?
       case Finished(_) => false
  }

  predicate StopToDo(site: Site, id: NodeId) {
    exists u | 0 <= u < |site.updaters| :: MayHalt(site.updaters[u], id)
  }

  lemma MayHaltMove(site: Site, u: nat, m: UpdateMove, id: NodeId)
    requires u < |site.updaters| && !MayHalt(site.updaters[u], id)
    ensures var site' := ApplyMove(site, u, m);
            |site'.updaters| == |site.updaters| && !MayHalt(site'.updaters[u], id)
  {
    match m
    case Approve(source) =>
    case Halt =>
    case HaltEnds(ok) =>
    case Place(swap) =>
    case Record =>
    case Launch =>
    case LaunchLoads =>
    case LaunchEnds(outcome) =>
  }

  lemma NoStopStep(site: Site, s: SiteStep, id: NodeId)
    requires !IsNewCall(s) && !StopToDo(site, id)
    ensures !StopToDo(ApplySite(site, s), id)
    ensures SaysHere(site, s, id) != Some(false)
  {
    if s.Move? && s.u < |site.updaters| {
      MayHaltMove(site, s.u, s.m, id);
      forall v | 0 <= v < |ApplySite(site, s).updaters|
        ensures !MayHalt(ApplySite(site, s).updaters[v], id)
      {
        PersistsMove(site, s.u, s.m, v);
      }
    }
    SaysStop(site, s, id);
  }

  /** Only a stop section of an update can turn an intent off once no new call comes in. */
  lemma SaysStop(site: Site, s: SiteStep, id: NodeId)
    requires !IsNewCall(s) && !StopToDo(site, id)
    ensures SaysHere(site, s, id) != Some(false)
  {
    if s.Move? && s.m.Halt? && IsAt(site, s.u, Approved) {
      assert !MayHalt(site.updaters[s.u], id);
    }
  }

  lemma {:induction false} NoStopRun(site: Site, steps: seq<SiteStep>, id: NodeId)
    requires NoNewCalls(steps) && !StopToDo(site, id)
    ensures !StopToDo(RunSites(site, steps), id)
    ensures LastWord(site, steps, id) != Some(false)
  {
    if steps != [] {
      var n := |steps| - 1;
      NoStopRun(site, steps[..n], id);
      NoStopStep(RunSites(site, steps[..n]), steps[n], id);
    }
  }

  /** A source that passes the checks of a snapshot. */
  function Acceptable(site: Site, u: nat): Pack
    requires IsSnapped(site, u) && site.updaters[u].progress.principal.Some?
  {
    var k := site.updaters[u];
    Pack(ExposeAgent, "", k.progress.principal.value, FoundInPlace(site.disk, k.dir, k.progress.cached), "")
  }

  /** The stop an update has to do turns the intent off. */
  lemma StopComes(site: Site, id: NodeId) returns (steps: seq<SiteStep>)
    requires id in site.world.nodes && StopToDo(site, id)
    ensures NoNewCalls(steps)
    ensures id in RunSites(site, steps).world.nodes && !RunSites(site, steps).world.nodes[id].desired
  {
    var u :| 0 <= u < |site.updaters| && MayHalt(site.updaters[u], id);
    steps := [];
    if site.updaters[u].progress.Snapped? { steps := CheckPasses(site, u); }
    HaltTurnsOff(RunSites(site, steps), u, id);
    RunSitesSnoc(site, steps, Move(u, Halt));
    steps := steps + [Move(u, Halt)];
  }

  lemma CheckPasses(site: Site, u: nat) returns (steps: seq<SiteStep>)
    requires IsSnapped(site, u) && site.updaters[u].progress.principal.Some?
    ensures NoNewCalls(steps)
    ensures var site' := RunSites(site, steps);
            IsAt(site', u, Approved) && site'.updaters[u].id == site.updaters[u].id && site'.world == site.world
  {
    var approve := Move(u, Approve(Some(Acceptable(site, u))));
    RunSitesSnoc(site, [], approve);
    steps := [] + [approve];
  }

  lemma HaltTurnsOff(site: Site, u: nat, id: NodeId)
    requires IsAt(site, u, Approved) && site.updaters[u].id == id && id in site.world.nodes
    ensures var w' := ApplySite(site, Move(u, Halt)).world; id in w'.nodes && !w'.nodes[id].desired
  {
  }

  // ----- and which bring a node up ----------------------------------------------------------

  /** A start of the node is under way, or an update of it that may still start it. */
  predicate StartToDo(site: Site, id: NodeId) {
    || (exists t | 0 <= t < |site.world.tasks| :: site.world.tasks[t].Starter? && site.world.tasks[t].id == id)
    || (exists u | 0 <= u < |site.updaters| :: MayLaunch(site.updaters[u], id))
  }

  predicate MayLaunch(k: Updater, id: NodeId) {
    && k.id == id && !k.progress.Finished?
    && (k.desired || (k.progress.Underway? && k.progress.point.Recorded?))
  }

  lemma MayLaunchMove(site: Site, u: nat, m: UpdateMove, id: NodeId)
    requires u < |site.updaters| && !MayLaunch(site.updaters[u], id)
    ensures var site' := ApplyMove(site, u, m);
            |site'.updaters| == |site.updaters| && !MayLaunch(site'.updaters[u], id)
  {
    match m
    case Approve(source) =>
    case Halt =>
    case HaltEnds(ok) =>
    case Place(swap) =>
    case Record =>
    case Launch =>
    case LaunchLoads =>
    case LaunchEnds(outcome) =>
  }

  lemma NoStarter(w: World, c: Step, w': World, id: NodeId)
    requires TasksMove(w, c, w') && (c.User? ==> c.u != StartBegin(id, false) && c.u != StartBegin(id, true))
    requires forall t | 0 <= t < |w.tasks| :: !(w.tasks[t].Starter? && w.tasks[t].id == id)
    ensures forall t | 0 <= t < |w'.tasks| :: !(w'.tasks[t].Starter? && w'.tasks[t].id == id)
  {
  }

  lemma NoStartStep(site: Site, s: SiteStep, id: NodeId)
    requires !IsNewCall(s) && !StartToDo(site, id)
    ensures !StartToDo(ApplySite(site, s), id)
    ensures SaysHere(site, s, id) != Some(true)
  {
    var site' := ApplySite(site, s);
    StepIsAStep(site, s);
    if Within(site, s).Some? {
      TasksMoveStep(site.world, Within(site, s).value);
      NoLaunch(site, s, id);
      NoStarter(site.world, Within(site, s).value, site'.world, id);
    }
    if s.Move? && s.u < |site.updaters| {
      MayLaunchMove(site, s.u, s.m, id);
      forall v | 0 <= v < |site'.updaters|
        ensures !MayLaunch(site'.updaters[v], id)
      {
        PersistsMove(site, s.u, s.m, v);
      }
    }
  }

  lemma NoLaunch(site: Site, s: SiteStep, id: NodeId)
    requires !IsNewCall(s) && !StartToDo(site, id) && Within(site, s).Some?
    ensures var c := Within(site, s).value; c.User? ==> c.u != StartBegin(id, false) && c.u != StartBegin(id, true)
  {
    if s.Move? && s.m.Launch? {
      assert !MayLaunch(site.updaters[s.u], id);
    }
  }

  lemma {:induction false} NoStartRun(site: Site, steps: seq<SiteStep>, id: NodeId)
    requires NoNewCalls(steps) && !StartToDo(site, id)
    ensures !StartToDo(RunSites(site, steps), id)
    ensures LastWord(site, steps, id) != Some(true)
  {
    if steps != [] {
      var n := |steps| - 1;
      NoStartRun(site, steps[..n], id);
      NoStartStep(RunSites(site, steps[..n]), steps[n], id);
    }
  }

  /** A node not wanted when no new call comes in any more stays that way unless a start of it, or an
      update that may still start it, is under way. */
  lemma StaysUnwanted(site: Site, steps: seq<SiteStep>, id: NodeId)
    requires Inv(site.world) && NoNewCalls(steps) && id in site.world.nodes && !site.world.nodes[id].desired
    requires !StartToDo(site, id)
    ensures id !in Desired(RunSites(site, steps).world)
  {
    ClosingRun(site, steps, id);
    NoStartRun(site, steps, id);
  }

  /** Exactly which nodes a quit may lose: a node wanted when no new call comes in any more stays wanted,
      whatever is still under way, if and only if no update of it has its stop still to do. */
  lemma StaysWantedIff(site: Site, id: NodeId)
    requires Inv(site.world) && id in site.world.nodes && site.world.nodes[id].desired
    ensures (forall steps | NoNewCalls(steps) :: id in Desired(RunSites(site, steps).world)) <==> !StopToDo(site, id)
  {
    if StopToDo(site, id) {
      var steps := StopComes(site, id);
      assert id !in Desired(RunSites(site, steps).world);
    } else {
      forall steps | NoNewCalls(steps)
        ensures id in Desired(RunSites(site, steps).world)
      {
        ClosingRun(site, steps, id);
        NoStopRun(site, steps, id);
      }
    }
  }

  /** No update of a wanted node has its stop still to do, and no other node has a start on its way. */
  ghost predicate Calm(site: Site) {
    forall id | id in site.world.nodes ::
      if site.world.nodes[id].desired then !StopToDo(site, id) else !StartToDo(site, id)
  }

  /** A quit while things are calm wants again exactly what was wanted, unless an intent is owed. */
  lemma CalmQuit(profile: Profile, disk: map<string, Pack>, before: seq<SiteStep>, after: seq<SiteStep>,
                 reload: PackDir -> Option<Pack>)
    requires NoNewCalls(after)
    ensures var start, quit := Opened(profile, disk), Core(User(SweepBegin(false)));
            var w, swept := RunSites(start, before).world, RunSites(start, before + [quit]);
            Calm(swept) ==>
              (Desired(Restore(Disk(RunSites(swept, after).world), reload)) == Desired(w) <==>
                 !Owing(start.world, StepsWithin(start, before + [quit] + after), false))
  {
    var swept := RunSites(Opened(profile, disk), before + [Core(User(SweepBegin(false)))]);
    QuitRoundTrips(profile, disk, before, after, reload);
    OpenedRun(profile, disk, before + [Core(User(SweepBegin(false)))]);
    if Calm(swept) {
      forall id | id in swept.world.nodes
        ensures id in LeftWanted(swept, after) <==> swept.world.nodes[id].desired
      {
        if swept.world.nodes[id].desired { NoStopRun(swept, after, id); } else { NoStartRun(swept, after, id); }
      }
      assert LeftWanted(swept, after) == Desired(swept.world);
    }
  }
}
