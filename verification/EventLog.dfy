/** The ordered event queue: what the interface has been shown agrees with the manager. */
module EventLog {
  import opened Types
  import opened Supervision
  import opened Invariants

  /** The state the interface shows for a node after these events; a node never mentioned is Stopped. */
  function Shown(log: seq<Event>, id: NodeId): NodeState {
    if log == [] then Stopped
    else
      var last := log[|log| - 1];
      if last.StateEvent? && last.id == id then last.state else Shown(log[..|log| - 1], id)
  }

  lemma ShownAfter(log: seq<Event>, ev: Event, id: NodeId)
    ensures Shown(log + [ev], id) == if ev.StateEvent? && ev.id == id then ev.state else Shown(log, id)
  {
    assert (log + [ev])[..|log|] == log;
  }

  lemma {:induction false} ShownAfterSweep(log: seq<Event>, order: seq<NodeId>, id: NodeId)
    ensures Shown(log + StoppedEvents(order), id) == if id in order then Stopped else Shown(log, id)
  {
    if order == [] {
      assert log + StoppedEvents(order) == log;
    } else {
      var init, last := order[..|order| - 1], order[|order| - 1];
      ShownAfterSweep(log, init, id);
      assert log + StoppedEvents(order) == log + StoppedEvents(init) + [StateEvent(last, Stopped)];
      ShownAfter(log + StoppedEvents(init), StateEvent(last, Stopped), id);
      assert order == init + [last];
    }
  }

  /** Some stop-all or quit has not yet queued its closing events. */
  ghost predicate Draining(w: World) {
    exists t | 0 <= t < |w.tasks| :: w.tasks[t].Sweep?
  }

  /** The log shows the node's state, or the node was drained by a sweep that has yet to report. */
  ghost predicate Mirrors(w: World, id: NodeId) {
    id in w.nodes ==> Shown(w.log, id) == w.nodes[id].state || (w.nodes[id].state.Stopped? && Draining(w))
  }

  /** A log mentions only ids that were given out. */
  ghost predicate Mentions(w: World) {
    forall i | 0 <= i < |w.log| && w.log[i].StateEvent? :: w.log[i].id in w.used
  }

  ghost predicate Mirrored(w: World) {
    w.delivered <= |w.log| && Mentions(w) && forall id :: Mirrors(w, id)
  }

  // ----- one step ---------------------------------------------------------------------------

  /** The queue only grows at its end, and what it gains is about managed nodes. */
  ghost predicate LogGrows(w: World, w': World) {
    && w.log <= w'.log
    && (forall i | |w.log| <= i < |w'.log| && w'.log[i].StateEvent? :: w'.log[i].id in w.nodes)
    && w.delivered <= w'.delivered
    && (w.delivered <= |w.log| ==> w'.delivered <= |w'.log|)
  }

  lemma LogGrowsUser(w: World, u: UserMove)
    ensures LogGrows(w, ApplyUser(w, u))
  {
  }

  lemma LogGrowsCall(w: World, t: TaskId, c: CallMove)
    ensures LogGrows(w, ApplyCall(w, t, c))
  {
  }

  lemma LogGrowsListener(w: World, t: TaskId, l: ListenerMove)
    ensures LogGrows(w, ApplyListener(w, t, l))
  {
  }

  lemma LogGrowsRestart(w: World, t: TaskId, r: RestartMove)
    ensures LogGrows(w, ApplyRestart(w, t, r))
  {
  }

  lemma LogGrowsRenewal(w: World, t: TaskId, n: RenewalMove)
    ensures LogGrows(w, ApplyRenewal(w, t, n))
  {
  }

  lemma LogGrowsStep(w: World, s: Step)
    ensures LogGrows(w, Apply(w, s))
  {
    match s
    case User(u) => LogGrowsUser(w, u);
    case Call(t, c) => LogGrowsCall(w, t, c);
    case Listen(t, l) => LogGrowsListener(w, t, l);
    case Restart(t, r) => LogGrowsRestart(w, t, r);
    case Renew(t, n) => LogGrowsRenewal(w, t, n);
    case Deliver =>
    case EngineFlip(x, alive) =>
  }

  function Override(state: NodeState, ev: Event, id: NodeId): NodeState {
    if ev.StateEvent? && ev.id == id then ev.state else state
  }

  /** Every step but a sweep's end queues at most two events. */
  lemma ShownGrown(log: seq<Event>, log': seq<Event>, id: NodeId)
    requires log <= log' && |log'| <= |log| + 2
    ensures |log'| == |log| ==> Shown(log', id) == Shown(log, id)
    ensures |log'| == |log| + 1 ==> Shown(log', id) == Override(Shown(log, id), log'[|log|], id)
    ensures |log'| == |log| + 2 ==>
              Shown(log', id) == Override(Override(Shown(log, id), log'[|log|], id), log'[|log| + 1], id)
  {
    if |log'| == |log| {
      assert log' == log;
    } else {
      var mid := log + [log'[|log|]];
      ShownAfter(log, log'[|log|], id);
      if |log'| == |log| + 1 {
        assert log' == mid;
      } else {
        assert log' == mid + [log'[|log| + 1]];
        ShownAfter(mid, log'[|log| + 1], id);
      }
    }
  }

  /** A state is written together with the event that shows it, or not at all. */
  ghost predicate Together(w: World, w': World, id: NodeId) {
    id in w'.nodes ==>
      || Shown(w'.log, id) == w'.nodes[id].state
      || (&& Shown(w'.log, id) == Shown(w.log, id)
          && w'.nodes[id].state == if id in w.nodes then w.nodes[id].state else Stopped)
  }

  lemma TogetherUser(w: World, u: UserMove, id: NodeId)
    requires w.nodes.Keys <= w.used
    ensures Together(w, ApplyUser(w, u), id)
  {
    ShownGrown(w.log, ApplyUser(w, u).log, id);
  }

  lemma TogetherStart(w: World, t: TaskId, built: Option<NodeState>, error: string, id: NodeId)
    ensures Together(w, DoStartCommit(w, t, built, error), id)
  {
    ShownGrown(w.log, DoStartCommit(w, t, built, error).log, id);
  }

  lemma TogetherCall(w: World, t: TaskId, c: CallMove, id: NodeId)
    requires !c.SweepDrain? && !c.SweepEnd?
    ensures Together(w, ApplyCall(w, t, c), id)
  {
    if c.StartCommit? {
      TogetherStart(w, t, c.built, c.error, id);
    } else {
      ShownGrown(w.log, ApplyCall(w, t, c).log, id);
    }
  }

  lemma TogetherAgentSees(w: World, t: TaskId, state: NodeState, id: NodeId)
    requires ListenerAt(w, t)
    ensures Together(w, AgentSees(w, t, state), id)
  {
    ShownGrown(w.log, AgentSees(w, t, state).log, id);
  }

  lemma TogetherServerSees(w: World, t: TaskId, state: NodeState, id: NodeId)
    requires ListenerAt(w, t)
    ensures Together(w, ServerSees(w, t, state), id)
  {
    ShownGrown(w.log, ServerSees(w, t, state).log, id);
  }

  lemma TogetherListener(w: World, t: TaskId, l: ListenerMove, id: NodeId)
    ensures Together(w, ApplyListener(w, t, l), id)
  {
    if l.See? {
      if ListenerAt(w, t) {
        if w.tasks[t].agent { TogetherAgentSees(w, t, l.state, id); } else { TogetherServerSees(w, t, l.state, id); }
      } else {
        ShownGrown(w.log, w.log, id);
      }
    } else {
      ShownGrown(w.log, ApplyListener(w, t, l).log, id);
    }
  }

  lemma TogetherRestart(w: World, t: TaskId, r: RestartMove, id: NodeId)
    ensures Together(w, ApplyRestart(w, t, r), id)
  {
    if r.Install? {
      TogetherInstall(w, t, r.built, id);
    } else {
      ShownGrown(w.log, ApplyRestart(w, t, r).log, id);
    }
  }

  lemma TogetherInstall(w: World, t: TaskId, built: Option<NodeState>, id: NodeId)
    ensures Together(w, DoRestartInstall(w, t, built), id)
  {
    ShownGrown(w.log, DoRestartInstall(w, t, built).log, id);
  }

  lemma TogetherRenewal(w: World, t: TaskId, n: RenewalMove, id: NodeId)
    ensures Together(w, ApplyRenewal(w, t, n), id)
  {
    if n.Reinstall? {
      TogetherReinstall(w, t, n.built, n.error, id);
    } else {
      ShownGrown(w.log, ApplyRenewal(w, t, n).log, id);
    }
  }

  lemma TogetherReinstall(w: World, t: TaskId, built: Option<NodeState>, error: string, id: NodeId)
    ensures Together(w, DoRenewalInstall(w, t, built, error), id)
  {
    ShownGrown(w.log, DoRenewalInstall(w, t, built, error).log, id);
  }

  lemma TogetherStep(w: World, s: Step, id: NodeId)
    requires w.nodes.Keys <= w.used
    requires !(s.Call? && (s.c.SweepDrain? || s.c.SweepEnd?))
    ensures Together(w, Apply(w, s), id)
  {
    match s
    case User(u) => TogetherUser(w, u, id);
    case Call(t, c) => TogetherCall(w, t, c, id);
    case Listen(t, l) => TogetherListener(w, t, l, id);
    case Restart(t, r) => TogetherRestart(w, t, r, id);
    case Renew(t, n) => TogetherRenewal(w, t, n, id);
    case Deliver =>
    case EngineFlip(x, alive) =>
  }

  lemma {:induction false} Unmentioned(log: seq<Event>, id: NodeId)
    requires forall i | 0 <= i < |log| && log[i].StateEvent? :: log[i].id != id
    ensures Shown(log, id) == Stopped
  {
    if log != [] { Unmentioned(log[..|log| - 1], id); }
  }

  /** A sweep goes on until its own end. */
  lemma SweepGoesOn(w: World, s: Step, w': World)
    requires TasksMove(w, s, w') && Draining(w)
    requires forall t | 0 <= t < |w.tasks| && w.tasks[t].Sweep? && Actor(s, t) :: w'.tasks[t].Sweep?
    ensures Draining(w')
  {
    var t :| 0 <= t < |w.tasks| && w.tasks[t].Sweep?;
    assert w'.tasks[t].Sweep?;
  }

  lemma MirrorsDrain(w: World, t: TaskId, node: NodeId, id: NodeId)
    requires Mirrors(w, id)
    ensures Mirrors(DoSweepDrain(w, t, node), id)
  {
    var w' := DoSweepDrain(w, t, node);
    if w' != w {
      assert w'.tasks[t].Sweep?;
    }
  }

  lemma MirrorsEnd(w: World, t: TaskId, order: seq<NodeId>, id: NodeId)
    requires Mirrors(w, id)
    ensures Mirrors(DoSweepEnd(w, t, order), id)
  {
    ShownAfterSweep(w.log, order, id);
  }

  /** Only a sweep's own closing section ends it. */
  lemma SweepActor(w: World, s: Step, t: TaskId)
    requires t < |w.tasks| && w.tasks[t].Sweep? && Actor(s, t) && !(s.Call? && s.c.SweepEnd?)
    ensures t < |Apply(w, s).tasks| && Apply(w, s).tasks[t].Sweep?
  {
  }

  lemma MirrorsStep(w: World, s: Step, id: NodeId)
    requires w.nodes.Keys <= w.used && Mentions(w) && Mirrors(w, id)
    ensures Mirrors(Apply(w, s), id)
  {
    if s.Call? && s.c.SweepDrain? {
      MirrorsDrain(w, s.t, s.c.id, id);
    } else if s.Call? && s.c.SweepEnd? {
      MirrorsEnd(w, s.t, s.c.order, id);
    } else {
      TogetherStep(w, s, id);
      TasksMoveStep(w, s);
      NodesMoveStep(w, s);
      if Draining(w) {
        forall t | 0 <= t < |w.tasks| && w.tasks[t].Sweep? && Actor(s, t)
          ensures Apply(w, s).tasks[t].Sweep?
        {
          SweepActor(w, s, t);
        }
        SweepGoesOn(w, s, Apply(w, s));
      }
      if id !in w.used { Unmentioned(w.log, id); }
    }
  }

  lemma {:induction false} MirroredRun(w: World, steps: seq<Step>)
    requires Inv(w) && Mirrored(w)
    ensures Inv(Run(w, steps)) && Mirrored(Run(w, steps))
    decreases |steps|
  {
    if steps != [] {
      var s := steps[0];
      InvStep(w, s);
      NodesMoveStep(w, s);
      LogGrowsStep(w, s);
      forall id ensures Mirrors(Apply(w, s), id) { MirrorsStep(w, s, id); }
      MirroredRun(Apply(w, s), steps[1..]);
    }
  }

  /** The event log refines the state: whenever no stop-all or quit is still draining, replaying the
      queued and delivered events gives every node's state; a drained node shows through only as a
      Stopped that has yet to be announced. */
  lemma LogRefinesState(profile: Profile, load: PackDir -> Option<Pack>, steps: seq<Step>, id: NodeId)
    requires id in Run(Restore(profile, load), steps).nodes
    ensures var w := Run(Restore(profile, load), steps);
            && (!Draining(w) ==> Shown(w.log, id) == w.nodes[id].state)
            && (Shown(w.log, id) != w.nodes[id].state ==> w.nodes[id].state.Stopped?)
  {
    MirroredRun(Restore(profile, load), steps);
    assert Mirrors(Run(Restore(profile, load), steps), id);
  }

  // ----- the settle barrier -----------------------------------------------------------------

  lemma {:induction false} LogGrowsRun(w: World, steps: seq<Step>)
    ensures w.log <= Run(w, steps).log && w.delivered <= Run(w, steps).delivered
    decreases |steps|
  {
    if steps != [] {
      LogGrowsStep(w, steps[0]);
      LogGrowsRun(Apply(w, steps[0]), steps[1..]);
    }
  }

  /** What is shown once everything queued is delivered. */
  lemma ShownWhenSettled(w: World)
    requires Mirrored(w) && w.delivered == |w.log| && !Draining(w)
    ensures forall id | id in w.nodes :: Shown(w.log[..w.delivered], id) == w.nodes[id].state
  {
    assert w.log[..w.delivered] == w.log;
    forall id | id in w.nodes ensures Shown(w.log, id) == w.nodes[id].state { assert Mirrors(w, id); }
  }

  /** When the consumer has reached a settle's marker, everything queued before the settle has been
      handed to the sinks, in the order it was queued; and if nothing was queued since and no sweep
      is draining, the interface shows exactly the manager's states. */
  lemma SettleIsABarrier(profile: Profile, load: PackDir -> Option<Pack>, before: seq<Step>, after: seq<Step>)
    requires var w := Run(Restore(profile, load), before);
             Run(Apply(w, User(Settle)), after).delivered > |w.log|
    ensures var w := Run(Restore(profile, load), before);
            var w' := Run(Apply(w, User(Settle)), after);
            && w'.delivered <= |w'.log| && w'.log[|w.log|] == SettledEvent
            && w.log <= w'.log[..w'.delivered]
            && (|w'.log| == |w.log| + 1 && !Draining(w') ==>
                  forall id | id in w'.nodes :: Shown(w'.log[..w'.delivered], id) == w'.nodes[id].state)
  {
    var w0 := Restore(profile, load);
    var w := Run(w0, before);
    var w' := Run(Apply(w, User(Settle)), after);
    RunSnoc(w0, before, User(Settle));
    RunAppend(w0, before + [User(Settle)], after);
    MirroredRun(w0, before + [User(Settle)] + after);
    LogGrowsRun(Apply(w, User(Settle)), after);
    assert w'.log[..|w.log| + 1] == w.log + [SettledEvent];
    if |w'.log| == |w.log| + 1 && !Draining(w') { ShownWhenSettled(w'); }
  }
}
