/** Where engines are, and how they leave. */
module Engines {
  import opened Types
  import opened Supervision
  import opened Invariants

  /** An engine is in a node's slot, in the hand of a call or task that is shutting it down
      gracefully, or waiting in a stop-all sweep to be shut down gracefully. */
  datatype Holder = InSlot(id: NodeId) | InHand(t: TaskId) | InSweep(t: TaskId, id: NodeId)

  function HandOf(k: Task): Option<EngineId> {
    match k
    case Stopper(_, hand) => hand
    case RenewalTail(_, _, hand, _) => hand
    case Renewal(_, _, phase) => if phase.Draining? then phase.engine else None
    case _ => None
  }

  function Held(w: World, h: Holder): Option<EngineId> {
    match h
    case InSlot(id) => if id in w.nodes then w.nodes[id].engine else None
    case InHand(t) => if t < |w.tasks| then HandOf(w.tasks[t]) else None
    case InSweep(t, id) =>
      if t < |w.tasks| && w.tasks[t].Sweep? && id in w.tasks[t].pending then Some(w.tasks[t].pending[id]) else None
  }

  /** No engine is in two places, and only engines that were built are anywhere. */
  ghost predicate HeldOnce(w: World) {
    && (forall g, h :: Held(w, g).Some? && Held(w, g) == Held(w, h) ==> g == h)
    && (forall h :: Held(w, h).Some? ==> Held(w, h).value < |w.engines|)
  }

  /** Is this the step that finishes the graceful shutdown of what `h` holds? */
  predicate Completes(w: World, s: Step, h: Holder) {
    match h
    case InSlot(_) => false
    case InHand(t) =>
      && t < |w.tasks|
      && (|| (s.Call? && s.t == t && s.c.StopEnd? && w.tasks[t].Stopper?)
          || (s.Renew? && s.t == t && s.n.Read? && w.tasks[t].Renewal?)
          || (s.Renew? && s.t == t && s.n.EndTail? && w.tasks[t].RenewalTail?))
    case InSweep(t, id) => s == Call(t, SweepDrain(id))
  }

  /** An engine may be dropped when `is_alive` says no, or when its own listener was told it ended. */
  predicate MayDrop(w: World, x: EngineId) {
    x < |w.engines| && (!w.engines[x].alive || w.engines[x].reported)
  }

  /** Where what `h` holds is after the step, unless it was shut down or dropped. */
  function Heir(w: World, s: Step, h: Holder): Holder {
    match h
    case InSlot(id) =>
      (match s
       case User(u) =>
         if u == StopBegin(id) then InHand(|w.tasks|)
         else if u.SweepBegin? then InSweep(|w.tasks|, id)
         else h
       case Renew(t, n) => if TakesSlot(w, t, n) && w.tasks[t].id == id then InHand(t) else h
       case _ => h)
    case _ => h
  }

  /** The two renewal sections that take the engine out of the slot. */
  predicate TakesSlot(w: World, t: TaskId, n: RenewalMove) {
    && RenewalAt(w, t)
    && (|| (n.Take? && w.tasks[t].nphase.Taking?)
        || (n.Fail? && w.tasks[t].nphase.Failing? && Current(w, w.tasks[t].id, w.tasks[t].gen)))
  }

  /** Where what `h` holds after the step was before it. */
  function Origin(w: World, s: Step, h: Holder): Holder {
    match h
    case InSlot(_) => h
    case InHand(t) =>
      if s.User? && s.u.StopBegin? && t == |w.tasks| then InSlot(s.u.id)
      else if s.Renew? && s.t == t && TakesSlot(w, t, s.n) then InSlot(w.tasks[t].id)
      else h
    case InSweep(t, id) => if s.User? && s.u.SweepBegin? && t == |w.tasks| then InSlot(id) else h
  }

  /** The slot an engine built by this step goes into. */
  predicate Installs(w: World, s: Step, h: Holder) {
    (s.Call? || s.Restart? || s.Renew?) && s.t < |w.tasks| && !w.tasks[s.t].Done? && !w.tasks[s.t].Sweep?
        && h == InSlot(w.tasks[s.t].id)
  }

  ghost predicate Forward(w: World, s: Step, w': World, h: Holder) {
    Held(w, h).Some? ==> Completes(w, s, h) || MayDrop(w, Held(w, h).value) || Held(w', Heir(w, s, h)) == Held(w, h)
  }

  ghost predicate Backward(w: World, s: Step, w': World, h: Holder) {
    Held(w', h).Some? ==>
      || (Installs(w, s, h) && Held(w', h).value == |w.engines| < |w'.engines|)
      || (Held(w, Origin(w, s, h)) == Held(w', h) && Heir(w, s, Origin(w, s, h)) == h)
  }

  lemma ForwardSweep(w: World, clear: bool, h: Holder)
    requires SlotsBuilt(w)
    ensures Forward(w, User(SweepBegin(clear)), DoSweepBegin(w, clear), h)
  {
  }

  lemma ForwardStop(w: World, id: NodeId, h: Holder)
    ensures Forward(w, User(StopBegin(id)), DoStopBegin(w, id), h)
  {
  }

  lemma ForwardUser(w: World, u: UserMove, h: Holder)
    requires SlotsBuilt(w) && w.nodes.Keys <= w.used
    ensures Forward(w, User(u), ApplyUser(w, u), h)
  {
    if u.SweepBegin? {
      ForwardSweep(w, u.clear, h);
    } else if u.StopBegin? {
      ForwardStop(w, u.id, h);
    }
  }

  lemma ForwardStart(w: World, t: TaskId, built: Option<NodeState>, error: string, h: Holder)
    requires SlotsBuilt(w)
    ensures Forward(w, Call(t, StartCommit(built, error)), DoStartCommit(w, t, built, error), h)
  {
  }

  lemma ForwardCall(w: World, t: TaskId, c: CallMove, h: Holder)
    requires SlotsBuilt(w)
    ensures Forward(w, Call(t, c), ApplyCall(w, t, c), h)
  {
    if c.StartCommit? {
      ForwardStart(w, t, c.built, c.error, h);
    }
  }

  lemma ForwardListener(w: World, t: TaskId, l: ListenerMove, h: Holder)
    ensures Forward(w, Listen(t, l), ApplyListener(w, t, l), h)
  {
  }

  lemma ForwardRestart(w: World, t: TaskId, r: RestartMove, h: Holder)
    requires t < |w.tasks| ==> Relies(w, w.tasks[t])
    ensures Forward(w, Restart(t, r), ApplyRestart(w, t, r), h)
  {
  }

  lemma ForwardRenewal(w: World, t: TaskId, n: RenewalMove, h: Holder)
    requires t < |w.tasks| ==> Relies(w, w.tasks[t])
    ensures Forward(w, Renew(t, n), ApplyRenewal(w, t, n), h)
  {
  }

  lemma ForwardStep(w: World, s: Step, h: Holder)
    requires Inv(w)
    ensures Forward(w, s, Apply(w, s), h)
  {
    match s
    case User(u) => ForwardUser(w, u, h);
    case Call(t, c) => ForwardCall(w, t, c, h);
    case Listen(t, l) => ForwardListener(w, t, l, h);
    case Restart(t, r) => ForwardRestart(w, t, r, h);
    case Renew(t, n) => ForwardRenewal(w, t, n, h);
    case Deliver =>
    case EngineFlip(x, alive) =>
  }

  lemma BackwardSweep(w: World, clear: bool, h: Holder)
    ensures Backward(w, User(SweepBegin(clear)), DoSweepBegin(w, clear), h)
  {
  }

  lemma BackwardUser(w: World, u: UserMove, h: Holder)
    ensures Backward(w, User(u), ApplyUser(w, u), h)
  {
    if u.SweepBegin? {
      BackwardSweep(w, u.clear, h);
    }
  }

  lemma BackwardStart(w: World, t: TaskId, built: Option<NodeState>, error: string, h: Holder)
    ensures Backward(w, Call(t, StartCommit(built, error)), DoStartCommit(w, t, built, error), h)
  {
  }

  lemma BackwardCall(w: World, t: TaskId, c: CallMove, h: Holder)
    ensures Backward(w, Call(t, c), ApplyCall(w, t, c), h)
  {
    if c.StartCommit? {
      BackwardStart(w, t, c.built, c.error, h);
    }
  }

  lemma BackwardListener(w: World, t: TaskId, l: ListenerMove, h: Holder)
    ensures Backward(w, Listen(t, l), ApplyListener(w, t, l), h)
  {
  }

  lemma BackwardInstall(w: World, t: TaskId, built: Option<NodeState>, h: Holder)
    ensures Backward(w, Restart(t, Install(built)), DoRestartInstall(w, t, built), h)
  {
  }

  lemma BackwardRestart(w: World, t: TaskId, r: RestartMove, h: Holder)
    ensures Backward(w, Restart(t, r), ApplyRestart(w, t, r), h)
  {
    if r.Install? {
      BackwardInstall(w, t, r.built, h);
    }
  }

  lemma BackwardReinstall(w: World, t: TaskId, built: Option<NodeState>, error: string, h: Holder)
    ensures Backward(w, Renew(t, Reinstall(built, error)), DoRenewalInstall(w, t, built, error), h)
  {
  }

  lemma BackwardRenewal(w: World, t: TaskId, n: RenewalMove, h: Holder)
    ensures Backward(w, Renew(t, n), ApplyRenewal(w, t, n), h)
  {
    if n.Reinstall? {
      BackwardReinstall(w, t, n.built, n.error, h);
    }
  }

  lemma BackwardStep(w: World, s: Step, h: Holder)
    ensures Backward(w, s, Apply(w, s), h)
  {
    match s
    case User(u) => BackwardUser(w, u, h);
    case Call(t, c) => BackwardCall(w, t, c, h);
    case Listen(t, l) => BackwardListener(w, t, l, h);
    case Restart(t, r) => BackwardRestart(w, t, r, h);
    case Renew(t, n) => BackwardRenewal(w, t, n, h);
    case Deliver =>
    case EngineFlip(x, alive) =>
  }

  lemma HeldOnceKept(w: World, s: Step, w': World)
    requires HeldOnce(w) && |w.engines| <= |w'.engines|
    requires forall h :: Backward(w, s, w', h)
    ensures HeldOnce(w')
  {
    forall g, h | Held(w', g).Some? && Held(w', g) == Held(w', h)
      ensures g == h
    {
      assert Backward(w, s, w', g) && Backward(w, s, w', h);
    }
    forall h | Held(w', h).Some?
      ensures Held(w', h).value < |w'.engines|
    {
      assert Backward(w, s, w', h);
    }
  }

  // ----- conservation over runs -------------------------------------------------------------

  lemma {:induction false} HeldOnceRun(w: World, steps: seq<Step>)
    requires Inv(w) && HeldOnce(w)
    ensures Inv(Run(w, steps)) && HeldOnce(Run(w, steps))
    decreases |steps|
  {
    if steps != [] {
      var w' := Apply(w, steps[0]);
      InvStep(w, steps[0]);
      TasksMoveStep(w, steps[0]);
      forall h ensures Backward(w, steps[0], w', h) { BackwardStep(w, steps[0], h); }
      HeldOnceKept(w, steps[0], w');
      HeldOnceRun(w', steps[1..]);
    }
  }

  /** A held engine finishes a graceful shutdown, was dead or reported dead, or is held after the
      step too: where it was, or passed from its slot to a graceful shutdown. */
  ghost predicate Accounted(w: World, s: Step, w': World, h: Holder) {
    Held(w, h).Some? ==>
      || Completes(w, s, h)
      || MayDrop(w, Held(w, h).value)
      || (exists h' :: Held(w', h') == Held(w, h) && (h' == h || (h.InSlot? && !h'.InSlot?)))
  }

  /** Engine conservation: in every reachable world no engine is in two places, and no step loses one. */
  lemma EnginesConserved(profile: Profile, load: PackDir -> Option<Pack>, steps: seq<Step>, s: Step, h: Holder)
    ensures var w := Run(Restore(profile, load), steps);
            HeldOnce(w) && HeldOnce(Apply(w, s)) && Accounted(w, s, Apply(w, s), h)
  {
    var w0 := Restore(profile, load);
    HeldOnceRun(w0, steps);
    var w := Run(w0, steps);
    HeldOnceRun(w, [s]);
    assert Run(w, [s]) == Apply(w, s);
    ForwardStep(w, s, h);
    assert Held(w, h).Some? && !Completes(w, s, h) && !MayDrop(w, Held(w, h).value) ==>
        Held(Apply(w, s), Heir(w, s, h)) == Held(w, h);
  }

  /** A live engine only ever leaves its slot into one graceful shutdown, unless its own listener has been
      told that it ended (an engine may show life again after that). */
  lemma LiveEnginesNeverDropped(profile: Profile, load: PackDir -> Option<Pack>, steps: seq<Step>, s: Step, id: NodeId)
    requires var w := Run(Restore(profile, load), steps); id in w.nodes && SlotAlive(w, id)
    ensures var w := Run(Restore(profile, load), steps);
            var x := w.nodes[id].engine;
            || w.engines[x.value].reported
            || Held(Apply(w, s), InSlot(id)) == x
            || (exists h: Holder ::
                  !h.InSlot? && Held(Apply(w, s), h) == x && (forall g :: Held(Apply(w, s), g) == x ==> g == h))
  {
    var w := Run(Restore(profile, load), steps);
    EnginesConserved(profile, load, steps, s, InSlot(id));
    assert Held(w, InSlot(id)) == w.nodes[id].engine;
    if !w.engines[w.nodes[id].engine.value].reported {
      var h: Holder :| Held(Apply(w, s), h) == Held(w, InSlot(id)) && (h == InSlot(id) || !h.InSlot?);
    }
  }
}
