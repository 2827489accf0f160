/** Generations are 64 bits wide in the engines and 32 bits wide at the interface. */
module Narrowing {
  import opened Types
  import opened Fleet

  const U32_MAX: nat := 0xFFFF_FFFF
  const U64_MAX: nat := 0xFFFF_FFFF_FFFF_FFFF

  predicate Wide(g: nat) {
    g <= U64_MAX
  }

  predicate WideOption(g: Option<nat>) {
    g.Some? ==> Wide(g.value)
  }

  /** Narrowing that sticks at the top. */
  function Saturate(g: nat): (r: nat)
    requires Wide(g)
    ensures r == if g <= 0xFFFF_FFFF then g else 0xFFFF_FFFF
  {
    if g <= U32_MAX then g else U32_MAX
  }

  /** Narrowing that forgets what does not fit. */
  function Drop(g: Option<nat>): (r: Option<nat>)
    requires WideOption(g)
    ensures r == g || r.None?
    ensures r.None? <==> g.None? || g.value > 0xFFFF_FFFF
  {
    if g.Some? && g.value <= U32_MAX then g else None
  }

  predicate WideHub(hub: HubView) {
    Wide(hub.floor) && WideOption(hub.serving) && forall i | 0 <= i < |hub.agents| :: WideOption(hub.agents[i].seen)
  }

  function NarrowHub(hub: HubView): HubView
    requires WideHub(hub)
  {
    HubView(Saturate(hub.floor), Drop(hub.serving),
            seq(|hub.agents|, i requires 0 <= i < |hub.agents| => hub.agents[i].(seen := Drop(hub.agents[i].seen))))
  }

  function NarrowApplied(applied: Option<nat>): Option<nat>
    requires WideOption(applied)
  {
    if applied.Some? then Some(Saturate(applied.value)) else None
  }

  function NarrowInfo(info: NodeInfo): NodeInfo
    requires WideOption(info.applied)
  {
    info.(applied := NarrowApplied(info.applied))
  }

  /** Where narrowing hides that a node is behind: what it is measured against does not fit, and what
      it is measured against instead is no higher than what it shows. */
  predicate Hidden(hub: HubView, applied: Option<nat>)
    requires WideHub(hub) && WideOption(applied)
  {
    && applied.Some? && applied.value < Reference(hub) && U32_MAX < Reference(hub)
    && (if hub.serving.Some? then Saturate(hub.floor) else U32_MAX) <= Saturate(applied.value)
  }

  lemma LocalVerdict(hub: HubView, applied: Option<nat>)
    requires WideHub(hub) && WideOption(applied)
    ensures CaughtUp(NarrowHub(hub), NarrowApplied(applied)) <==> CaughtUp(hub, applied) || Hidden(hub, applied)
  {
    if Reference(hub) <= U32_MAX {
      assert Reference(NarrowHub(hub)) == Reference(hub);
    }
  }

  /** Narrowing never raises a false alarm for a stream whose source is local: its status is the same,
      except that a node that is behind may be hidden by the top of the range. */
  lemma LocalStatusNarrows(hub: HubView, agent: Agent, info: NodeInfo, rule: Rule)
    requires WideHub(hub) && WideOption(info.applied)
    ensures var full := StatusOf(Some(hub), agent, Some(info), rule);
            var narrow := StatusOf(Some(NarrowHub(hub)), agent, Some(NarrowInfo(info)), rule);
            && (narrow.CatchingUp? ==> full.CatchingUp?)
            && (narrow == full <==> !Hidden(hub, info.applied))
            && (Reference(hub) <= U32_MAX ==> narrow == full)
  {
    LocalVerdict(hub, info.applied);
    assert ListenerOf(Some(NarrowInfo(info)), rule) == ListenerOf(Some(info), rule);
  }

  lemma {:induction false} RowNarrows(rows: seq<HubRow>, rows': seq<HubRow>, agent: string)
    requires |rows'| == |rows|
    requires forall i | 0 <= i < |rows| :: WideOption(rows[i].seen) && rows'[i] == rows[i].(seen := Drop(rows[i].seen))
    ensures var row := FindRow(rows, agent);
            && (row.Some? ==> WideOption(row.value.seen))
            && FindRow(rows', agent) == if row.Some? then Some(row.value.(seen := Drop(row.value.seen))) else None
  {
    if rows != [] && rows[0].agent != agent { RowNarrows(rows[1..], rows'[1..], agent); }
  }

  /** A remote source is different: the seen generation is forgotten when it does not fit, so a stream
      that has converged shows as catching up exactly when the seen generation does not fit. */
  lemma RemoteFalseAlarmIff(hub: HubView, agent: Agent, rule: Rule)
    requires WideHub(hub) && StatusOf(Some(hub), agent, None, rule).Unknown? && Remote(Some(hub), agent).Some?
    ensures StatusOf(Some(NarrowHub(hub)), agent, None, rule).CatchingUp? <==>
        Remote(Some(hub), agent).value.seen.value > U32_MAX
  {
    RowNarrows(hub.agents, NarrowHub(hub).agents, agent.workspace + "/" + agent.node);
    var seen := Remote(Some(hub), agent).value.seen;
    if seen.value <= U32_MAX { LocalVerdict(hub, seen); }
  }

  /** The hub serves something older than what the node runs. */
  predicate Inverted(generation: nat, hubGeneration: Option<nat>) {
    hubGeneration.Some? && hubGeneration.value < generation
  }

  /** A narrowed inversion is a real one, and a real one is missed exactly when the hub's generation
      is at or past the top of the range. */
  lemma InversionVerdict(generation: nat, hub: Option<nat>)
    requires Wide(generation) && WideOption(hub)
    ensures Inverted(Saturate(generation), Drop(hub)) <==> Inverted(generation, hub) && hub.value < U32_MAX
  {
  }

  /** A remote agent that has converged on the first generation past 32 bits. */
  lemma RemoteFalseAlarm()
    ensures var hub := HubView(0, Some(1), [HubRow("main/n", true, Some(U32_MAX + 1))]);
            var agent, rule := Agent("n", "main", true, [], []), Rule("r", "", "");
            && WideHub(hub)
            && StatusOf(Some(hub), agent, None, rule).Unknown?
            && StatusOf(Some(NarrowHub(hub)), agent, None, rule).CatchingUp?
  {
    var hub := HubView(0, Some(1), [HubRow("main/n", true, Some(U32_MAX + 1))]);
    var agent, rule := Agent("n", "main", true, [], []), Rule("r", "", "");
    assert FindRow(hub.agents, "main/n") == Some(hub.agents[0]);
    assert agent.workspace + "/" + agent.node == "main/n";
    RemoteFalseAlarmIff(hub, agent, rule);
  }
}
