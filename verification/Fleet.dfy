/** The fleet view: declared nodes joined with the nodes on this machine and with the hub's view. */
module Fleet {
  import opened Types
  import opened Principals

  datatype Listener = Listener(rule: string, boundAddr: Option<string>, lastError: Option<string>)

  /** A node on this machine, as far as the view reads it. */
  datatype NodeInfo = NodeInfo(id: NodeId, principal: Option<string>, applied: Option<nat>,
      listeners: Option<seq<Listener>>,
                               services: seq<LocalService>)

  /** A service as a local node dials it. */
  datatype LocalService = LocalService(id: string, effective: string, overridden: bool)

  datatype Service = Service(id: string, address: string)

  datatype Rule = Rule(name: string, listen: string, target: string)

  datatype Agent = Agent(node: string, workspace: string, expose: bool, rules: seq<Rule>, services: seq<Service>)

  /** What the manifest declares, in the order the table lists it. */
  datatype Decl = AgentDecl(agent: Agent) | HubDecl(name: string) | IngressDecl(name: string)

  datatype HubRow = HubRow(agent: string, online: bool, seen: Option<nat>)

  datatype HubView = HubView(floor: nat, serving: Option<nat>, agents: seq<HubRow>)

  datatype Row = Row(kind: NodeKind, name: string, workspace: Option<string>, local: Option<NodeInfo>,
      remote: Option<HubRow>)

  datatype Status = Serving | Down | CatchingUp | Unknown

  datatype Stream = Stream(agent: string, rule: Rule, status: Status, boundAddr: Option<string>,
      lastError: Option<string>,
                           source: Option<NodeId>)

  datatype ServiceFace = ServiceFace(agent: string, workspace: string, service: Service, effective: Option<string>,
                                     overridden: bool, source: Option<NodeId>)

  // ----- the join ---------------------------------------------------------------------------

  /** Does the declaration name this node? The workspace is part of an agent's key only. */
  predicate Names(realm: string, d: Decl, n: NodeInfo) {
    var p := SplitPrincipal(if n.principal.Some? then n.principal.value else "");
    p.Some? && p.value.realm == realm &&
    match d
    case AgentDecl(a) => p.value.workspace == a.workspace && p.value.kind == "agent" && p.value.name == a.node
    case HubDecl(name) => p.value.kind == "hub" && p.value.name == name
    case IngressDecl(name) => p.value.kind == "ingress" && p.value.name == name
  }

  /** The first node the declaration names. */
  function First(realm: string, d: Decl, nodes: seq<NodeInfo>): Option<NodeInfo> {
    if nodes == [] then None
    else if Names(realm, d, nodes[0]) then Some(nodes[0])
    else First(realm, d, nodes[1..])
  }

  function Without(realm: string, d: Decl, nodes: seq<NodeInfo>): seq<NodeInfo> {
    if nodes == [] then []
    else if Names(realm, d, nodes[0]) then nodes[1..]
    else [nodes[0]] + Without(realm, d, nodes[1..])
  }

  /** Declaration after declaration takes its node out of what is left. */
  function Greedy(realm: string, decls: seq<Decl>, nodes: seq<NodeInfo>): (r: (seq<Option<NodeInfo>>, seq<NodeInfo>))
    ensures |r.0| == |decls|
  {
    if decls == [] then ([], nodes)
    else
      var (locals, left) := Greedy(realm, decls[..|decls| - 1], nodes);
      var d := decls[|decls| - 1];
      (locals + [First(realm, d, left)], Without(realm, d, left))
  }

  function Found(local: Option<NodeInfo>): multiset<NodeInfo> {
    if local.Some? then multiset{local.value} else multiset{}
  }

  function Matched(locals: seq<Option<NodeInfo>>): multiset<NodeInfo> {
    if locals == [] then multiset{} else Matched(locals[..|locals| - 1]) + Found(locals[|locals| - 1])
  }

  /** `part` is `whole` with some elements left out. */
  predicate Subsequence(part: seq<NodeInfo>, whole: seq<NodeInfo>) {
    if part == [] then true
    else if whole == [] then false
    else if part[0] == whole[0] && Subsequence(part[1..], whole[1..]) then true
    else Subsequence(part, whole[1..])
  }

  lemma {:induction false} WithoutTakesOne(realm: string, d: Decl, nodes: seq<NodeInfo>)
    ensures multiset(nodes) == Found(First(realm, d, nodes)) + multiset(Without(realm, d, nodes))
    ensures First(realm, d, nodes).None? ==> Without(realm, d, nodes) == nodes
  {
    if nodes != [] {
      assert nodes == [nodes[0]] + nodes[1..];
      if !Names(realm, d, nodes[0]) { WithoutTakesOne(realm, d, nodes[1..]); }
    }
  }

  lemma {:induction false} SubsequenceTail(part: seq<NodeInfo>, whole: seq<NodeInfo>)
    requires part != [] && Subsequence(part, whole)
    ensures Subsequence(part[1..], whole)
    decreases whole
  {
    if whole != [] {
      if part[0] == whole[0] && Subsequence(part[1..], whole[1..]) {
        SubsequenceWiden(part[1..], whole);
      } else {
        SubsequenceTail(part, whole[1..]);
        SubsequenceWiden(part[1..], whole);
      }
    }
  }

  lemma {:induction false} SubsequenceWiden(part: seq<NodeInfo>, whole: seq<NodeInfo>)
    requires whole != [] && Subsequence(part, whole[1..])
    ensures Subsequence(part, whole)
  {
  }

  lemma {:induction false} SubsequenceSelf(s: seq<NodeInfo>)
    ensures Subsequence(s, s)
  {
    if s != [] { SubsequenceSelf(s[1..]); }
  }

  /** Leaving out one more keeps the order. */
  lemma {:induction false} WithoutKeepsOrder(realm: string, d: Decl, part: seq<NodeInfo>, whole: seq<NodeInfo>)
    requires Subsequence(part, whole)
    ensures Subsequence(Without(realm, d, part), whole)
    decreases whole
  {
    if part != [] && whole != [] {
      if Names(realm, d, part[0]) {
        SubsequenceTail(part, whole);
      } else {
        var rest := Without(realm, d, part);
        assert rest[1..] == Without(realm, d, part[1..]);
        if part[0] == whole[0] && Subsequence(part[1..], whole[1..]) {
          WithoutKeepsOrder(realm, d, part[1..], whole[1..]);
        } else {
          WithoutKeepsOrder(realm, d, part, whole[1..]);
          SubsequenceWiden(rest, whole);
        }
      }
    }
  }

  /** The join splits the nodes: every node is in exactly one row or left over, and what is left over
      keeps its order. */
  lemma {:induction false} JoinPartitions(realm: string, decls: seq<Decl>, nodes: seq<NodeInfo>)
    ensures var (locals, left) := Greedy(realm, decls, nodes);
            multiset(nodes) == Matched(locals) + multiset(left) && Subsequence(left, nodes)
  {
    if decls == [] {
      SubsequenceSelf(nodes);
    } else {
      var d := decls[|decls| - 1];
      JoinPartitions(realm, decls[..|decls| - 1], nodes);
      var (locals, left) := Greedy(realm, decls[..|decls| - 1], nodes);
      WithoutTakesOne(realm, d, left);
      WithoutKeepsOrder(realm, d, left, nodes);
      var all := Greedy(realm, decls, nodes).0;
      assert all[..|all| - 1] == locals;
    }
  }

  // ----- the declarative join ---------------------------------------------------------------

  /** No two declarations name the same node. */
  ghost predicate Unambiguous(realm: string, decls: seq<Decl>, nodes: seq<NodeInfo>) {
    forall i, j, k | 0 <= i < j < |decls| && 0 <= k < |nodes| ::
        !(Names(realm, decls[i], nodes[k]) && Names(realm, decls[j], nodes[k]))
  }

  predicate Unnamed(realm: string, decls: seq<Decl>, n: NodeInfo) {
    forall i | 0 <= i < |decls| :: !Names(realm, decls[i], n)
  }

  /** Every node some declaration names leaves, the rest stays, in order. */
  function Others(realm: string, decls: seq<Decl>, nodes: seq<NodeInfo>): seq<NodeInfo> {
    if nodes == [] then []
    else (if Unnamed(realm, decls, nodes[0]) then [nodes[0]] else []) + Others(realm, decls, nodes[1..])
  }

  /** Each declaration names at most one node. */
  ghost predicate Single(realm: string, decls: seq<Decl>, nodes: seq<NodeInfo>) {
    forall i, k, l | 0 <= i < |decls| && 0 <= k < |nodes| && 0 <= l < |nodes| && Names(realm, decls[i], nodes[k])
        && Names(realm, decls[i], nodes[l]) :: k == l
  }

  lemma {:induction false} OthersMembers(realm: string, decls: seq<Decl>, nodes: seq<NodeInfo>, k: nat) returns (j: nat)
    requires k < |Others(realm, decls, nodes)|
    ensures j < |nodes| && nodes[j] == Others(realm, decls, nodes)[k] && Unnamed(realm, decls, nodes[j])
  {
    if Unnamed(realm, decls, nodes[0]) {
      if k == 0 {
        j := 0;
      } else {
        var i := OthersMembers(realm, decls, nodes[1..], k - 1);
        j := i + 1;
      }
    } else {
      var i := OthersMembers(realm, decls, nodes[1..], k);
      j := i + 1;
    }
  }

  /** A declaration that shares no node with the earlier ones finds its node among those they left. */
  lemma {:induction false} FirstAmongOthers(realm: string, decls: seq<Decl>, d: Decl, nodes: seq<NodeInfo>)
    requires forall i, k | 0 <= i < |decls| && 0 <= k < |nodes| ::
        !(Names(realm, decls[i], nodes[k]) && Names(realm, d, nodes[k]))
    ensures First(realm, d, Others(realm, decls, nodes)) == First(realm, d, nodes)
  {
    if nodes != [] {
      FirstAmongOthers(realm, decls, d, nodes[1..]);
      var rest := Others(realm, decls, nodes[1..]);
      if Unnamed(realm, decls, nodes[0]) {
        assert ([nodes[0]] + rest)[1..] == rest;
      } else {
        assert [] + rest == rest;
      }
    }
  }

  lemma SingleTail(realm: string, decls: seq<Decl>, nodes: seq<NodeInfo>)
    requires nodes != [] && Single(realm, decls, nodes)
    ensures Single(realm, decls, nodes[1..])
  {
    var rest := nodes[1..];
    forall i, k, l | 0 <= i < |decls| && 0 <= k < |rest| && 0 <= l < |rest| && Names(realm, decls[i], rest[k])
        && Names(realm, decls[i], rest[l])
      ensures k == l
    {
      assert rest[k] == nodes[k + 1] && rest[l] == nodes[l + 1];
    }
  }

  /** When the last declaration names the first node, it names no other that the earlier ones left. */
  lemma NamedOnce(realm: string, decls: seq<Decl>, nodes: seq<NodeInfo>, k: nat)
    requires decls != [] && nodes != [] && Single(realm, decls, nodes) && Names(realm, decls[|decls| - 1], nodes[0])
    requires k < |Others(realm, decls[..|decls| - 1], nodes[1..])|
    ensures !Names(realm, decls[|decls| - 1], Others(realm, decls[..|decls| - 1], nodes[1..])[k])
  {
    var j := OthersMembers(realm, decls[..|decls| - 1], nodes[1..], k);
    assert nodes[1..][j] == nodes[j + 1];
  }

  lemma WithoutCons(realm: string, d: Decl, x: NodeInfo, rest: seq<NodeInfo>)
    ensures Without(realm, d, [x] + rest) == if Names(realm, d, x) then rest else [x] + Without(realm, d, rest)
  {
    assert ([x] + rest)[1..] == rest;
  }

  lemma OthersCons(realm: string, decls: seq<Decl>, nodes: seq<NodeInfo>)
    requires nodes != []
    ensures Others(realm, decls, nodes) == if Unnamed(realm, decls, nodes[0])
        then [nodes[0]] + Others(realm, decls, nodes[1..]) else Others(realm, decls, nodes[1..])
  {
  }

  /** Taking one declaration's only node out of what the earlier ones left. */
  lemma {:induction false} WithoutOthers(realm: string, decls: seq<Decl>, nodes: seq<NodeInfo>)
    requires decls != [] && Single(realm, decls, nodes)
    ensures Without(realm, decls[|decls| - 1], Others(realm, decls[..|decls| - 1], nodes)) ==
              Others(realm, decls, nodes)
  {
    if nodes != [] {
      var init, d, x := decls[..|decls| - 1], decls[|decls| - 1], nodes[0];
      var rest := Others(realm, init, nodes[1..]);
      SingleTail(realm, decls, nodes);
      WithoutOthers(realm, decls, nodes[1..]);
      OthersCons(realm, init, nodes);
      OthersCons(realm, decls, nodes);
      UnnamedSplit(realm, decls, x);
      WithoutCons(realm, d, x, rest);
      if Unnamed(realm, init, x) && Names(realm, d, x) {
        forall k | 0 <= k < |rest| ensures !Names(realm, d, rest[k]) { NamedOnce(realm, decls, nodes, k); }
        NoMatch(realm, d, rest);
      }
    }
  }

  lemma UnnamedSplit(realm: string, decls: seq<Decl>, n: NodeInfo)
    requires decls != []
    ensures Unnamed(realm, decls, n) <==>
              Unnamed(realm, decls[..|decls| - 1], n) && !Names(realm, decls[|decls| - 1], n)
  {
    var m := |decls| - 1;
    if Unnamed(realm, decls[..m], n) && !Names(realm, decls[m], n) {
      forall i | 0 <= i < |decls| ensures !Names(realm, decls[i], n) {
        if i < m { assert decls[..m][i] == decls[i]; }
      }
    }
  }

  lemma {:induction false} NoMatch(realm: string, d: Decl, nodes: seq<NodeInfo>)
    requires forall k | 0 <= k < |nodes| :: !Names(realm, d, nodes[k])
    ensures Without(realm, d, nodes) == nodes && First(realm, d, nodes).None?
  {
    if nodes != [] { NoMatch(realm, d, nodes[1..]); }
  }

  lemma {:induction false} OthersOfNothing(realm: string, nodes: seq<NodeInfo>)
    ensures Others(realm, [], nodes) == nodes
  {
    if nodes != [] { OthersOfNothing(realm, nodes[1..]); }
  }

  /** Greedy equals declarative: when no node is named twice and no declaration names two, each row
      has exactly the node its declaration names, whatever was processed before it, and what is left
      over is exactly what nothing names. */
  lemma {:induction false} GreedyIsDeclarative(realm: string, decls: seq<Decl>, nodes: seq<NodeInfo>)
    requires Unambiguous(realm, decls, nodes) && Single(realm, decls, nodes)
    ensures var (locals, left) := Greedy(realm, decls, nodes);
            left == Others(realm, decls, nodes) && forall i | 0 <= i < |decls| ::
                locals[i] == First(realm, decls[i], nodes)
  {
    if decls == [] {
      OthersOfNothing(realm, nodes);
    } else {
      var n := |decls| - 1;
      var init := decls[..n];
      assert forall i | 0 <= i < n :: init[i] == decls[i];
      GreedyIsDeclarative(realm, init, nodes);
      FirstAmongOthers(realm, init, decls[n], nodes);
      WithoutOthers(realm, decls, nodes);
    }
  }

  // ----- when the join is unambiguous -------------------------------------------------------

  /** Declared names are distinct: agents per workspace, hubs, ingresses. */
  ghost predicate DistinctDecls(decls: seq<Decl>) {
    forall i, j | 0 <= i < j < |decls| ::
      match (decls[i], decls[j])
      case (AgentDecl(a), AgentDecl(b)) => a.node != b.node || a.workspace != b.workspace
      case (HubDecl(a), HubDecl(b)) => a != b
      case (IngressDecl(a), IngressDecl(b)) => a != b
      case _ => true
  }

  /** Managed nodes have distinct known principals, and hub and ingress packs carry no workspace. */
  ghost predicate DistinctNodes(nodes: seq<NodeInfo>) {
    && (forall k, l | 0 <= k < l < |nodes| :: nodes[k].principal.Some? ==> nodes[k].principal != nodes[l].principal)
    && (forall k | 0 <= k < |nodes| && nodes[k].principal.Some? && SplitPrincipal(nodes[k].principal.value).Some? ::
          var p := SplitPrincipal(nodes[k].principal.value).value; p.kind == "hub" || p.kind == "ingress" ==>
              p.workspace == "-")
  }

  /** What a declaration names is determined by the printed principal. */
  lemma NamesFixesPrincipal(realm: string, d: Decl, nodes: seq<NodeInfo>, k: nat)
    requires DistinctNodes(nodes) && k < |nodes| && Names(realm, d, nodes[k])
    ensures nodes[k].principal == Some(Print(match d
              case AgentDecl(a) => Principal(realm, a.workspace, "agent", a.node)
              case HubDecl(name) => Principal(realm, "-", "hub", name)
              case IngressDecl(name) => Principal(realm, "-", "ingress", name)))
  {
    if nodes[k].principal.Some? { PrintOfParse(nodes[k].principal.value); }
  }

  /** A declaration with slash-free segments names a node exactly when the node's identity is the declared
      one, printed: for a hub or an ingress with any workspace. */
  lemma NamesIff(realm: string, d: Decl, n: NodeInfo)
    requires SlashFree(realm)
    ensures d.AgentDecl? && SlashFree(d.agent.workspace) && SlashFree(d.agent.node) ==>
              (Names(realm, d, n) <==>
                 n.principal == Some(Print(Principal(realm, d.agent.workspace, "agent", d.agent.node))))
    ensures !d.AgentDecl? && SlashFree(d.name) ==>
              var kind := if d.HubDecl? then "hub" else "ingress";
              (Names(realm, d, n) <==>
                 exists ws: string :: SlashFree(ws) && n.principal == Some(Print(Principal(realm, ws, kind, d.name))))
  {
    if Names(realm, d, n) {
      NamesPrints(realm, d, n);
    } else {
      PrintedNames(realm, d, n);
    }
  }

  lemma NamesPrints(realm: string, d: Decl, n: NodeInfo)
    requires Names(realm, d, n)
    ensures n.principal.Some? && SplitPrincipal(n.principal.value).Some?
    ensures var p := SplitPrincipal(n.principal.value).value; Plain(p) && n.principal == Some(Print(p))
  {
    assert |Split("")| == 1;
    PrintOfParse(n.principal.value);
  }

  lemma PrintedNames(realm: string, d: Decl, n: NodeInfo)
    requires SlashFree(realm) && !Names(realm, d, n)
    ensures d.AgentDecl? && SlashFree(d.agent.workspace) && SlashFree(d.agent.node) ==>
              n.principal != Some(Print(Principal(realm, d.agent.workspace, "agent", d.agent.node)))
    ensures !d.AgentDecl? && SlashFree(d.name) ==>
              var kind := if d.HubDecl? then "hub" else "ingress";
              forall ws: string | SlashFree(ws) :: n.principal != Some(Print(Principal(realm, ws, kind, d.name)))
  {
    if d.AgentDecl? {
      var p := Principal(realm, d.agent.workspace, "agent", d.agent.node);
      if Plain(p) { ParseOfPrint(p); }
    } else {
      var kind := if d.HubDecl? then "hub" else "ingress";
      forall ws: string | SlashFree(ws) && SlashFree(d.name)
        ensures n.principal != Some(Print(Principal(realm, ws, kind, d.name)))
      {
        ParseOfPrint(Principal(realm, ws, kind, d.name));
      }
    }
  }

  lemma DistinctNamesSuffice(realm: string, decls: seq<Decl>, nodes: seq<NodeInfo>)
    requires DistinctDecls(decls) && DistinctNodes(nodes)
    ensures Unambiguous(realm, decls, nodes) && Single(realm, decls, nodes)
  {
    forall i, k, l | 0 <= i < |decls| && 0 <= k < |nodes| && 0 <= l < |nodes| && Names(realm, decls[i], nodes[k])
        && Names(realm, decls[i], nodes[l])
      ensures k == l
    {
      NamesFixesPrincipal(realm, decls[i], nodes, k);
      NamesFixesPrincipal(realm, decls[i], nodes, l);
    }
  }

  // ----- stream status ----------------------------------------------------------------------

  /** The generation a node is measured against: what the hub serves, else its floor. */
  function Reference(hub: HubView): nat {
    if hub.serving.Some? then hub.serving.value else hub.floor
  }

  predicate CaughtUp(hub: HubView, applied: Option<nat>) {
    applied.Some? && applied.value >= Reference(hub)
  }

  predicate Behind(hub: Option<HubView>, applied: Option<nat>) {
    hub.Some? && !CaughtUp(hub.value, applied)
  }

  function FindListener(listeners: seq<Listener>, rule: string): (r: Option<Listener>)
    ensures r.None? <==> forall i | 0 <= i < |listeners| :: listeners[i].rule != rule
    ensures r.Some? ==>
              exists i | 0 <= i < |listeners| ::
                && listeners[i] == r.value && r.value.rule == rule
                && forall j | 0 <= j < i :: listeners[j].rule != rule
  {
    if listeners == [] then None
    else if listeners[0].rule == rule then Some(listeners[0])
    else FindListener(listeners[1..], rule)
  }

  function ListenerOf(local: Option<NodeInfo>, rule: Rule): Option<Listener> {
    if local.Some? && local.value.listeners.Some? then FindListener(local.value.listeners.value, rule.name) else None
  }

  function FindRow(rows: seq<HubRow>, agent: string): (r: Option<HubRow>)
    ensures r.None? <==> forall i | 0 <= i < |rows| :: rows[i].agent != agent
    ensures r.Some? ==>
              exists i | 0 <= i < |rows| ::
                && rows[i] == r.value && r.value.agent == agent
                && forall j | 0 <= j < i :: rows[j].agent != agent
  {
    if rows == [] then None
    else if rows[0].agent == agent then Some(rows[0])
    else FindRow(rows[1..], agent)
  }

  /** The hub's row for an agent, by its qualified id. */
  function Remote(hub: Option<HubView>, agent: Agent): Option<HubRow> {
    if hub.Some? then FindRow(hub.value.agents, agent.workspace + "/" + agent.node) else None
  }

  function StatusOf(hub: Option<HubView>, agent: Agent, local: Option<NodeInfo>, rule: Rule): Status {
    if local.Some? then
      if Behind(hub, local.value.applied) then CatchingUp
      else
        match ListenerOf(local, rule)
        case Some(l) => if l.boundAddr.Some? then Serving else Down
        case None => Unknown
    else
      var row := Remote(hub, agent);
      if row.Some? && Behind(hub, row.value.seen) then CatchingUp else Unknown
  }

  /** What is known of the generation is behind what the hub serves, or, while that is not known, behind its
      floor; nothing known is behind everything. */
  predicate Lags(hub: HubView, known: Option<nat>) {
    match known
    case None => true
    case Some(g) => if hub.serving.Some? then g < hub.serving.value else g < hub.floor
  }

  /** The status table, read from its outcomes and the hub's own fields: a stream catches up exactly when the
      generation its source runs, as applied here or, for a source elsewhere, as the hub has seen, lags. */
  lemma StatusTable(hub: Option<HubView>, agent: Agent, local: Option<NodeInfo>, rule: Rule)
    ensures var status, listener := StatusOf(hub, agent, local, rule), ListenerOf(local, rule);
            var row := if hub.Some? then FindRow(hub.value.agents, agent.workspace + "/" + agent.node) else None;
            var lagging := hub.Some? &&
                  if local.Some? then Lags(hub.value, local.value.applied)
                  else row.Some? && Lags(hub.value, row.value.seen);
            && (status.CatchingUp? <==> lagging)
            && (status.Serving? <==> !lagging && listener.Some? && listener.value.boundAddr.Some?)
            && (status.Down? <==> !lagging && listener.Some? && listener.value.boundAddr.None?)
            && (status.Unknown? <==> !lagging && listener.None?)
  {
  }

  /** A node that has applied at least as much. */
  predicate AtLeast(a: Option<nat>, b: Option<nat>) {
    b.Some? ==> a.Some? && a.value >= b.value
  }

  /** The hub asks for at least as much: it serves no less, or, while what it serves is unknown, its floor is
      no lower. */
  predicate MovesOn(hub: HubView, hub': HubView) {
    match (hub.serving, hub'.serving)
    case (Some(a), Some(b)) => a <= b
    case (None, None) => hub.floor <= hub'.floor
    case (None, Some(b)) => hub.floor <= b
    case (Some(a), None) => a <= hub'.floor
  }

  /** Applying a newer generation never makes a stream catch up, and a hub moving on never stops one
      from catching up. */
  lemma StatusMonotone(hub: HubView, hub': HubView, agent: Agent, local: NodeInfo, local': NodeInfo, rule: Rule)
    requires MovesOn(hub, hub') && AtLeast(local'.applied, local.applied)
    ensures StatusOf(Some(hub), agent, Some(local'), rule).CatchingUp? ==>
              StatusOf(Some(hub'), agent, Some(local), rule).CatchingUp?
  {
    StatusTable(Some(hub), agent, Some(local'), rule);
    StatusTable(Some(hub'), agent, Some(local), rule);
  }

  lemma RemoteStatusMonotone(hub: HubView, hub': HubView, agent: Agent, rule: Rule)
    requires MovesOn(hub, hub')
    requires Remote(Some(hub), agent).Some? && Remote(Some(hub'), agent).Some?
        && AtLeast(Remote(Some(hub), agent).value.seen, Remote(Some(hub'), agent).value.seen)
    ensures StatusOf(Some(hub), agent, None, rule).CatchingUp? ==> StatusOf(Some(hub'), agent, None, rule).CatchingUp?
  {
    StatusTable(Some(hub), agent, None, rule);
    StatusTable(Some(hub'), agent, None, rule);
  }

  /** While what the hub serves is known its floor does not matter. */
  lemma FloorIgnored(hub: HubView, floor: nat, agent: Agent, local: Option<NodeInfo>, rule: Rule)
    requires hub.serving.Some?
    ensures StatusOf(Some(hub.(floor := floor)), agent, local, rule) == StatusOf(Some(hub), agent, local, rule)
  {
    StatusTable(Some(hub), agent, local, rule);
    StatusTable(Some(hub.(floor := floor)), agent, local, rule);
  }

  function StreamOf(hub: Option<HubView>, agent: Agent, local: Option<NodeInfo>, rule: Rule): Stream {
    var l := ListenerOf(local, rule);
    Stream(agent.node, rule, StatusOf(hub, agent, local, rule),
           if l.Some? then l.value.boundAddr else None, if l.Some? then l.value.lastError else None,
           if local.Some? then Some(local.value.id) else None)
  }

  /** The first entry of that id, as the node reports it. */
  function FindService(services: seq<LocalService>, id: string): (r: Option<LocalService>)
    ensures r.None? <==> forall i | 0 <= i < |services| :: services[i].id != id
    ensures r.Some? ==>
              exists i | 0 <= i < |services| ::
                && services[i] == r.value && r.value.id == id
                && forall j | 0 <= j < i :: services[j].id != id
  {
    if services == [] then None
    else if services[0].id == id then Some(services[0])
    else FindService(services[1..], id)
  }

  function ServiceOf(agent: Agent, local: Option<NodeInfo>, service: Service): ServiceFace {
    var here := if local.Some? then FindService(local.value.services, service.id) else None;
    ServiceFace(agent.node, agent.workspace, service, if here.Some? then Some(here.value.effective) else None,
                here.Some? && here.value.overridden, if local.Some? then Some(local.value.id) else None)
  }

  /** What a stream says about its listener: the facts of the first listener of that rule, if the source runs
      here and has one, whatever the verdict; a stream that serves has a bound address, one that is down
      has none, and only a stream whose source runs here names it. */
  lemma StreamTells(hub: Option<HubView>, agent: Agent, local: Option<NodeInfo>, rule: Rule)
    ensures var r := StreamOf(hub, agent, local, rule);
            && r.agent == agent.node && r.rule == rule && r.status == StatusOf(hub, agent, local, rule)
            && (r.source.Some? <==> local.Some?) && (local.Some? ==> r.source.value == local.value.id)
            && (r.status.Serving? ==> r.boundAddr.Some?) && (r.status.Down? ==> r.boundAddr.None?)
            && (match ListenerOf(local, rule)
                case Some(l) => l.rule == rule.name && r.boundAddr == l.boundAddr && r.lastError == l.lastError
                case None => r.boundAddr.None? && r.lastError.None?)
  {
  }

  /** The face shows the first reported service of its id. */
  predicate Dials(services: seq<LocalService>, i: nat, r: ServiceFace)
    requires i < |services|
  {
    && services[i].id == r.service.id && r.effective == Some(services[i].effective)
    && r.overridden == services[i].overridden
    && forall j | 0 <= j < i :: services[j].id != r.service.id
  }

  /** What a service face says: the address it is dialled at where the agent runs here and reports it, and
      whether that overrides the declared one; nothing where it does not. */
  lemma ServiceTells(agent: Agent, local: Option<NodeInfo>, service: Service)
    ensures var r := ServiceOf(agent, local, service);
            && (r.agent, r.workspace, r.service) == (agent.node, agent.workspace, service)
            && (r.source.Some? <==> local.Some?) && (local.Some? ==> r.source.value == local.value.id)
            && (if local.Some? && exists i | 0 <= i < |local.value.services| :: local.value.services[i].id == service.id
                then exists i | 0 <= i < |local.value.services| :: Dials(local.value.services, i, r)
                else r.effective.None? && !r.overridden)
  {
    if local.Some? && FindService(local.value.services, service.id).Some? {
      var here, services := FindService(local.value.services, service.id).value, local.value.services;
      var i :| 0 <= i < |services| && services[i] == here && forall j | 0 <= j < i :: services[j].id != service.id;
      assert Dials(services, i, ServiceOf(agent, local, service));
    }
  }

  /** The rows of a list of lists, in order. */
  function Flatten<T>(rows: seq<seq<T>>): seq<T> {
    if rows == [] then [] else Flatten(rows[..|rows| - 1]) + rows[|rows| - 1]
  }

  /** One stream per rule of the agent, in order. */
  function AgentStreams(hub: Option<HubView>, agent: Agent, local: Option<NodeInfo>): seq<Stream> {
    seq(|agent.rules|, j requires 0 <= j < |agent.rules| => StreamOf(hub, agent, local, agent.rules[j]))
  }

  /** One face per service of the agent, in order. */
  function AgentServices(agent: Agent, local: Option<NodeInfo>): seq<ServiceFace> {
    seq(|agent.services|, j requires 0 <= j < |agent.services| => ServiceOf(agent, local, agent.services[j]))
  }

  function AllStreams(hub: Option<HubView>, agents: seq<Agent>, locals: seq<Option<NodeInfo>>): seq<Stream>
    requires |agents| <= |locals|
  {
    Flatten(seq(|agents|, i requires 0 <= i < |agents| => AgentStreams(hub, agents[i], locals[i])))
  }

  function AllServices(agents: seq<Agent>, locals: seq<Option<NodeInfo>>): seq<ServiceFace>
    requires |agents| <= |locals|
  {
    Flatten(seq(|agents|, i requires 0 <= i < |agents| => AgentServices(agents[i], locals[i])))
  }

  /** The number of entries in the first `i` rows. */
  function Offset<T>(rows: seq<seq<T>>, i: nat): nat
    requires i <= |rows|
  {
    if i == 0 then 0 else Offset(rows, i - 1) + |rows[i - 1]|
  }

  /** Flattening lists every entry once, row by row and in order within a row. */
  lemma {:induction false} FlattenAt<T>(rows: seq<seq<T>>, i: nat, j: nat)
    requires i < |rows| && j < |rows[i]|
    ensures |Flatten(rows)| == Offset(rows, |rows|)
    ensures Offset(rows, i) + j < |Flatten(rows)| && Flatten(rows)[Offset(rows, i) + j] == rows[i][j]
  {
    FlattenLength(rows);
    var n := |rows| - 1;
    OffsetOf(rows, rows[..n], n);
    if i < n {
      FlattenAt(rows[..n], i, j);
      OffsetOf(rows, rows[..n], i);
    } else {
      FlattenLength(rows[..n]);
    }
  }

  lemma {:induction false} FlattenLength<T>(rows: seq<seq<T>>)
    ensures |Flatten(rows)| == Offset(rows, |rows|)
  {
    if rows != [] {
      var n := |rows| - 1;
      FlattenLength(rows[..n]);
      OffsetOf(rows, rows[..n], n);
    }
  }

  lemma {:induction false} OffsetOf<T>(rows: seq<seq<T>>, init: seq<seq<T>>, i: nat)
    requires i <= |init| <= |rows| && init == rows[..|init|]
    ensures Offset(init, i) == Offset(rows, i)
  {
    if i > 0 { OffsetOf(rows, init, i - 1); }
  }

  // ----- compose ----------------------------------------------------------------------------

  function DeclareAgents(agents: seq<Agent>): (r: seq<Decl>)
    ensures |r| == |agents| && forall i | 0 <= i < |agents| :: r[i] == AgentDecl(agents[i])
  {
    seq(|agents|, i requires 0 <= i < |agents| => AgentDecl(agents[i]))
  }

  function DeclareHubs(hubs: seq<string>): (r: seq<Decl>)
    ensures |r| == |hubs| && forall i | 0 <= i < |hubs| :: r[i] == HubDecl(hubs[i])
  {
    seq(|hubs|, i requires 0 <= i < |hubs| => HubDecl(hubs[i]))
  }

  function DeclareIngresses(ingresses: seq<string>): (r: seq<Decl>)
    ensures |r| == |ingresses| && forall i | 0 <= i < |ingresses| :: r[i] == IngressDecl(ingresses[i])
  {
    seq(|ingresses|, i requires 0 <= i < |ingresses| => IngressDecl(ingresses[i]))
  }

  /** The declarations in table order: agents, hubs, ingresses. */
  function Declared(agents: seq<Agent>, hubs: seq<string>, ingresses: seq<string>): seq<Decl> {
    DeclareAgents(agents) + DeclareHubs(hubs) + DeclareIngresses(ingresses)
  }

  function RowOf(d: Decl, local: Option<NodeInfo>, hub: Option<HubView>): Row {
    match d
    case AgentDecl(a) =>
      Row(if a.expose then ExposeAgent else MeshAgent, a.node, Some(a.workspace), local, Remote(hub, a))
    case HubDecl(name) => Row(Hub, name, None, local, None)
    case IngressDecl(name) => Row(Ingress, name, None, local, None)
  }

  /** What a row says: name, kind and workspace as declared, the node that was taken for it, and, for an agent
      only, the hub's row of its qualified id. */
  lemma RowTells(d: Decl, local: Option<NodeInfo>, hub: Option<HubView>)
    ensures var r := RowOf(d, local, hub);
            && r.local == local
            && (match d
                case AgentDecl(a) =>
                  && r.name == a.node && r.workspace == Some(a.workspace)
                  && r.kind == (if a.expose then ExposeAgent else MeshAgent)
                  && (r.remote.Some? ==>
                        && hub.Some? && r.remote.value in hub.value.agents
                        && r.remote.value.agent == a.workspace + "/" + a.node)
                  && (r.remote.None? && hub.Some? ==> forall i | 0 <= i < |hub.value.agents| ::
                        hub.value.agents[i].agent != a.workspace + "/" + a.node)
                case HubDecl(name) => (r.kind, r.name, r.workspace, r.remote) == (Hub, name, None, None)
                case IngressDecl(name) => (r.kind, r.name, r.workspace, r.remote) == (Ingress, name, None, None))
  {
  }

  lemma {:induction false} TakenAt(realm: string, d: Decl, nodes: seq<NodeInfo>, i: nat)
    requires i < |nodes| && Names(realm, d, nodes[i]) && forall k | 0 <= k < i :: !Names(realm, d, nodes[k])
    ensures First(realm, d, nodes) == Some(nodes[i]) && Without(realm, d, nodes) == nodes[..i] + nodes[i + 1..]
  {
    if i > 0 {
      TakenAt(realm, d, nodes[1..], i - 1);
      assert [nodes[0]] + (nodes[1..][..i - 1] + nodes[1..][i..]) == nodes[..i] + nodes[i + 1..];
    }
  }

  /** Finds the first node the declaration names and removes it. */
  method TakeLocal(realm: string, d: Decl, nodes: seq<NodeInfo>) returns (local: Option<NodeInfo>, left: seq<NodeInfo>)
    ensures local == First(realm, d, nodes) && left == Without(realm, d, nodes)
    ensures local.None? ==> left == nodes && forall k | 0 <= k < |nodes| :: !Names(realm, d, nodes[k])
    ensures local.Some? ==>
              exists i | 0 <= i < |nodes| ::
                && nodes[i] == local.value && Names(realm, d, nodes[i]) && left == nodes[..i] + nodes[i + 1..]
                && forall k | 0 <= k < i :: !Names(realm, d, nodes[k])
  {
    var i := 0;
    while i < |nodes| && !Names(realm, d, nodes[i])
      invariant 0 <= i <= |nodes|
      invariant forall k | 0 <= k < i :: !Names(realm, d, nodes[k])
    {
      i := i + 1;
    }
    if i < |nodes| {
      TakenAt(realm, d, nodes, i);
      local, left := Some(nodes[i]), nodes[..i] + nodes[i + 1..];
    } else {
      NoMatch(realm, d, nodes);
      local, left := None, nodes;
    }
  }

  ghost predicate Joined(realm: string, decls: seq<Decl>, hub: Option<HubView>, nodes: seq<NodeInfo>, n: nat,
                         rows: seq<Row>, locals: seq<Option<NodeInfo>>, left: seq<NodeInfo>)
    requires n <= |decls|
  {
    && locals == Greedy(realm, decls[..n], nodes).0
    && left == Greedy(realm, decls[..n], nodes).1
    && |rows| == n
    && forall i | 0 <= i < n :: rows[i] == RowOf(decls[i], locals[i], hub)
  }

  /** One declaration's turn: take its node, push its row. */
  method JoinOne(realm: string, ghost decls: seq<Decl>, hub: Option<HubView>, ghost nodes: seq<NodeInfo>, d: Decl,
                 rows: seq<Row>, locals: seq<Option<NodeInfo>>, left: seq<NodeInfo>)
      returns (rows': seq<Row>, locals': seq<Option<NodeInfo>>, left': seq<NodeInfo>)
    requires Joined(realm, decls, hub, nodes, |decls|, rows, locals, left)
    ensures Joined(realm, decls + [d], hub, nodes, |decls| + 1, rows', locals', left')
  {
    var local;
    local, left' := TakeLocal(realm, d, left);
    rows' := rows + [RowOf(d, local, hub)];
    locals' := locals + [local];
    assert (decls + [d])[..|decls|] == decls[..|decls|];
    assert (decls + [d])[..|decls| + 1] == decls + [d];
  }

  /** The loop over one of the three declared lists. */
  method JoinAll(realm: string, ghost done: seq<Decl>, more: seq<Decl>, hub: Option<HubView>,
      ghost nodes: seq<NodeInfo>,
                 rows0: seq<Row>, locals0: seq<Option<NodeInfo>>, left0: seq<NodeInfo>)
      returns (rows: seq<Row>, locals: seq<Option<NodeInfo>>, left: seq<NodeInfo>)
    requires Joined(realm, done, hub, nodes, |done|, rows0, locals0, left0)
    ensures Joined(realm, done + more, hub, nodes, |done + more|, rows, locals, left)
  {
    ghost var decls := done;
    rows, locals, left := rows0, locals0, left0;
    for i := 0 to |more|
      invariant decls == done + more[..i] && Joined(realm, decls, hub, nodes, |decls|, rows, locals, left)
    {
      rows, locals, left := JoinOne(realm, decls, hub, nodes, more[i], rows, locals, left);
      decls := decls + [more[i]];
    }
    assert decls == done + more;
  }

  /** What the greedy loop leaves is a partition. */
  lemma JoinedPartitions(realm: string, decls: seq<Decl>, hub: Option<HubView>, nodes: seq<NodeInfo>, rows: seq<Row>,
      locals: seq<Option<NodeInfo>>, left: seq<NodeInfo>)
    requires Joined(realm, decls, hub, nodes, |decls|, rows, locals, left)
    ensures |locals| == |decls| && multiset(nodes) == Matched(locals) + multiset(left) && Subsequence(left, nodes)
  {
    JoinPartitions(realm, decls[..|decls|], nodes);
  }

  /** With distinct names it is the declarative join. */
  lemma JoinedDeclaratively(realm: string, decls: seq<Decl>, hub: Option<HubView>, nodes: seq<NodeInfo>, rows: seq<Row>,
      locals: seq<Option<NodeInfo>>, left: seq<NodeInfo>)
    requires Joined(realm, decls, hub, nodes, |decls|, rows, locals, left) && DistinctDecls(decls)
        && DistinctNodes(nodes)
    ensures left == Others(realm, decls, nodes) && forall i | 0 <= i < |rows| ::
        rows[i].local == First(realm, decls[i], nodes)
  {
    assert decls[..|decls|] == decls;
    DistinctNamesSuffice(realm, decls, nodes);
    GreedyIsDeclarative(realm, decls, nodes);
  }

  method ComposeStreams(agents: seq<Agent>, locals: seq<Option<NodeInfo>>, hub: Option<HubView>)
      returns (streams: seq<Stream>)
    requires |agents| <= |locals|
    ensures streams == AllStreams(hub, agents, locals)
  {
    streams := [];
    ghost var rows: seq<seq<Stream>> := [];
    for i := 0 to |agents|
      invariant |rows| == i && (forall k | 0 <= k < i :: rows[k] == AgentStreams(hub, agents[k], locals[k]))
      invariant streams == Flatten(rows)
    {
      ghost var before, row := streams, AgentStreams(hub, agents[i], locals[i]);
      for j := 0 to |agents[i].rules|
        invariant streams == before + row[..j]
      {
        assert row[..j + 1] == row[..j] + [row[j]];
        streams := streams + [StreamOf(hub, agents[i], locals[i], agents[i].rules[j])];
      }
      assert row[..|row|] == row && (rows + [row])[..i] == rows;
      rows := rows + [row];
    }
    assert rows == seq(|agents|, i requires 0 <= i < |agents| => AgentStreams(hub, agents[i], locals[i]));
  }

  method ComposeServices(agents: seq<Agent>, locals: seq<Option<NodeInfo>>) returns (services: seq<ServiceFace>)
    requires |agents| <= |locals|
    ensures services == AllServices(agents, locals)
  {
    services := [];
    ghost var rows: seq<seq<ServiceFace>> := [];
    for i := 0 to |agents|
      invariant |rows| == i && (forall k | 0 <= k < i :: rows[k] == AgentServices(agents[k], locals[k]))
      invariant services == Flatten(rows)
    {
      ghost var before, row := services, AgentServices(agents[i], locals[i]);
      for j := 0 to |agents[i].services|
        invariant services == before + row[..j]
      {
        assert row[..j + 1] == row[..j] + [row[j]];
        services := services + [ServiceOf(agents[i], locals[i], agents[i].services[j])];
      }
      assert row[..|row|] == row && (rows + [row])[..i] == rows;
      rows := rows + [row];
    }
    assert rows == seq(|agents|, i requires 0 <= i < |agents| => AgentServices(agents[i], locals[i]));
  }

  /** The rows are those of the agents, then of the hubs, then of the ingresses, each in declared order. */
  predicate InTableOrder(agents: seq<Agent>, hubs: seq<string>, ingresses: seq<string>, rows: seq<Row>,
                         locals: seq<Option<NodeInfo>>) {
    var a, h := |agents|, |hubs|;
    && |rows| == |locals| == a + h + |ingresses|
    && (forall i | 0 <= i < |rows| :: rows[i].local == locals[i])
    && (forall i | 0 <= i < a :: rows[i].name == agents[i].node && rows[i].workspace == Some(agents[i].workspace))
    && (forall i | a <= i < a + h :: rows[i].kind.Hub? && rows[i].name == hubs[i - a])
    && (forall i | a + h <= i < |rows| :: rows[i].kind.Ingress? && rows[i].name == ingresses[i - a - h])
  }

  lemma RowsInOrder(agents: seq<Agent>, hubs: seq<string>, ingresses: seq<string>, hub: Option<HubView>,
                    rows: seq<Row>, locals: seq<Option<NodeInfo>>)
    requires var decls := Declared(agents, hubs, ingresses);
             && |locals| == |rows| == |decls|
             && forall i | 0 <= i < |rows| :: rows[i] == RowOf(decls[i], locals[i], hub)
    ensures InTableOrder(agents, hubs, ingresses, rows, locals)
  {
  }

  /** The whole view. With distinct declared names and distinct principals every row carries exactly
      the node its declaration names and the remainder is what nothing names; in any case no node is
      lost, none appears twice, and there is one stream per declared rule and one face per declared service. */
  method Compose(realm: string, agents: seq<Agent>, hubs: seq<string>, ingresses: seq<string>, hub: Option<HubView>,
      nodes: seq<NodeInfo>)
      returns (rows: seq<Row>, streams: seq<Stream>, services: seq<ServiceFace>, localOnly: seq<NodeInfo>,
          locals: seq<Option<NodeInfo>>)
    ensures var decls := Declared(agents, hubs, ingresses);
            && |locals| == |rows| == |decls| && (forall i | 0 <= i < |rows| ::
                rows[i] == RowOf(decls[i], locals[i], hub))
            && multiset(nodes) == Matched(locals) + multiset(localOnly) && Subsequence(localOnly, nodes)
            && (DistinctDecls(decls) && DistinctNodes(nodes) ==>
                  localOnly == Others(realm, decls, nodes) && forall i | 0 <= i < |rows| ::
                      rows[i].local == First(realm, decls[i], nodes))
    ensures InTableOrder(agents, hubs, ingresses, rows, locals)
    ensures |agents| <= |locals| && streams == AllStreams(hub, agents, locals)
        && services == AllServices(agents, locals)
  {
    rows, locals, localOnly := [], [], nodes;
    ghost var decls: seq<Decl> := [];
    rows, locals, localOnly := JoinAll(realm, decls, DeclareAgents(agents), hub, nodes, rows, locals, localOnly);
    decls := decls + DeclareAgents(agents);
    rows, locals, localOnly := JoinAll(realm, decls, DeclareHubs(hubs), hub, nodes, rows, locals, localOnly);
    decls := decls + DeclareHubs(hubs);
    rows, locals, localOnly := JoinAll(realm, decls, DeclareIngresses(ingresses), hub, nodes, rows, locals, localOnly);
    decls := decls + DeclareIngresses(ingresses);
    assert decls == Declared(agents, hubs, ingresses);
    JoinedPartitions(realm, decls, hub, nodes, rows, locals, localOnly);
    if DistinctDecls(decls) && DistinctNodes(nodes) {
      JoinedDeclaratively(realm, decls, hub, nodes, rows, locals, localOnly);
    }
    RowsInOrder(agents, hubs, ingresses, hub, rows, locals);
    streams := ComposeStreams(agents, locals, hub);
    services := ComposeServices(agents, locals);
  }
}
