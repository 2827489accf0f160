/** Publishing a manifest: converging the local fleet onto the rendered packs. */
module Publish {
  import opened Types
  import opened Sites
  import opened Identity
  import opened Manager

  datatype ChangeState = NeverApplied | PolicyEditsPending | IdentityEditsPending | Applied

  /** A managed node as listed for the publish; `inScope` when its pack renders into this deployment. */
  datatype Info = Info(id: NodeId, name: string, principal: Option<string>, inScope: bool)

  datatype Verdict = Hot | Replaced | Failure(reason: string) | Skipped

  /** What happens around one node's turn: what others do before it, between its look and its update, and
      wherever the update holds no lock; whether the chosen pack still loads; the update's weather. */
  datatype Chance = Chance(before: seq<SiteStep>, between: seq<SiteStep>, others: nat -> seq<SiteStep>, loads: bool,
      weather: Weather)

  predicate Matches(pack: Pack, info: Info) {
    pack.principal == if info.principal.Some? then info.principal.value else ""
  }

  /** No pack of the identity is newer, and none that comes later is as new. */
  predicate NoneNewer(packs: seq<Pack>, info: Info, i: nat)
    requires i < |packs|
  {
    forall j | 0 <= j < |packs| && Matches(packs[j], info) ::
      if j <= i then packs[j].generation <= packs[i].generation else packs[j].generation < packs[i].generation
  }

  /** The newest pack of the node's identity; the last of several equally new ones. */
  function Newest(packs: seq<Pack>, info: Info): (r: Option<Pack>)
    ensures r.None? <==> forall i | 0 <= i < |packs| :: !Matches(packs[i], info)
    ensures r.Some? ==> r.value in packs && Matches(r.value, info)
    ensures r.Some? ==> r.value.principal == if info.principal.Some? then info.principal.value else ""
    ensures r.Some? ==> exists i | 0 <= i < |packs| :: packs[i] == r.value && NoneNewer(packs, info, i)
  {
    if packs == [] then None
    else
      var rest, last := Newest(packs[..|packs| - 1], info), packs[|packs| - 1];
      if Matches(last, info) && (rest.None? || rest.value.generation <= last.generation) then
        assert packs[|packs| - 1] == last && NoneNewer(packs, info, |packs| - 1);
        Some(last)
      else
        assert rest.Some? ==> exists i | 0 <= i < |packs| :: packs[i] == rest.value && NoneNewer(packs, info, i) by {
          if rest.Some? {
            var i :| 0 <= i < |packs| - 1 && packs[..|packs| - 1][i] == rest.value
                && NoneNewer(packs[..|packs| - 1], info, i);
            StillNewest(packs, info, i);
          }
        }
        rest
  }

  lemma StillNewest(packs: seq<Pack>, info: Info, i: nat)
    requires i < |packs| - 1 && NoneNewer(packs[..|packs| - 1], info, i)
    requires Matches(packs[|packs| - 1], info) ==> packs[|packs| - 1].generation < packs[i].generation
    ensures NoneNewer(packs, info, i)
  {
    forall j | 0 <= j < |packs| && Matches(packs[j], info)
      ensures if j <= i then packs[j].generation <= packs[i].generation else packs[j].generation < packs[i].generation
    {
      if j < |packs| - 1 { assert packs[..|packs| - 1][j] == packs[j]; }
    }
  }

  function VerdictOf(r: UpdateResult): Verdict {
    match r
    case Updated(_, _, _) => Replaced
    case Refused(reason) => Failure(reason)
    case Broken(reason) => Failure(reason)
  }

  // ----- turns within a run -----------------------------------------------------------------

  /** A node's turn, as positions in the run: where the publish looked at the node, and where its update,
      if any, began and ended. */
  datatype Turn = Turn(look: nat, begun: nat, end: nat, u: nat, verdict: Verdict)

  function SiteAt(site: Site, trace: seq<SiteStep>, n: nat): Site
    requires n <= |trace|
  {
    RunSites(site, trace[..n])
  }

  /** An update of the node with this pack ran from its snapshot to its end. */
  ghost predicate RanUpdate(site: Site, trace: seq<SiteStep>, id: NodeId, dist: Pack, k: Turn)
    requires k.look <= k.begun <= k.end <= |trace|
  {
    && k.begun < k.end && trace[k.begun] == Snap(id)
    && k.u == |SiteAt(site, trace, k.begun).updaters| < |SiteAt(site, trace, k.end).updaters|
    && var done := SiteAt(site, trace, k.end).updaters[k.u];
       && done.id == id && done.progress.Finished? && k.verdict == VerdictOf(done.progress.result)
       && (k.verdict.Replaced? ==> done.source == Some(dist))
  }

  /** The turn a node takes: no pack of its identity or no longer managed, the newest pack's digest
      already cached, or an update with that pack. */
  ghost predicate Took(site: Site, trace: seq<SiteStep>, info: Info, packs: seq<Pack>, k: Turn) {
    && k.look <= k.begun <= k.end <= |trace|
    && var dist, nodes := Newest(packs, info), SiteAt(site, trace, k.look).world.nodes;
       if dist.None? || info.id !in nodes then k.verdict.Skipped?
       else if nodes[info.id].spec.digest == dist.value.digest then k.verdict.Hot?
       else RanUpdate(site, trace, info.id, dist.value, k)
  }

  /** The publish has something to say about the node: a pack of its identity was rendered, and the node was
      managed when the publish looked. */
  ghost predicate Concerned(site: Site, trace: seq<SiteStep>, info: Info, packs: seq<Pack>, k: Turn)
    requires k.look <= |trace|
  {
    && (exists i | 0 <= i < |packs| :: packs[i].principal == if info.principal.Some? then info.principal.value else "")
    && info.id in SiteAt(site, trace, k.look).world.nodes
  }

  /** The report the update of a turn ended with. */
  function ReportOf(site: Site, trace: seq<SiteStep>, k: Turn): UpdateResult
    requires k.end <= |trace| && k.u < |SiteAt(site, trace, k.end).updaters|
        && SiteAt(site, trace, k.end).updaters[k.u].progress.Finished?
  {
    SiteAt(site, trace, k.end).updaters[k.u].progress.result
  }

  /** How the turns are classified. A node the publish is not concerned with is skipped. Of the others, one
      whose cache has the digest of the newest pack of its identity is hot, and nothing is done; any
      other was updated, and is listed as updated exactly when its update reports so, and as failed, with
      the reason its update gave, exactly when it was refused or broke off. */
  lemma Classified(site: Site, trace: seq<SiteStep>, info: Info, packs: seq<Pack>, k: Turn)
    requires Took(site, trace, info, packs, k)
    ensures k.verdict.Skipped? <==> !Concerned(site, trace, info, packs, k)
    ensures Concerned(site, trace, info, packs, k) ==>
              && Newest(packs, info).Some?
              && var hot := SiteAt(site, trace, k.look).world.nodes[info.id].spec.digest ==
                     Newest(packs, info).value.digest;
                 && (k.verdict.Hot? <==> hot)
                 && (!hot ==>
                       && RanUpdate(site, trace, info.id, Newest(packs, info).value, k)
                       && var report := ReportOf(site, trace, k);
                          && (k.verdict.Replaced? <==> report.Updated?)
                          && (k.verdict.Failure? <==> report.Refused? || report.Broken?)
                          && (k.verdict.Failure? ==> k.verdict.reason == report.reason))
  {
    if forall i | 0 <= i < |packs| :: !Matches(packs[i], info) {
    } else {
      var i :| 0 <= i < |packs| && Matches(packs[i], info);
      assert packs[i].principal == if info.principal.Some? then info.principal.value else "";
    }
  }

  lemma TookStill(site: Site, trace: seq<SiteStep>, trace': seq<SiteStep>, info: Info, packs: seq<Pack>, k: Turn)
    requires Took(site, trace, info, packs, k) && trace <= trace'
    ensures Took(site, trace', info, packs, k)
  {
    assert trace'[..k.look] == trace[..k.look] && trace'[..k.begun] == trace[..k.begun]
        && trace'[..k.end] == trace[..k.end];
  }

  /** The names, in order, of the nodes with the given verdict. */
  function Named(owned: seq<Info>, turns: seq<Turn>, verdict: Verdict): seq<string>
    requires |owned| == |turns|
  {
    if owned == [] then []
    else
      var n := |owned| - 1;
      Named(owned[..n], turns[..n], verdict) + if turns[n].verdict == verdict then [owned[n].name] else []
  }

  /** The names and reasons, in order, of the nodes that failed. */
  function Failures(owned: seq<Info>, turns: seq<Turn>): seq<(string, string)>
    requires |owned| == |turns|
  {
    if owned == [] then []
    else
      var n := |owned| - 1;
      Failures(owned[..n], turns[..n]) + if turns[n].verdict.Failure? then [(owned[n].name, turns[n].verdict.reason)]
          else []
  }

  /** The names of the nodes the publish is concerned with. */
  ghost function NamesConcerned(site: Site, trace: seq<SiteStep>, owned: seq<Info>, packs: seq<Pack>,
                                turns: seq<Turn>): multiset<string>
    requires |owned| == |turns| && forall i | 0 <= i < |turns| :: turns[i].look <= |trace|
  {
    if owned == [] then multiset{}
    else
      var n := |owned| - 1;
      NamesConcerned(site, trace, owned[..n], packs, turns[..n]) +
      if Concerned(site, trace, owned[n], packs, turns[n]) then multiset{owned[n].name} else multiset{}
  }

  function FailedNames(failed: seq<(string, string)>): (r: seq<string>)
    ensures |r| == |failed| && forall i | 0 <= i < |failed| :: r[i] == failed[i].0
  {
    seq(|failed|, i requires 0 <= i < |failed| => failed[i].0)
  }

  /** The report is complete and lists nobody twice: the three lists together name exactly the nodes the
      publish is concerned with, each as often as it is owned. */
  lemma {:induction false} ReportComplete(site: Site, trace: seq<SiteStep>, owned: seq<Info>, packs: seq<Pack>,
                                          turns: seq<Turn>)
    requires TookAll(site, trace, owned, packs, turns)
    ensures multiset(Named(owned, turns, Hot)) + multiset(Named(owned, turns, Replaced))
                + multiset(FailedNames(Failures(owned, turns))) == NamesConcerned(site, trace, owned, packs, turns)
  {
    if owned != [] {
      var n := |owned| - 1;
      assert TookAll(site, trace, owned[..n], packs, turns[..n]);
      ReportComplete(site, trace, owned[..n], packs, turns[..n]);
      Classified(site, trace, owned[n], packs, turns[n]);
      FailedNext(owned, turns);
    }
  }

  predicate DistinctNames(owned: seq<Info>) {
    forall i, j | 0 <= i < j < |owned| :: owned[i].name != owned[j].name
  }

  /** How often the name is in the three lists together. */
  function Listings(name: string, hot: seq<string>, updated: seq<string>, failed: seq<string>): nat {
    multiset(hot)[name] + multiset(updated)[name] + multiset(failed)[name]
  }

  function ListingsOf(owned: seq<Info>, turns: seq<Turn>, name: string): nat
    requires |owned| == |turns|
  {
    Listings(name, Named(owned, turns, Hot), Named(owned, turns, Replaced), FailedNames(Failures(owned, turns)))
  }

  lemma CountNext(s: seq<string>, more: seq<string>, name: string)
    ensures multiset(s + more)[name] == multiset(s)[name] + multiset(more)[name]
  {
  }

  lemma ListingsNext(owned: seq<Info>, turns: seq<Turn>, name: string)
    requires |owned| == |turns| > 0
    ensures var n := |owned| - 1;
            ListingsOf(owned, turns, name) == ListingsOf(owned[..n], turns[..n], name) +
              if owned[n].name == name && !turns[n].verdict.Skipped? then 1 else 0
  {
    var n := |owned| - 1;
    var one := [owned[n].name];
    FailedNext(owned, turns);
    CountNext(Named(owned[..n], turns[..n], Hot), if turns[n].verdict == Hot then one else [], name);
    CountNext(Named(owned[..n], turns[..n], Replaced), if turns[n].verdict == Replaced then one else [], name);
    CountNext(FailedNames(Failures(owned[..n], turns[..n])), if turns[n].verdict.Failure? then one else [], name);
  }

  /** A node of this name was not skipped. */
  predicate Listed(owned: seq<Info>, turns: seq<Turn>, name: string)
    requires |owned| == |turns|
  {
    exists i | 0 <= i < |owned| :: owned[i].name == name && !turns[i].verdict.Skipped?
  }

  lemma ListedNext(owned: seq<Info>, turns: seq<Turn>, name: string)
    requires |owned| == |turns| > 0
    ensures var n := |owned| - 1;
            Listed(owned, turns, name) <==>
              Listed(owned[..n], turns[..n], name) || (owned[n].name == name && !turns[n].verdict.Skipped?)
  {
    var n := |owned| - 1;
    if Listed(owned[..n], turns[..n], name) {
      var i :| 0 <= i < n && owned[..n][i].name == name && !turns[..n][i].verdict.Skipped?;
      assert owned[i].name == name && !turns[i].verdict.Skipped?;
    }
    if Listed(owned, turns, name) {
      var i :| 0 <= i < |owned| && owned[i].name == name && !turns[i].verdict.Skipped?;
      if i < n { assert owned[..n][i].name == name && !turns[..n][i].verdict.Skipped?; }
    }
  }

  /** A node that is not skipped is listed once, if no other has its name. */
  lemma {:induction false} OnceNamed(owned: seq<Info>, turns: seq<Turn>, name: string)
    requires |owned| == |turns| && DistinctNames(owned)
    ensures ListingsOf(owned, turns, name) == if Listed(owned, turns, name) then 1 else 0
  {
    if owned != [] {
      var n := |owned| - 1;
      OnceNamed(owned[..n], turns[..n], name);
      ListingsNext(owned, turns, name);
      ListedNext(owned, turns, name);
    }
  }

  /** When names are distinct, a node the publish is concerned with is in exactly one of the lists. */
  lemma ListedOnce(site: Site, trace: seq<SiteStep>, owned: seq<Info>, packs: seq<Pack>, turns: seq<Turn>, i: nat)
    requires TookAll(site, trace, owned, packs, turns) && DistinctNames(owned) && i < |owned|
    ensures Concerned(site, trace, owned[i], packs, turns[i]) ==>
              ListingsOf(owned, turns, owned[i].name) == 1
  {
    Classified(site, trace, owned[i], packs, turns[i]);
    OnceNamed(owned, turns, owned[i].name);
    if !turns[i].verdict.Skipped? { assert Listed(owned, turns, owned[i].name); }
  }

  lemma FailedNext(owned: seq<Info>, turns: seq<Turn>)
    requires |owned| == |turns| > 0
    ensures var n := |owned| - 1;
            FailedNames(Failures(owned, turns)) == FailedNames(Failures(owned[..n], turns[..n])) +
              if turns[n].verdict.Failure? then [owned[n].name] else []
  {
  }

  /** Every listed node took its turn. */
  ghost predicate TookAll(site: Site, trace: seq<SiteStep>, owned: seq<Info>, packs: seq<Pack>, turns: seq<Turn>) {
    |turns| == |owned| && forall i | 0 <= i < |owned| :: Took(site, trace, owned[i], packs, turns[i])
  }

  lemma AllTook(site: Site, trace: seq<SiteStep>, trace': seq<SiteStep>, owned: seq<Info>, packs: seq<Pack>,
      turns: seq<Turn>, k: Turn)
    requires |turns| < |owned| && TookAll(site, trace, owned[..|turns|], packs, turns) && trace <= trace'
    requires Took(site, trace', owned[|turns|], packs, k)
    ensures TookAll(site, trace', owned[..|turns| + 1], packs, turns + [k])
  {
    var n := |turns|;
    forall i | 0 <= i < n
      ensures Took(site, trace', owned[i], packs, turns[i])
    {
      assert owned[..n][i] == owned[i];
      TookStill(site, trace, trace', owned[i], packs, turns[i]);
    }
  }

  lemma NamedNext(owned: seq<Info>, turns: seq<Turn>, k: Turn, v: Verdict)
    requires |turns| < |owned|
    ensures var n := |turns|;
            Named(owned[..n + 1], turns + [k], v) ==
              Named(owned[..n], turns, v) + if k.verdict == v then [owned[n].name] else []
  {
    var n := |turns|;
    assert owned[..n + 1][..n] == owned[..n] && (turns + [k])[..n] == turns;
  }

  lemma FailuresNext(owned: seq<Info>, turns: seq<Turn>, k: Turn)
    requires |turns| < |owned|
    ensures var n := |turns|;
            Failures(owned[..n + 1], turns + [k]) ==
              Failures(owned[..n], turns) + if k.verdict.Failure? then [(owned[n].name, k.verdict.reason)] else []
  {
    var n := |turns|;
    assert owned[..n + 1][..n] == owned[..n] && (turns + [k])[..n] == turns;
  }

  function Owned(infos: seq<Info>): seq<Info> {
    if infos == [] then []
    else Owned(infos[..|infos| - 1]) + if infos[|infos| - 1].inScope then [infos[|infos| - 1]] else []
  }

  /** Exactly the nodes in scope, each as often as it is listed. */
  lemma {:induction false} OwnedIsInScope(infos: seq<Info>, info: Info)
    ensures multiset(Owned(infos))[info] == if info.inScope then multiset(infos)[info] else 0
  {
    if infos != [] {
      var n := |infos| - 1;
      OwnedIsInScope(infos[..n], info);
      assert infos == infos[..n] + [infos[n]];
    }
  }

  method CollectOwned(infos: seq<Info>) returns (owned: seq<Info>)
    ensures owned == Owned(infos)
  {
    owned := [];
    for i := 0 to |infos|
      invariant owned == Owned(infos[..i])
    {
      assert infos[..i + 1][..i] == infos[..i];
      if infos[i].inScope { owned := owned + [infos[i]]; }
    }
    assert infos[..|infos|] == infos;
  }

  /** Others run while the publish holds nothing. */
  method Wait(m: NodeManager, steps: seq<SiteStep>, ghost site: Site, ghost done: seq<SiteStep>)
      returns (ghost trace: seq<SiteStep>)
    requires Goes(site, done, m.Here())
    modifies m
    ensures trace == done + steps && Goes(site, trace, m.Here())
  {
    ghost var mid := m.Here();
    SiteInvRun(mid, steps);
    m.Elsewhere(steps);
    GoesOn(site, done, mid, steps, m.Here());
    trace := done + steps;
  }

  /** The update of one node's turn. */
  method Replace(m: NodeManager, id: NodeId, dist: Pack, chance: Chance, ghost site: Site, ghost done: seq<SiteStep>,
      ghost look: nat)
      returns (verdict: Verdict, ghost trace: seq<SiteStep>, ghost k: Turn)
    requires Goes(site, done, m.Here()) && look <= |done|
    modifies m
    ensures done <= trace && Goes(site, trace, m.Here()) && k.look == look <= k.begun <= k.end <= |trace|
    ensures RanUpdate(site, trace, id, dist, k) && verdict == k.verdict
  {
    trace := Wait(m, chance.between, site, done);
    ghost var mid, begun, u := m.Here(), |trace|, |m.updaters|;
    var r;
    ghost var more;
    r, more := m.UpdatePack(id, if chance.loads then Some(dist) else None, chance.weather, chance.others);
    verdict := VerdictOf(r);
    GoesOn(site, trace, mid, [Snap(id)] + more, m.Here());
    trace := trace + ([Snap(id)] + more);
    k := Turn(look, begun, |trace|, u, verdict);
    assert trace[..|trace|] == trace && trace[..begun] == done + chance.between;
  }

  method TakeTurn(m: NodeManager, info: Info, packs: seq<Pack>, chance: Chance, ghost site: Site,
      ghost done: seq<SiteStep>)
      returns (verdict: Verdict, ghost trace: seq<SiteStep>, ghost k: Turn)
    requires Goes(site, done, m.Here())
    modifies m
    ensures done <= trace && Goes(site, trace, m.Here())
    ensures Took(site, trace, info, packs, k) && verdict == k.verdict
  {
    trace := Wait(m, chance.before, site, done);
    ghost var look := |trace|;
    assert trace[..look] == trace;
    var dist := Newest(packs, info);
    if dist.None? || info.id !in m.nodes {
      verdict := Skipped;
      k := Turn(look, look, look, 0, Skipped);
    } else if m.nodes[info.id].spec.digest == dist.value.digest {
      verdict := Hot;
      k := Turn(look, look, look, 0, Hot);
    } else {
      ghost var seen := trace;
      verdict, trace, k := Replace(m, info.id, dist.value, chance, site, trace, look);
      assert trace[..look] == seen;
    }
  }

  /** The convergence loop of a full render, with steps of others between and within the turns. */
  method ConvergeAll(m: NodeManager, owned: seq<Info>, packs: seq<Pack>, chances: nat -> Chance)
      returns (hot: seq<string>, updated: seq<string>, failed: seq<(string, string)>, ghost trace: seq<SiteStep>,
          ghost turns: seq<Turn>)
    requires SiteInv(m.Here())
    modifies m
    ensures Goes(old(m.Here()), trace, m.Here()) && TookAll(old(m.Here()), trace, owned, packs, turns)
    ensures hot == Named(owned, turns, Hot) && updated == Named(owned, turns, Replaced)
        && failed == Failures(owned, turns)
    ensures multiset(hot) + multiset(updated) + multiset(FailedNames(failed)) ==
              NamesConcerned(old(m.Here()), trace, owned, packs, turns)
    ensures |hot| + |updated| + |failed| == |NamesConcerned(old(m.Here()), trace, owned, packs, turns)|
    ensures DistinctNames(owned) ==> forall i | 0 <= i < |owned| ::
              Concerned(old(m.Here()), trace, owned[i], packs, turns[i]) ==>
                Listings(owned[i].name, hot, updated, FailedNames(failed)) == 1
  {
    hot, updated, failed := [], [], [];
    trace, turns := [], [];
    ghost var site := m.Here();
    for i := 0 to |owned|
      invariant Goes(site, trace, m.Here())
      invariant TookAll(site, trace, owned[..i], packs, turns)
      invariant hot == Named(owned[..i], turns, Hot) && updated == Named(owned[..i], turns, Replaced)
      invariant failed == Failures(owned[..i], turns)
    {
      ghost var before := trace;
      var verdict;
      ghost var k;
      verdict, trace, k := TakeTurn(m, owned[i], packs, chances(i), site, trace);
      AllTook(site, before, trace, owned, packs, turns, k);
      NamedNext(owned, turns, k, Hot);
      NamedNext(owned, turns, k, Replaced);
      FailuresNext(owned, turns, k);
      turns := turns + [k];
      match verdict
      case Hot => hot := hot + [owned[i].name];
      case Replaced => updated := updated + [owned[i].name];
      case Failure(reason) => failed := failed + [(owned[i].name, reason)];
      case Skipped =>
    }
    assert owned[..|owned|] == owned;
    ReportComplete(site, trace, owned, packs, turns);
    if DistinctNames(owned) {
      forall i | 0 <= i < |owned|
        ensures Concerned(site, trace, owned[i], packs, turns[i]) ==>
                  Listings(owned[i].name, hot, updated, FailedNames(failed)) == 1
      {
        ListedOnce(site, trace, owned, packs, turns, i);
      }
    }
  }

  method Converged(m: NodeManager, kind: ChangeState, infos: seq<Info>, packs: seq<Pack>, chances: nat -> Chance)
      returns (hot: seq<string>, updated: seq<string>, failed: seq<(string, string)>, ghost trace: seq<SiteStep>,
          ghost turns: seq<Turn>)
    requires SiteInv(m.Here())
    modifies m
    ensures kind.Applied? ==> m.Here() == old(m.Here()) && hot == updated == [] && failed == []
    ensures kind.PolicyEditsPending? ==>
              m.Here() == old(m.Here()) && |hot| == |Owned(infos)| && updated == [] && failed == []
    ensures kind.PolicyEditsPending? ==> forall i | 0 <= i < |hot| :: hot[i] == Owned(infos)[i].name
    ensures kind.NeverApplied? || kind.IdentityEditsPending? ==>
              && Goes(old(m.Here()), trace, m.Here()) && TookAll(old(m.Here()), trace, Owned(infos), packs, turns)
              && hot == Named(Owned(infos), turns, Hot)
              && updated == Named(Owned(infos), turns, Replaced)
              && failed == Failures(Owned(infos), turns)
              && multiset(hot) + multiset(updated) + multiset(FailedNames(failed)) ==
                   NamesConcerned(old(m.Here()), trace, Owned(infos), packs, turns)
  {
    hot, updated, failed, trace, turns := [], [], [], [], [];
    var owned := CollectOwned(infos);
    match kind
    case PolicyEditsPending =>
      for i := 0 to |owned|
        invariant |hot| == i && forall j | 0 <= j < i :: hot[j] == owned[j].name
      {
        hot := hot + [owned[i].name];
      }
    case NeverApplied => hot, updated, failed, trace, turns := ConvergeAll(m, owned, packs, chances);
    case IdentityEditsPending => hot, updated, failed, trace, turns := ConvergeAll(m, owned, packs, chances);
    case Applied =>
  }
}
