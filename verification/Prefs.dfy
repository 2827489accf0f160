/** The preferences store: three domains in one database, and the one-time import of what came before. */
module Prefs {
  import opened Types

  /** The shape of the database this build understands. */
  const SHAPE: nat := 1

  /** A path as written: below the home directory, absolute, empty, or relative. */
  datatype Path = Home(rest: string) | Absolute(text: string) | Empty | Relative(text: string)

  /** Relative paths are anchored to the database's directory; a leading tilde is the home directory. */
  function Anchor(base: string, home: string, p: Path): Path {
    match p
    case Home(rest) => Absolute(home + rest)
    case Relative(text) => Absolute(base + "/" + text)
    case _ => p
  }

  datatype NodeEntry = NodeEntry(id: NodeId, packDir: Path, transport: Option<Transport>, quicAddr: Option<string>,
                                 addresses: seq<(string, string)>, desiredRunning: bool)

  /** A stored row; the transport is text, and so are the addresses: None for text that does not decode. */
  datatype NodeRow = NodeRow(id: NodeId, packDir: Path, transport: Option<string>, quicAddr: Option<string>,
                             addresses: Option<seq<(string, string)>>, desiredRunning: bool)

  datatype Context = Context(manifest: string, issuer: string, out: string)

  datatype Lang = En | Zh

  datatype GuiPrefs = GuiPrefs(language: Lang, currentDeployment: Option<string>)

  /** A legacy file: absent, present and malformed, or present and readable. */
  datatype Legacy<T> = Absent | Garbled | Readable(content: T)

  datatype Store = Store(version: nat, nodes: seq<NodeRow>, deploy: seq<Context>, gui: map<string, string>,
                         profileFile: Legacy<seq<NodeEntry>>, deployFile: Legacy<seq<Context>>,
                             guiFile: Legacy<GuiPrefs>)

  // ----- rows -------------------------------------------------------------------------------

  function TransportText(t: Transport): string {
    match t
    case H2 => "h2"
    case Quic => "quic"
  }

  function ToRow(e: NodeEntry): NodeRow {
    var transport := if e.transport.Some? then Some(TransportText(e.transport.value)) else None;
    NodeRow(e.id, e.packDir, transport, e.quicAddr, Some(e.addresses), e.desiredRunning)
  }

  /** A row reads back unless its addresses do not decode or its transport is unknown. */
  function FromRow(base: string, home: string, r: NodeRow): Option<NodeEntry> {
    if r.addresses.None? || (r.transport.Some? && r.transport.value != "h2" && r.transport.value != "quic") then None
    else
      var transport := if r.transport.None? then None else if r.transport.value == "h2" then Some(H2) else Some(Quic);
      Some(NodeEntry(r.id, Anchor(base, home, r.packDir), transport, r.quicAddr, r.addresses.value, r.desiredRunning))
  }

  function AnchorEntry(base: string, home: string, e: NodeEntry): NodeEntry {
    e.(packDir := Anchor(base, home, e.packDir))
  }

  function AnchorAll(base: string, home: string, es: seq<NodeEntry>): (r: seq<NodeEntry>)
    ensures |r| == |es| && forall i | 0 <= i < |es| :: r[i] == AnchorEntry(base, home, es[i])
  {
    seq(|es|, i requires 0 <= i < |es| => AnchorEntry(base, home, es[i]))
  }

  function Rows(es: seq<NodeEntry>): (r: seq<NodeRow>)
    ensures |r| == |es| && forall i | 0 <= i < |es| :: r[i] == ToRow(es[i])
  {
    seq(|es|, i requires 0 <= i < |es| => ToRow(es[i]))
  }

  predicate Distinct(es: seq<NodeEntry>) {
    forall i, j | 0 <= i < j < |es| :: es[i].id != es[j].id
  }

  function LanguageText(l: Lang): string {
    match l
    case En => "en"
    case Zh => "zh"
  }

  /** Per-key upsert; clearing the current deployment deletes its key. */
  function UpsertGui(gui: map<string, string>, p: GuiPrefs): map<string, string> {
    var g := gui["language" := LanguageText(p.language)];
    match p.currentDeployment
    case Some(d) => g["current_deployment" := d]
    case None => g - {"current_deployment"}
  }

  function ReadGui(gui: map<string, string>): GuiPrefs {
    GuiPrefs(if "language" in gui && gui["language"] == "zh" then Zh else En,
             if "current_deployment" in gui then Some(gui["current_deployment"]) else None)
  }

  // ----- what each operation does to the store ----------------------------------------------

  function StoreNodes(s: Store, es: seq<NodeEntry>): Store {
    if Distinct(es) then s.(nodes := Rows(es)) else s
  }

  /** Which of the renames to `.migrated`, and the commit after them, would succeed. */
  datatype Renames = Renames(profile: bool, deploy: bool, gui: bool, commit: bool)

  /** The files after an import got as far as it could. */
  function MovedFiles(s: Store, r: Renames): Store {
    var profileStops := s.profileFile.Readable? && (!Distinct(s.profileFile.content) || !r.profile);
    var s1 := if s.profileFile.Readable? && !profileStops then s.(profileFile := Absent) else s;
    if profileStops then s1
    else if s.deployFile.Absent? || r.deploy then
      var s2 := s1.(deployFile := Absent);
      if s.guiFile.Absent? || r.gui then s2.(guiFile := Absent) else s2
    else s1
  }

  /** Does the import go through? */
  predicate ImportSucceeds(s: Store, r: Renames) {
    && (s.profileFile.Readable? ==> Distinct(s.profileFile.content) && r.profile)
    && (!s.deployFile.Absent? ==> r.deploy)
    && (!s.guiFile.Absent? ==> r.gui)
    && r.commit
  }

  /** The import fills the fresh tables; when it fails the tables are rolled back and the renames stay. */
  function Opened(s: Store, base: string, home: string, r: Renames): (Store, bool) {
    if s.version > SHAPE then (s, false)
    else if s.version == SHAPE then (s, true)
    else if !ImportSucceeds(s, r) then (MovedFiles(s, r), false)
    else
      (MovedFiles(s, r).(
         version := SHAPE,
         nodes := if s.profileFile.Readable? then Rows(AnchorAll(base, home, s.profileFile.content)) else [],
         deploy := if s.deployFile.Readable? then s.deployFile.content else [],
         gui := if s.guiFile.Readable? then UpsertGui(map[], s.guiFile.content) else map[]),
       true)
  }

  // ----- the database -----------------------------------------------------------------------

  class PrefsDb {
    var version: nat
    var nodes: seq<NodeRow>
    var deploy: seq<Context>
    var gui: map<string, string>
    var profileFile: Legacy<seq<NodeEntry>>
    var deployFile: Legacy<seq<Context>>
    var guiFile: Legacy<GuiPrefs>
    const base: string
    const home: string

    function View(): Store
      reads this
    {
      Store(version, nodes, deploy, gui, profileFile, deployFile, guiFile)
    }

    /** Inserts the entries one by one; a second row of an id violates the unique key. */
    static method InsertNodes(es: seq<NodeEntry>) returns (rows: Option<seq<NodeRow>>)
      ensures rows == if Distinct(es) then Some(Rows(es)) else None
    {
      var table: seq<NodeRow> := [];
      var ids: set<NodeId> := {};
      for i := 0 to |es|
        invariant |table| == i && forall j | 0 <= j < i :: table[j] == ToRow(es[j])
        invariant forall j | 0 <= j < i :: es[j].id in ids
        invariant forall id | id in ids :: exists j | 0 <= j < i :: es[j].id == id
        invariant forall j, k | 0 <= j < k < i :: es[j].id != es[k].id
      {
        if es[i].id in ids { return None; }
        table := table + [ToRow(es[i])];
        ids := ids + {es[i].id};
      }
      assert table == Rows(es);
      rows := Some(table);
    }

    /** One transaction: all the rows are replaced, or none. */
    method SaveNodes(es: seq<NodeEntry>) returns (ok: bool)
      modifies this`nodes
      ensures View() == StoreNodes(old(View()), es)
      ensures ok <==> Distinct(es)
    {
      var rows := InsertNodes(es);
      if rows.None? { return false; }
      nodes := rows.value;
      ok := true;
    }

    method SaveDeploy(contexts: seq<Context>)
      modifies this`deploy
      ensures View() == old(View()).(deploy := contexts)
    {
      var table: seq<Context> := [];
      for i := 0 to |contexts|
        invariant table == contexts[..i]
      {
        table := table + [contexts[i]];
      }
      deploy := table;
    }

    method SaveGui(p: GuiPrefs)
      modifies this`gui
      ensures View() == old(View()).(gui := UpsertGui(old(gui), p))
    {
      var table := gui["language" := LanguageText(p.language)];
      match p.currentDeployment
      case Some(d) => gui := table["current_deployment" := d];
      case None => gui := table - {"current_deployment"};
    }

    /** Reads the node list in order; an unreadable row fails the whole read. */
    method Nodes() returns (r: Option<seq<NodeEntry>>)
      ensures r.Some? <==> forall i | 0 <= i < |nodes| :: FromRow(base, home, nodes[i]).Some?
      ensures r.Some? ==> |r.value| == |nodes| && forall i | 0 <= i < |nodes| ::
          Some(r.value[i]) == FromRow(base, home, nodes[i])
    {
      var es: seq<NodeEntry> := [];
      for i := 0 to |nodes|
        invariant |es| == i && forall j | 0 <= j < i :: Some(es[j]) == FromRow(base, home, nodes[j])
      {
        var e := FromRow(base, home, nodes[i]);
        if e.None? { return None; }
        es := es + [e.value];
      }
      r := Some(es);
    }

    /** Opens the database: refuses a newer shape, leaves the current one alone, and otherwise creates
        the tables and imports the legacy files within one transaction. */
    method Open(r: Renames) returns (ok: bool)
      modifies this
      ensures (View(), ok) == Opened(old(View()), base, home, r)
    {
      if version > SHAPE { return false; }
      if version == SHAPE { return true; }
      var newNodes: seq<NodeRow> := [];
      var newDeploy: seq<Context> := [];
      var newGui: map<string, string> := map[];
      if profileFile.Readable? {
        var anchored := AnchorAll(base, home, profileFile.content);
        var rows := InsertNodes(anchored);
        if rows.None? || !r.profile { return false; }
        newNodes := rows.value;
        profileFile := Absent;
      }
      if !deployFile.Absent? {
        if deployFile.Readable? { newDeploy := deployFile.content; }
        if !r.deploy { return false; }
        deployFile := Absent;
      }
      if !guiFile.Absent? {
        if guiFile.Readable? { newGui := UpsertGui(newGui, guiFile.content); }
        if !r.gui { return false; }
        guiFile := Absent;
      }
      if !r.commit { return false; }
      nodes, deploy, gui, version := newNodes, newDeploy, newGui, SHAPE;
      ok := true;
    }
  }

  // ----- one operation ----------------------------------------------------------------------

  function ReadNodes(s: Store, base: string, home: string): seq<Option<NodeEntry>> {
    seq(|s.nodes|, i requires 0 <= i < |s.nodes| => FromRow(base, home, s.nodes[i]))
  }

  /** The entries as a reader sees them: in order, with anchored directories. */
  function Seen(base: string, home: string, es: seq<NodeEntry>): seq<Option<NodeEntry>> {
    seq(|es|, i requires 0 <= i < |es| => Some(AnchorEntry(base, home, es[i])))
  }

  lemma NodesRoundTrip(s: Store, es: seq<NodeEntry>, base: string, home: string)
    requires Distinct(es)
    ensures ReadNodes(StoreNodes(s, es), base, home) == Seen(base, home, es)
  {
    forall e: NodeEntry ensures FromRow(base, home, ToRow(e)) == Some(AnchorEntry(base, home, e)) {}
  }

  /** Where a directory is anchored: below the home directory, or below the database's own; an absolute or
      empty one stays, and anchoring again changes nothing. */
  lemma AnchoredWhere(base: string, home: string, p: Path)
    ensures p.Home? ==> Anchor(base, home, p) == Absolute(home + p.rest)
    ensures p.Relative? ==> Anchor(base, home, p) == Absolute(base + "/" + p.text)
    ensures p.Absolute? || p.Empty? ==> Anchor(base, home, p) == p
    ensures Anchor(base, home, Anchor(base, home, p)) == Anchor(base, home, p)
  {
  }

  lemma GuiRoundTrip(gui: map<string, string>, p: GuiPrefs)
    ensures ReadGui(UpsertGui(gui, p)) == p
  {
  }

  // ----- any interleaving -------------------------------------------------------------------

  datatype Op =
    | PutNodes(es: seq<NodeEntry>)
    | PutDeploy(contexts: seq<Context>)
    | PutGui(p: GuiPrefs)
    | Reopen(renames: Renames)

  function ApplyOp(s: Store, base: string, home: string, op: Op): Store {
    match op
    case PutNodes(es) => StoreNodes(s, es)
    case PutDeploy(contexts) => s.(deploy := contexts)
    case PutGui(p) => s.(gui := UpsertGui(s.gui, p))
    case Reopen(renames) => Opened(s, base, home, renames).0
  }

  function RunOps(s: Store, base: string, home: string, ops: seq<Op>): Store {
    if ops == [] then s else ApplyOp(RunOps(s, base, home, ops[..|ops| - 1]), base, home, ops[|ops| - 1])
  }

  /** The last node list that was committed, if any. */
  function LastNodes(ops: seq<Op>): Option<seq<NodeEntry>> {
    if ops == [] then None
    else
      var op := ops[|ops| - 1];
      if op.PutNodes? && Distinct(op.es) then Some(op.es) else LastNodes(ops[..|ops| - 1])
  }

  function LastDeploy(ops: seq<Op>): Option<seq<Context>> {
    if ops == [] then None
    else
      var op := ops[|ops| - 1];
      if op.PutDeploy? then Some(op.contexts) else LastDeploy(ops[..|ops| - 1])
  }

  function LastGui(ops: seq<Op>): Option<GuiPrefs> {
    if ops == [] then None
    else
      var op := ops[|ops| - 1];
      if op.PutGui? then Some(op.p) else LastGui(ops[..|ops| - 1])
  }

  /** Domains are independent: over any interleaving of saves and reopens of a current database, every
      reader gets the last value committed to its own domain, or what was there before. */
  lemma {:induction false} DomainsAreIndependent(s: Store, base: string, home: string, ops: seq<Op>)
    requires s.version == SHAPE
    ensures var s' := RunOps(s, base, home, ops);
            && s'.version == SHAPE
            && (s'.profileFile, s'.deployFile, s'.guiFile) == (s.profileFile, s.deployFile, s.guiFile)
            && ReadNodes(s', base, home) == (if LastNodes(ops).Some? then Seen(base, home, LastNodes(ops).value)
                else ReadNodes(s, base, home))
            && s'.deploy == (if LastDeploy(ops).Some? then LastDeploy(ops).value else s.deploy)
            && ReadGui(s'.gui) == (if LastGui(ops).Some? then LastGui(ops).value else ReadGui(s.gui))
  {
    if ops != [] {
      var init, op := ops[..|ops| - 1], ops[|ops| - 1];
      DomainsAreIndependent(s, base, home, init);
      var mid := RunOps(s, base, home, init);
      match op
      case PutNodes(es) => if Distinct(es) { NodesRoundTrip(mid, es, base, home); }
      case PutDeploy(contexts) =>
      case PutGui(p) => GuiRoundTrip(mid.gui, p);
      case Reopen(renames) =>
    }
  }

  // ----- the import -------------------------------------------------------------------------

  lemma ImportedReads(s: Store, base: string, home: string, es: seq<NodeEntry>)
    requires s.nodes == Rows(AnchorAll(base, home, es))
    ensures ReadNodes(s, base, home) == Seen(base, home, es)
  {
    forall i | 0 <= i < |es|
      ensures FromRow(base, home, s.nodes[i]) == Some(AnchorEntry(base, home, es[i]))
    {
      assert s.nodes[i] == ToRow(AnchorEntry(base, home, es[i]));
    }
  }

  /** Legacy files contribute exactly once, to a database below the current shape: a first open that
      succeeds reads back what they held, and no later open looks at them. */
  lemma ImportHappensOnce(s: Store, base: string, home: string, r: Renames, ops: seq<Op>)
    requires Opened(s, base, home, r).1
    ensures var s1 := Opened(s, base, home, r).0;
            && (s.version < SHAPE ==>
                  && (s.profileFile.Readable? ==>
                        ReadNodes(s1, base, home) == Seen(base, home, s.profileFile.content) && s1.profileFile.Absent?)
                  && (s.deployFile.Readable? ==> s1.deploy == s.deployFile.content)
                  && (s.guiFile.Readable? ==> ReadGui(s1.gui) == s.guiFile.content)
                  && (s.profileFile.Garbled? ==> s1.nodes == [] && s1.profileFile.Garbled?)
                  && s1.deployFile.Absent? && s1.guiFile.Absent? && s1.version == SHAPE)
            && (s.version == SHAPE ==> s1 == s)
            && (LastNodes(ops).None? ==>
                  ReadNodes(RunOps(s1, base, home, ops), base, home) == ReadNodes(s1, base, home))
  {
    var s1 := Opened(s, base, home, r).0;
    DomainsAreIndependent(s1, base, home, ops);
    if s.version < SHAPE && s.profileFile.Readable? { ImportedReads(s1, base, home, s.profileFile.content); }
    if s.version < SHAPE && s.guiFile.Readable? { GuiRoundTrip(map[], s.guiFile.content); }
  }

  /** A newer shape is refused and the current one left alone. When a first open succeeds, and what one that
      fails leaves: the tables as they were, and each legacy file gone exactly if its turn came, its content
      could be imported and its rename went through. */
  lemma FirstOpenIff(s: Store, base: string, home: string, r: Renames)
    ensures s.version > SHAPE ==> Opened(s, base, home, r) == (s, false)
    ensures s.version == SHAPE ==> Opened(s, base, home, r) == (s, true)
    ensures s.version < SHAPE ==>
            var (s1, ok) := Opened(s, base, home, r);
            var profileDone := !s.profileFile.Readable? || (Distinct(s.profileFile.content) && r.profile);
            var deployDone := profileDone && (s.deployFile.Absent? || r.deploy);
            var guiDone := deployDone && (s.guiFile.Absent? || r.gui);
            && (ok <==> guiDone && r.commit)
            && s1.profileFile == (if s.profileFile.Readable? && profileDone then Absent else s.profileFile)
            && s1.deployFile == (if deployDone then Absent else s.deployFile)
            && s1.guiFile == (if guiDone then Absent else s.guiFile)
            && (!ok ==> s1 == s.(profileFile := s1.profileFile, deployFile := s1.deployFile, guiFile := s1.guiFile))
  {
  }

  /** A first open that fails on a rename, or on the commit after them, rolls the tables back but not the
      files it already renamed: the next open finds the node list exactly when the profile's own file
      had not been renamed. */
  lemma FailedImportLosesProfileIff(s: Store, base: string, home: string, r: Renames)
    requires s.version < SHAPE && s.profileFile.Readable? && Distinct(s.profileFile.content)
        && s.profileFile.content != []
    requires !Opened(s, base, home, r).1
    ensures var again := Opened(Opened(s, base, home, r).0, base, home, Renames(true, true, true, true));
            && again.1
            && (ReadNodes(again.0, base, home) == Seen(base, home, s.profileFile.content) <==> !r.profile)
            && (r.profile ==> again.0.nodes == [])
  {
    var s1 := Opened(s, base, home, r).0;
    var again := Opened(s1, base, home, Renames(true, true, true, true)).0;
    if !r.profile {
      ImportHappensOnce(s1, base, home, Renames(true, true, true, true), []);
    } else {
      assert |ReadNodes(again, base, home)| == 0;
      assert |Seen(base, home, s.profileFile.content)| > 0;
    }
  }

  /** A first open whose deploy rename fails after the profile's went through. */
  lemma ProfileLost()
    ensures var entry := NodeEntry("n", Absolute("/packs/n"), None, None, [], true);
            var s := Store(0, [], [], map[], Readable([entry]), Readable([]), Absent);
            var (once, ok) := Opened(s, "", "", Renames(true, false, true, true));
            var (again, ok') := Opened(once, "", "", Renames(true, true, true, true));
            !ok && ok' && again.nodes == [] && again.profileFile.Absent?
  {
    var entry := NodeEntry("n", Absolute("/packs/n"), None, None, [], true);
    var s := Store(0, [], [], map[], Readable([entry]), Readable([]), Absent);
    FailedImportLosesProfileIff(s, "", "", Renames(true, false, true, true));
  }
}
