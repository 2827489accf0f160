/** The printable identity of a pack, and reading it back. */
module Principals {
  import opened Types

  datatype Principal = Principal(realm: string, workspace: string, kind: string, name: string)

  predicate SlashFree(s: string) {
    '/' !in s
  }

  predicate Plain(p: Principal) {
    SlashFree(p.realm) && SlashFree(p.workspace) && SlashFree(p.kind) && SlashFree(p.name)
  }

  /** realm/workspace/kind/node. */
  function Print(p: Principal): string {
    p.realm + "/" + p.workspace + "/" + p.kind + "/" + p.name
  }

  /** A pack without a workspace prints a dash. */
  function PackPrincipal(realm: string, workspace: Option<string>, kind: string, node: string): string {
    Print(Principal(realm, if workspace.Some? then workspace.value else "-", kind, node))
  }

  /** The segments between slashes; the empty text is one empty segment. */
  function Split(s: string): (r: seq<string>)
    ensures |r| >= 1
  {
    if s == "" then [""]
    else
      var r := Split(s[1..]);
      if s[0] == '/' then [""] + r else [[s[0]] + r[0]] + r[1..]
  }

  function SplitPrincipal(s: string): Option<Principal> {
    var parts := Split(s);
    if |parts| == 4 then Some(Principal(parts[0], parts[1], parts[2], parts[3])) else None
  }

  function Glue(parts: seq<string>): string
    requires |parts| >= 1
  {
    if |parts| == 1 then parts[0] else parts[0] + "/" + Glue(parts[1..])
  }

  /** The four segments in order, joined by slashes. */
  lemma PrintedInOrder(p: Principal)
    ensures Print(p) == Glue([p.realm, p.workspace, p.kind, p.name])
  {
    var parts, tail := [p.realm, p.workspace, p.kind, p.name], [p.kind, p.name];
    assert tail[1..] == [p.name] && Glue(tail) == p.kind + "/" + p.name;
    assert parts[1..] == [p.workspace] + tail && ([p.workspace] + tail)[1..] == tail;
    assert Glue(parts[1..]) == p.workspace + "/" + Glue(tail);
  }

  lemma {:induction false} SplitThenGlue(s: string)
    ensures Glue(Split(s)) == s
    ensures forall i | 0 <= i < |Split(s)| :: SlashFree(Split(s)[i])
  {
    if s != "" {
      var r := Split(s[1..]);
      SplitThenGlue(s[1..]);
      if s[0] == '/' {
        assert Split(s)[1..] == r;
        assert s == "/" + s[1..];
      } else {
        assert Split(s)[1..] == r[1..];
        assert s == [s[0]] + s[1..];
      }
    }
  }

  /** A slash-free head is the first segment, whatever follows its slash. */
  lemma {:induction false} SplitHead(head: string, rest: string)
    requires SlashFree(head)
    ensures Split(head) == [head]
    ensures Split(head + "/" + rest) == [head] + Split(rest)
  {
    if head == "" {
      assert (head + "/" + rest)[1..] == rest;
    } else {
      SplitHead(head[1..], rest);
      assert (head + "/" + rest)[1..] == head[1..] + "/" + rest;
      assert [head[0]] + head[1..] == head;
    }
  }

  lemma ParseOfPrint(p: Principal)
    requires Plain(p)
    ensures SplitPrincipal(Print(p)) == Some(p)
  {
    var tail := p.kind + "/" + p.name;
    assert Print(p) == p.realm + "/" + (p.workspace + "/" + tail);
    SplitHead(p.realm, p.workspace + "/" + tail);
    SplitHead(p.workspace, tail);
    SplitHead(p.kind, p.name);
    SplitHead(p.name, "");
  }

  /** Whatever parses prints back to the same text, with slash-free segments. */
  lemma PrintOfParse(s: string)
    requires SplitPrincipal(s).Some?
    ensures Plain(SplitPrincipal(s).value) && Print(SplitPrincipal(s).value) == s
  {
    SplitThenGlue(s);
    var parts := Split(s);
    assert Glue(parts) == parts[0] + "/" + Glue(parts[1..]);
    assert Glue(parts[1..]) == parts[1] + "/" + Glue(parts[1..][1..]);
    assert parts[1..][1..] == parts[2..];
    assert Glue(parts[2..]) == parts[2] + "/" + Glue(parts[2..][1..]);
    assert parts[2..][1..] == [parts[3]];
  }

  /** Printing and parsing undo each other exactly on slash-free segments. */
  lemma PrintRoundTripsIff(p: Principal)
    ensures SplitPrincipal(Print(p)) == Some(p) <==> Plain(p)
  {
    if Plain(p) { ParseOfPrint(p); }
    if SplitPrincipal(Print(p)) == Some(p) { PrintOfParse(Print(p)); }
  }

  lemma PrintInjective(p: Principal, q: Principal)
    requires Plain(p) && Plain(q) && Print(p) == Print(q)
    ensures p == q
  {
    ParseOfPrint(p);
    ParseOfPrint(q);
  }

  /** The identity of a pack reads back segment by segment, the workspace defaulted to a dash. */
  lemma PackReadsBack(realm: string, workspace: Option<string>, kind: string, node: string)
    requires SlashFree(realm) && (workspace.Some? ==> SlashFree(workspace.value)) && SlashFree(kind) && SlashFree(node)
    ensures SplitPrincipal(PackPrincipal(realm, workspace, kind, node)) ==
              Some(Principal(realm, if workspace.Some? then workspace.value else "-", kind, node))
  {
    ParseOfPrint(Principal(realm, if workspace.Some? then workspace.value else "-", kind, node));
  }
}
