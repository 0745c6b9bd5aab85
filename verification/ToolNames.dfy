/** Names of MCP tools and the grants built from them (lib/agent-profile.ts, runtime/profiles.ts). */
module ToolNames {
  import opened Rows

  const PREFIX := "mcp__"
  const LEGACY_PREFIX := "mcp_"
  const COORDINATION := "open_harness"
  const COMPUTER_USE := "computer_use"

  // ----- strings -----

  predicate StartsWith(s: string, prefix: string) { prefix <= s }

  /** The text before the first double underscore, or all of it. */
  function BeforeSeparator(s: string): (r: string)
    ensures r <= s
  {
    if s == "" || s[..if |s| < 2 then 1 else 2] == "__" then ""
    else [s[0]] + BeforeSeparator(s[1..])
  }

  predicate HasSeparator(s: string) {
    exists i :: 0 <= i < |s| - 1 && SeparatorAt(s, i)
  }

  predicate SeparatorAt(s: string, i: int)
    requires 0 <= i < |s| - 1
  {
    s[i] == '_' && s[i + 1] == '_'
  }

  // ----- server names -----

  function McpToolId(server: string, tool: string): string { PREFIX + server + "__" + tool }

  function McpServerOf(id: string): Option<string> {
    if !StartsWith(id, PREFIX) then None
    else
      var server := BeforeSeparator(id[|PREFIX|..]);
      if server == "" then None else Some(server)
  }

  /** A server name that survives in a tool name. */
  predicate Plain(server: string) {
    server != "" && !HasSeparator(server) && server[|server| - 1] != '_'
  }

  lemma {:induction false} BeforeSeparatorFinds(s: string, t: string)
    ensures BeforeSeparator(s + "__" + t) == s <==> s == "" || Plain(s)
    ensures |BeforeSeparator(s + "__" + t)| <= |s|
    decreases |s|
  {
    var whole := s + "__" + t;
    if s == "" {
      assert whole[..2] == "__";
    } else {
      assert whole[1..] == s[1..] + "__" + t;
      BeforeSeparatorFinds(s[1..], t);
      if |s| == 1 {
        assert whole[0] == s[0] && whole[1] == '_';
      } else {
        assert whole[..2] == s[..2];
        PlainTail(s);
      }
    }
  }

  lemma PlainTail(s: string)
    requires |s| >= 2
    ensures Plain(s) <==> s[..2] != "__" && Plain(s[1..])
  {
    if HasSeparator(s) {
      var i :| 0 <= i < |s| - 1 && SeparatorAt(s, i);
      if i > 0 { assert SeparatorAt(s[1..], i - 1); }
    }
    if s[..2] == "__" { assert SeparatorAt(s, 0); }
    if HasSeparator(s[1..]) {
      var i :| 0 <= i < |s[1..]| - 1 && SeparatorAt(s[1..], i);
      assert SeparatorAt(s, i + 1);
    }
  }

  /** Reading the server back from a tool name gives the server exactly for plain server names. */
  lemma ServerOfToolIdIff(server: string, tool: string)
    ensures McpServerOf(McpToolId(server, tool)) == Some(server) <==> Plain(server)
  {
    var id := McpToolId(server, tool);
    assert id[|PREFIX|..] == server + "__" + tool;
    BeforeSeparatorFinds(server, tool);
  }

  // ----- normalisation -----

  const TASK_TOOL := McpToolId(COORDINATION, "task")
  const HANDOFF_TOOL := McpToolId(COORDINATION, "delegate_named_agent")
  const ROUTINE_TOOL := McpToolId(COORDINATION, "create_open_harness_routine")

  function LegacyPrefix(name: string): string { LEGACY_PREFIX + name + "_" }

  /** The first connection a single-underscore name may belong to. */
  function OwnerOf(id: string, names: seq<string>): (owner: Option<string>)
    ensures owner.Some? ==> owner.value in names && StartsWith(id, LegacyPrefix(owner.value))
    ensures owner.None? ==> forall n | n in names :: !StartsWith(id, LegacyPrefix(n))
  {
    if names == [] then None
    else if StartsWith(id, LegacyPrefix(names[0])) then Some(names[0])
    else OwnerOf(id, names[1..])
  }

  function NormalizeOne(id: string, names: seq<string>): string {
    if id == "mcp_open_harness_task" then TASK_TOOL
    else if id == "mcp_open_harness_delegate_named_agent" then HANDOFF_TOOL
    else if id == "mcp_open_harness_create_open_harness_routine" then ROUTINE_TOOL
    else if StartsWith(id, PREFIX) || !StartsWith(id, LEGACY_PREFIX) then id
    else
      var owner := OwnerOf(id, names);
      if owner.None? then id else McpToolId(owner.value, id[|LegacyPrefix(owner.value)|..])
  }

  function Normalize(ids: seq<string>, names: seq<string>): (r: seq<string>)
    ensures |r| == |ids|
    ensures forall i | 0 <= i < |ids| :: r[i] == NormalizeOne(ids[i], names)
  {
    seq(|ids|, i requires 0 <= i < |ids| => NormalizeOne(ids[i], names))
  }

  lemma ToolIdIsNormal(server: string, tool: string, names: seq<string>)
    ensures NormalizeOne(McpToolId(server, tool), names) == McpToolId(server, tool)
  {
    assert McpToolId(server, tool)[4] == '_';
    assert "mcp_open_harness_task"[4] == 'o' && "mcp_open_harness_delegate_named_agent"[4] == 'o';
    assert "mcp_open_harness_create_open_harness_routine"[4] == 'o';
  }

  lemma NormalizeOneTwice(id: string, names: seq<string>)
    ensures NormalizeOne(NormalizeOne(id, names), names) == NormalizeOne(id, names)
  {
    ToolIdIsNormal(COORDINATION, "task", names);
    ToolIdIsNormal(COORDINATION, "delegate_named_agent", names);
    ToolIdIsNormal(COORDINATION, "create_open_harness_routine", names);
    var owner := OwnerOf(id, names);
    if owner.Some? { ToolIdIsNormal(owner.value, id[|LegacyPrefix(owner.value)|..], names); }
  }

  predicate CoordinationName(id: string) {
    id == "mcp_open_harness_task" || id == "mcp_open_harness_delegate_named_agent"
    || id == "mcp_open_harness_create_open_harness_routine"
  }

  /** The three old names of the coordination server's own tools are renamed to its tools, whatever connections exist. */
  lemma CoordinationToolsAreRenamed(names: seq<string>)
    ensures NormalizeOne("mcp_open_harness_task", names) == McpToolId("open_harness", "task")
    ensures NormalizeOne("mcp_open_harness_delegate_named_agent", names) == McpToolId("open_harness", "delegate_named_agent")
    ensures NormalizeOne("mcp_open_harness_create_open_harness_routine", names) == McpToolId("open_harness", "create_open_harness_routine")
  {
    var first, second, third := "mcp_open_harness_task", "mcp_open_harness_delegate_named_agent", "mcp_open_harness_create_open_harness_routine";
    assert |first| == 21 && |second| == 37 && |third| == 44;
  }

  /** A name in the old form is renamed to the tool of the same name on the first connection it fits;
      every other name is left alone. */
  lemma OldNamesAreRenamed(server: string, tool: string, names: seq<string>, id: string)
    ensures var oldForm := LegacyPrefix(server) + tool;
            !CoordinationName(oldForm) && !StartsWith(oldForm, PREFIX) && OwnerOf(oldForm, names) == Some(server) ==>
              NormalizeOne(oldForm, names) == McpToolId(server, tool)
    ensures !CoordinationName(id) && (StartsWith(id, PREFIX) || forall n | n in names :: !StartsWith(id, LegacyPrefix(n))) ==>
              NormalizeOne(id, names) == id
  {
    var oldForm := LegacyPrefix(server) + tool;
    assert oldForm[|LegacyPrefix(server)|..] == tool;
    assert StartsWith(oldForm, LEGACY_PREFIX);
  }

  lemma NormalizeIsIdempotent(ids: seq<string>, names: seq<string>)
    ensures Normalize(Normalize(ids, names), names) == Normalize(ids, names)
  {
    forall i | 0 <= i < |ids| ensures Normalize(Normalize(ids, names), names)[i] == Normalize(ids, names)[i] {
      NormalizeOneTwice(ids[i], names);
    }
  }

  // ----- the stored tool list -----

  predicate Distinct(ids: seq<string>) {
    forall i, j | 0 <= i < j < |ids| :: ids[i] != ids[j]
  }

  /** `[...new Set(ids)]`: first occurrences, in order. */
  function Deduplicate(ids: seq<string>): (r: seq<string>)
    ensures forall id :: id in r <==> id in ids
    ensures Distinct(r)
  {
    if ids == [] then []
    else
      var last := |ids| - 1;
      var rest := Deduplicate(ids[..last]);
      assert ids == ids[..last] + [ids[last]];
      if ids[last] in rest then rest else rest + [ids[last]]
  }

  function WithoutDesktop(ids: seq<string>, desktop: bool): (r: seq<string>)
    ensures forall id :: id in r <==> id in ids && (desktop || id != COMPUTER_USE)
  {
    if ids == [] then []
    else
      var last := |ids| - 1;
      var rest := WithoutDesktop(ids[..last], desktop);
      assert ids == ids[..last] + [ids[last]];
      if desktop || ids[last] != COMPUTER_USE then rest + [ids[last]] else rest
  }

  /** The tool list `validateProfile` stores. */
  function ValidTools(ids: seq<string>, names: seq<string>, desktop: bool): seq<string> {
    WithoutDesktop(Deduplicate(Normalize(ids, names) + [TASK_TOOL]), desktop)
  }

  lemma {:induction false} DeduplicateDistinct(ids: seq<string>)
    requires Distinct(ids)
    ensures Deduplicate(ids) == ids
  {
    if ids != [] {
      DeduplicateDistinct(ids[..|ids| - 1]);
      assert ids == ids[..|ids| - 1] + [ids[|ids| - 1]];
    }
  }

  lemma {:induction false} WithoutDesktopTwice(ids: seq<string>, desktop: bool)
    requires forall id | id in ids :: desktop || id != COMPUTER_USE
    ensures WithoutDesktop(ids, desktop) == ids
  {
    if ids != [] {
      var rest := ids[..|ids| - 1];
      assert forall id | id in rest :: id in ids;
      WithoutDesktopTwice(rest, desktop);
      assert ids[|ids| - 1] in ids && ids == rest + [ids[|ids| - 1]];
    }
  }

  lemma AppendDistinct(ids: seq<string>, id: string)
    requires Distinct(ids) && id !in ids
    ensures Distinct(ids + [id])
  {}

  lemma {:induction false} WithoutDesktopDistinct(ids: seq<string>, desktop: bool)
    requires Distinct(ids)
    ensures Distinct(WithoutDesktop(ids, desktop))
  {
    if ids != [] {
      var last := |ids| - 1;
      WithoutDesktopDistinct(ids[..last], desktop);
      var rest := WithoutDesktop(ids[..last], desktop);
      assert forall i | 0 <= i < last :: ids[i] != ids[last];
      AppendDistinct(rest, ids[last]);
    }
  }

  lemma NormalizedIsNormal(id: string, ids: seq<string>, names: seq<string>)
    requires id in Normalize(ids, names) + [TASK_TOOL]
    ensures NormalizeOne(id, names) == id
  {
    ToolIdIsNormal(COORDINATION, "task", names);
    if id in Normalize(ids, names) {
      var i :| 0 <= i < |ids| && id == NormalizeOne(ids[i], names);
      NormalizeOneTwice(ids[i], names);
    }
  }

  lemma TaskToolStays()
    ensures TASK_TOOL != COMPUTER_USE
  {
    assert TASK_TOOL[0] == 'm' && COMPUTER_USE[0] == 'c';
  }

  lemma ValidToolsFacts(ids: seq<string>, names: seq<string>, desktop: bool)
    ensures var r := ValidTools(ids, names, desktop);
            && TASK_TOOL in r
            && (forall id | id in r :: NormalizeOne(id, names) == id && (desktop || id != COMPUTER_USE))
            && Distinct(r)
  {
    var normal := Normalize(ids, names) + [TASK_TOOL];
    TaskToolStays();
    assert normal[|ids|] == TASK_TOOL;
    forall id | id in ValidTools(ids, names, desktop) ensures NormalizeOne(id, names) == id {
      NormalizedIsNormal(id, ids, names);
    }
    WithoutDesktopDistinct(Deduplicate(normal), desktop);
  }

  /** Validating a stored tool list again changes nothing, so reading and saving a profile neither
      adds nor removes a tool. */
  lemma ValidToolsIsFixpoint(ids: seq<string>, names: seq<string>, desktop: bool)
    ensures var r := ValidTools(ids, names, desktop); ValidTools(r, names, desktop) == r
  {
    var r := ValidTools(ids, names, desktop);
    ValidToolsFacts(ids, names, desktop);
    assert Normalize(r, names) == r;
    AddingPresentTool(r);
    WithoutDesktopTwice(r, desktop);
  }

  lemma AddingPresentTool(r: seq<string>)
    requires TASK_TOOL in r && Distinct(r)
    ensures Deduplicate(r + [TASK_TOOL]) == r
  {
    DeduplicateDistinct(r);
    assert (r + [TASK_TOOL])[..|r|] == r;
  }

  // ----- grants -----

  datatype Connection = Connection(name: string, enabled: bool)

  function Names(connections: seq<Connection>): (r: seq<string>)
    ensures |r| == |connections| && forall i | 0 <= i < |r| :: r[i] == connections[i].name
  {
    seq(|connections|, i requires 0 <= i < |connections| => connections[i].name)
  }

  function Servers(connections: seq<Connection>): set<string> {
    {COORDINATION} + set c | c in connections && c.enabled :: c.name
  }

  predicate Granted(id: string, servers: set<string>, desktop: bool) {
    && (desktop || id != COMPUTER_USE)
    && (!StartsWith(id, LEGACY_PREFIX)
        || (var server := McpServerOf(id); (if server.Some? then server.value else "") in servers))
  }

  function Grants(ids: seq<string>, servers: set<string>, desktop: bool): (r: seq<string>)
    ensures forall id :: id in r <==> id in ids && Granted(id, servers, desktop)
  {
    if ids == [] then []
    else (if Granted(ids[0], servers, desktop) then [ids[0]] else []) + Grants(ids[1..], servers, desktop)
  }

  function RunToolGrants(ids: seq<string>, connections: seq<Connection>, desktop: bool): seq<string> {
    Grants(Normalize(ids, Names(connections)), Servers(connections), desktop)
  }

  /** A tool of the named connection is selected. */
  predicate Selected(ids: seq<string>, connections: seq<Connection>, server: string, tool: string) {
    McpToolId(server, tool) in Normalize(ids, Names(connections))
  }

  lemma ToolIdDecision(server: string, tool: string, servers: set<string>, desktop: bool)
    requires Plain(server)
    ensures Granted(McpToolId(server, tool), servers, desktop) <==> server in servers
  {
    ServerOfToolIdIff(server, tool);
    assert McpToolId(server, tool)[0] == 'm' && COMPUTER_USE[0] == 'c';
    assert StartsWith(McpToolId(server, tool), LEGACY_PREFIX);
  }

  /** Nothing is added; ordinary tools stay, but for desktop control without a desktop; a name in the
      old form that belongs to no connection is dropped. */
  lemma GrantsAddNothing(ids: seq<string>, connections: seq<Connection>, desktop: bool, id: string)
    requires forall c | c in connections :: c.name != ""
    ensures id in RunToolGrants(ids, connections, desktop) ==> id in Normalize(ids, Names(connections))
    ensures !StartsWith(id, LEGACY_PREFIX) ==>
              (id in RunToolGrants(ids, connections, desktop)
               <==> id in Normalize(ids, Names(connections)) && (desktop || id != COMPUTER_USE))
    ensures StartsWith(id, LEGACY_PREFIX) && !StartsWith(id, PREFIX) ==> id !in RunToolGrants(ids, connections, desktop)
  {}

  /** The server by which the tools of a connection are judged: the part of its name before the first
      double underscore, where the separator that follows the name counts too. */
  function Judge(server: string): string { BeforeSeparator(server + "__") }

  lemma {:induction false} BeforeSeparatorStops(s: string, t: string)
    ensures BeforeSeparator(s + "__" + t) == BeforeSeparator(s + "__")
    decreases |s|
  {
    var whole, short := s + "__" + t, s + "__";
    assert whole[..2] == short[..2];
    if s != "" && short[..2] != "__" {
      assert whole[1..] == s[1..] + "__" + t && short[1..] == s[1..] + "__";
      BeforeSeparatorStops(s[1..], t);
    }
  }

  /** Whatever the connection is called, its tools are granted exactly when the server that judges them
      is enabled. Accepted names begin with a letter or a digit. */
  /** The coordination server is always there; any other is where an enabled connection has its name. */
  ghost predicate SwitchedOn(connections: seq<Connection>, server: string) {
    server == "open_harness" || exists i :: 0 <= i < |connections| && connections[i].enabled && connections[i].name == server
  }

  lemma ServersAreSwitchedOn(connections: seq<Connection>, server: string)
    ensures server in Servers(connections) <==> SwitchedOn(connections, server)
  {
    if server in Servers(connections) && server != COORDINATION {
      var c :| c in connections && c.enabled && c.name == server;
      var i :| 0 <= i < |connections| && connections[i] == c;
    }
  }

  lemma GrantsFollowTheJudge(ids: seq<string>, connections: seq<Connection>, desktop: bool, server: string, tool: string)
    ensures McpServerOf(McpToolId(server, tool)) == if Judge(server) == "" then None else Some(Judge(server))
    ensures McpToolId(server, tool) in RunToolGrants(ids, connections, desktop)
            <==> Selected(ids, connections, server, tool) && SwitchedOn(connections, Judge(server))
  {
    var id := McpToolId(server, tool);
    assert id[|PREFIX|..] == server + "__" + tool;
    BeforeSeparatorStops(server, tool);
    ServersAreSwitchedOn(connections, Judge(server));
    assert id[0] == 'm' && COMPUTER_USE[0] == 'c' && StartsWith(id, LEGACY_PREFIX);
  }

  lemma JudgeIsOwnNameIff(server: string)
    requires server != ""
    ensures Judge(server) == server <==> Plain(server)
  {
    BeforeSeparatorFinds(server, "");
    assert server + "__" + "" == server + "__";
  }

  /** A run gets a selected tool exactly if its connection is enabled, or is the coordination server; unless
      the name is not plain and the connection that judges it is switched differently. */
  lemma GrantsFollowConnections(ids: seq<string>, connections: seq<Connection>, desktop: bool, server: string, tool: string)
    requires server != ""
    ensures (McpToolId(server, tool) in RunToolGrants(ids, connections, desktop)
             <==> Selected(ids, connections, server, tool) && SwitchedOn(connections, server))
            <==> Plain(server) || (SwitchedOn(connections, server) <==> SwitchedOn(connections, Judge(server))) || !Selected(ids, connections, server, tool)
  {
    GrantsFollowTheJudge(ids, connections, desktop, server, tool);
    JudgeIsOwnNameIff(server);
  }

  /** A connection's own switch decides over its tools, whatever else is enabled, if and only if its
      name is plain. */
  lemma OwnSwitchDecidesIff(server: string, tool: string)
    requires server != ""
    ensures (forall servers: set<string> :: Granted(McpToolId(server, tool), servers, true) <==> server in servers) <==> Plain(server)
  {
    GrantsFollowTheJudge([], [], true, server, tool);
    JudgeIsOwnNameIff(server);
    var id, judge := McpToolId(server, tool), Judge(server);
    assert id[0] == 'm' && COMPUTER_USE[0] == 'c' && StartsWith(id, LEGACY_PREFIX);
    forall servers: set<string> ensures Granted(id, servers, true) <==> judge in servers {}
    if judge != server { assert Granted(id, {judge}, true) && server !in {judge}; }
  }

  /** Connection names with a double underscore are accepted, yet their tools are judged by the switch
      of the connection named by the part before it: enabled tools are lost and disabled ones kept. */
  lemma SeparatorInNameMisleads(a: string, b: string, tool: string, servers: set<string>, desktop: bool)
    requires Plain(a)
    ensures var id := McpToolId(a + "__" + b, tool);
            McpServerOf(id) == Some(a) && (Granted(id, servers, desktop) <==> a in servers)
  {
    var id, rest := McpToolId(a + "__" + b, tool), b + "__" + tool;
    assert id == McpToolId(a, rest);
    ServerOfToolIdIff(a, rest);
    ToolIdDecision(a, rest, servers, desktop);
  }

  /** A double underscore hands the tools to the connection named before it, a trailing underscore to the
      connection without it. */
  lemma MisleadingNames(a: string, b: string)
    requires Plain(a)
    ensures Judge(a + "__" + b) == a && Judge(a + "_") == a
  {
    BeforeSeparatorFinds(a, b + "__");
    assert a + "__" + b + "__" == a + "__" + (b + "__");
    BeforeSeparatorFinds(a, "_");
    assert a + "_" + "__" == a + "__" + "_";
  }
}
