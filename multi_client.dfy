/** The multi-server client: a table of servers keyed by their normalised origin, a
    table of tools keyed by name, and the routing of tool calls to the server that
    advertised the tool. Each server's own client is reached through oracles: the
    health probe, the `tools/list` reply and the `tools/call` reply. */
module MultiClient {
  import opened Common
  import opened Text
  import opened OrderedDict
  import opened Json
  import opened Errors
  import opened Client
  import Security
  import Url

  /** `MCPTool`. */
  datatype Tool = Tool(name: string, description: string, serverUrl: string, parameters: Json)

  /** `MCPServer`: its URL, the tools it advertised last and whether it connected. */
  datatype Server = Server(url: string, tools: seq<Tool>, connected: bool)

  /** The four routing counters. */
  datatype RoutingStats = RoutingStats(serversAdded: nat, toolsDiscovered: nat, requestsRouted: nat, routingErrors: nat)

  const ZeroRoutingStats := RoutingStats(0, 0, 0, 0)

  /** What `list_tools()` of the client of the server with this URL returns or raises. */
  type Listing = string -> Outcome<McpResponse>

  /** What `call_tool(name, arguments)` of the client of the server with this URL
      returns or raises. */
  type Invoke = (string, string, Dict<Json>) -> Outcome<McpResponse>

  /** The server table: no URL twice, each server stored under its own URL. */
  ghost predicate ServerTable(servers: Dict<Server>) {
    && DistinctKeys(servers)
    && forall e :: e in servers ==> e.key == e.value.url
  }

  /** The tool table: no name twice, each tool stored under its own name. */
  ghost predicate ToolTable(tools: Dict<Tool>) {
    && DistinctKeys(tools)
    && forall e :: e in tools ==> e.key == e.value.name
  }

  /** Every registered tool routes to a registered server. */
  ghost predicate ToolsRouted(servers: Dict<Server>, tools: Dict<Tool>) {
    forall e :: e in tools ==> e.value.serverUrl in Keys(servers)
  }

  ghost predicate Registry(servers: Dict<Server>, tools: Dict<Tool>) {
    ServerTable(servers) && ToolTable(tools) && ToolsRouted(servers, tools)
  }

  /** One advertised tool entry read into a tool: `name` defaults to "Unknown",
      `description` to "" and falsy `parameters` to `{}`. An entry that is not an object
      ends discovery, and so, in this model, does a name or a description that is not
      a string. */
  function ToolOf(item: Json, serverUrl: string): (r: Option<Tool>)
    ensures r.Some? <==> item.JObj? && GetOr(item.fields, "name", JStr("Unknown")).JStr?
                                     && GetOr(item.fields, "description", JStr("")).JStr?
    ensures r.Some? ==> r.value.serverUrl == serverUrl
    ensures r.Some? ==> GetOr(item.fields, "name", JStr("Unknown")) == JStr(r.value.name)
    ensures r.Some? ==> GetOr(item.fields, "description", JStr("")) == JStr(r.value.description)
    ensures r.Some? ==> Truthy(r.value.parameters) || r.value.parameters == JObj([])
  {
    if !item.JObj? then None
    else
      var name := GetOr(item.fields, "name", JStr("Unknown"));
      var description := GetOr(item.fields, "description", JStr(""));
      var parameters := Get(item.fields, "parameters");
      if !name.JStr? || !description.JStr? then None
      else Some(Tool(name.s, description.s, serverUrl,
                     if parameters.Some? && Truthy(parameters.value) then parameters.value else JObj([])))
  }

  /** An empty tool object is the tool "Unknown" with no description and no
      parameters. */
  lemma ToolOfDefaults(serverUrl: string)
    ensures ToolOf(JObj([]), serverUrl) == Some(Tool("Unknown", "", serverUrl, JObj([])))
  {
  }

  /** The tools read from the advertised entries: the longest run of readable entries
      from the front. */
  function ParseTools(items: seq<Json>, serverUrl: string): seq<Tool>
    decreases |items|
  {
    if items == [] then []
    else
      var init := ParseTools(items[..|items| - 1], serverUrl);
      var last := ToolOf(items[|items| - 1], serverUrl);
      if |init| == |items| - 1 && last.Some? then init + [last.value] else init
  }

  /** The tools read are the entries from the front, each read in place, up to the
      first unreadable entry; every one belongs to the server at `serverUrl`. */
  lemma {:induction false} ParseToolsFacts(items: seq<Json>, serverUrl: string)
    ensures var r := ParseTools(items, serverUrl);
            && |r| <= |items|
            && (forall i :: 0 <= i < |r| ==> ToolOf(items[i], serverUrl) == Some(r[i]))
            && (|r| < |items| ==> ToolOf(items[|r|], serverUrl).None?)
            && (forall t :: t in r ==> t.serverUrl == serverUrl)
    decreases |items|
  {
    if items != [] {
      var front := items[..|items| - 1];
      ParseToolsFacts(front, serverUrl);
      var init := ParseTools(front, serverUrl);
      var last := ToolOf(items[|items| - 1], serverUrl);
      if |init| == |front| && last.Some? {
        var r := init + [last.value];
        assert ParseTools(items, serverUrl) == r;
        forall i | 0 <= i < |r| ensures ToolOf(items[i], serverUrl) == Some(r[i]) {
          if i < |init| {
            assert r[i] == init[i] && items[i] == front[i];
          }
        }
        forall t | t in r ensures t.serverUrl == serverUrl {
          if t != last.value {
            assert t in init;
          }
        }
      } else {
        assert ParseTools(items, serverUrl) == init;
        forall i | 0 <= i < |init| ensures items[i] == front[i] { }
        if |init| < |front| {
          assert items[|init|] == front[|init|];
        }
      }
    }
  }

  /** `self.tools[tool.name] = tool` for each tool in turn. */
  function RegisterAll(tools: Dict<Tool>, ts: seq<Tool>): Dict<Tool> {
    if ts == [] then tools
    else Set(RegisterAll(tools, ts[..|ts| - 1]), ts[|ts| - 1].name, ts[|ts| - 1])
  }

  /** The last tool of `ts` called `name`, if any. */
  function LastNamed(ts: seq<Tool>, name: string): (r: Option<Tool>)
    ensures r.None? <==> forall t :: t in ts ==> t.name != name
    ensures r.Some? ==> exists i :: 0 <= i < |ts| && ts[i] == r.value && r.value.name == name
                                    && forall j :: i < j < |ts| ==> ts[j].name != name
  {
    if ts == [] then None
    else if ts[|ts| - 1].name == name then Some(ts[|ts| - 1])
    else
      var r := LastNamed(ts[..|ts| - 1], name);
      assert ts == ts[..|ts| - 1] + [ts[|ts| - 1]];
      assert r.Some? ==> exists i :: 0 <= i < |ts| && ts[i] == r.value && r.value.name == name
                                    && forall j :: i < j < |ts| ==> ts[j].name != name by {
        if r.Some? {
          var init := ts[..|ts| - 1];
          var i :| 0 <= i < |init| && init[i] == r.value && r.value.name == name
                   && forall j :: i < j < |init| ==> init[j].name != name;
          assert ts[i] == r.value;
        }
      }
      r
  }

  /** Last writer wins: a name advertised by the tools is bound to the last tool with
      that name, and every other name keeps its binding. */
  lemma {:induction false} RegisterAllLastWriterWins(tools: Dict<Tool>, ts: seq<Tool>, name: string)
    ensures Get(RegisterAll(tools, ts), name) == if LastNamed(ts, name).Some? then LastNamed(ts, name) else Get(tools, name)
  {
    if ts != [] {
      RegisterAllLastWriterWins(tools, ts[..|ts| - 1], name);
    }
  }

  /** Registration adds entries for the given tools under their names and otherwise
      keeps only entries already there; it keeps names distinct. */
  lemma {:induction false} RegisterAllEntries(tools: Dict<Tool>, ts: seq<Tool>)
    ensures forall e :: e in RegisterAll(tools, ts) ==> e in tools || (e.value in ts && e.key == e.value.name)
    ensures DistinctKeys(tools) ==> DistinctKeys(RegisterAll(tools, ts))
  {
    if ts != [] {
      var init := ts[..|ts| - 1];
      var last := ts[|ts| - 1];
      RegisterAllEntries(tools, init);
      SetEntries(RegisterAll(tools, init), last.name, last);
      if DistinctKeys(tools) {
        SetDistinct(RegisterAll(tools, init), last.name, last);
      }
      assert forall t :: t in init ==> t in ts;
    }
  }

  /** The listing can be read: no exception, no (non-empty) error, and a result. */
  predicate ListingUsable(reply: Outcome<McpResponse>) {
    && reply.Returned?
    && (reply.value.error.None? || reply.value.error.value == [])
    && reply.value.result.Some?
  }

  /** The `tools` member of a usable listing, `[]` when absent. */
  function Advertised(reply: Outcome<McpResponse>): Json
    requires ListingUsable(reply)
  {
    GetOr(reply.value.result.value, "tools", JArr([]))
  }

  /** The tools a usable listing advertises, read from the front; a `tools` value that
      is not a list yields none. */
  function FoundTools(reply: Outcome<McpResponse>, serverUrl: string): seq<Tool>
    requires ListingUsable(reply)
  {
    if Advertised(reply).JArr? then ParseTools(Advertised(reply).items, serverUrl) else []
  }

  /** The server's tool list replaced by `found`, each tool registered under its name
      and counted as discovered. */
  function Registered(server: Server, tools: Dict<Tool>, stats: RoutingStats, found: seq<Tool>)
    : (Server, Dict<Tool>, RoutingStats)
  {
    (server.(tools := found), RegisterAll(tools, found), stats.(toolsDiscovered := stats.toolsDiscovered + |found|))
  }

  /** `_discover_tools(server)` on the server record, the tool table and the counters.
      An unusable listing changes nothing. */
  function Discover(server: Server, tools: Dict<Tool>, stats: RoutingStats, reply: Outcome<McpResponse>)
    : (r: (Server, Dict<Tool>, RoutingStats))
    ensures !ListingUsable(reply) ==> r == (server, tools, stats)
    ensures r.0.url == server.url && r.0.connected == server.connected
  {
    if !ListingUsable(reply) then (server, tools, stats)
    else Registered(server, tools, stats, FoundTools(reply, server.url))
  }

  /** What discovery does with a usable listing: the server's tool list is cleared and
      refilled with tools of this server (left empty when `tools` is not a list), every
      one of them is registered under its name, and each one counts once. */
  lemma DiscoverOutcome(server: Server, tools: Dict<Tool>, stats: RoutingStats, reply: Outcome<McpResponse>)
    requires ListingUsable(reply)
    ensures var (s, t, st) := Discover(server, tools, stats, reply);
            && (!Advertised(reply).JArr? ==> s.tools == [] && t == tools && st == stats)
            && (forall tool :: tool in s.tools ==> tool.serverUrl == server.url)
            && t == RegisterAll(tools, s.tools)
            && st == stats.(toolsDiscovered := stats.toolsDiscovered + |s.tools|)
  {
    if Advertised(reply).JArr? {
      ParseToolsFacts(Advertised(reply).items, server.url);
    }
  }

  /** When every advertised entry is a readable tool, each one becomes the server's
      tool at the same position, and the counter moves once per entry. */
  lemma DiscoverEveryAdvertisedTool(server: Server, tools: Dict<Tool>, stats: RoutingStats, reply: Outcome<McpResponse>)
    requires ListingUsable(reply) && Advertised(reply).JArr?
    requires forall i :: 0 <= i < |Advertised(reply).items| ==> ToolOf(Advertised(reply).items[i], server.url).Some?
    ensures var (s, _, st) := Discover(server, tools, stats, reply);
            && |s.tools| == |Advertised(reply).items|
            && (forall i :: 0 <= i < |s.tools| ==> Some(s.tools[i]) == ToolOf(Advertised(reply).items[i], server.url))
            && st.toolsDiscovered == stats.toolsDiscovered + |Advertised(reply).items|
  {
    ParseToolsFacts(Advertised(reply).items, server.url);
  }

  /** A usable listing with a list of tools: the server's tools become the readable
      run of entries, each registered and counted. */
  lemma DiscoverFound(server: Server, tools: Dict<Tool>, stats: RoutingStats, reply: Outcome<McpResponse>)
    requires ListingUsable(reply) && Advertised(reply).JArr?
    ensures Discover(server, tools, stats, reply) == Registered(server, tools, stats, ParseTools(Advertised(reply).items, server.url))
  {
  }

  /** A usable listing whose `tools` is not a list empties the server's tools and
      changes neither the tool table nor the counters. */
  lemma DiscoverNotList(server: Server, tools: Dict<Tool>, stats: RoutingStats, reply: Outcome<McpResponse>)
    requires ListingUsable(reply) && !Advertised(reply).JArr?
    ensures Discover(server, tools, stats, reply) == (server.(tools := []), tools, stats)
  {
    assert FoundTools(reply, server.url) == [];
  }

  /** One entry of the loop of `_discover_tools`: a readable entry at `i` is the next
      tool read, registered after the earlier ones; an unreadable one ends the tools
      read. */
  lemma ReadStep(tools: Dict<Tool>, items: seq<Json>, serverUrl: string, i: nat)
    requires i < |items| && i <= |ParseTools(items, serverUrl)|
    ensures var ts := ParseTools(items, serverUrl);
            var tool := ToolOf(items[i], serverUrl);
            && (tool.None? ==> i == |ts|)
            && (tool.Some? ==>
                  && i < |ts| && ts[..i + 1] == ts[..i] + [tool.value]
                  && RegisterAll(tools, ts[..i + 1]) == Set(RegisterAll(tools, ts[..i]), tool.value.name, tool.value))
  {
    var ts := ParseTools(items, serverUrl);
    ParseToolsFacts(items, serverUrl);
    var tool := ToolOf(items[i], serverUrl);
    if tool.Some? {
      assert i < |ts|;
      assert ts[i] == tool.value;
      var upTo := ts[..i + 1];
      assert upTo[..i] == ts[..i] && upTo[i] == ts[i];
      SplitLast(upTo);
      assert RegisterAll(tools, upTo) == Set(RegisterAll(tools, upTo[..i]), upTo[i].name, upTo[i]);
    }
  }

  /** The loop of `_discover_tools`: each advertised entry, from the front, becomes a
      tool of the server at `serverUrl` and is registered under its name, until an
      unreadable entry ends the loop. */
  method ReadTools(tools: Dict<Tool>, items: seq<Json>, serverUrl: string) returns (found: seq<Tool>, table: Dict<Tool>)
    ensures found == ParseTools(items, serverUrl)
    ensures table == RegisterAll(tools, found)
  {
    ghost var target := ParseTools(items, serverUrl);
    ParseToolsFacts(items, serverUrl);
    found := [];
    table := tools;
    var i := 0;
    while i < |items|
      invariant i <= |target| && found == target[..i]
      invariant table == RegisterAll(tools, found)
    {
      ReadStep(tools, items, serverUrl, i);
      var tool := ToolOf(items[i], serverUrl);
      if tool.None? {
        break;
      }
      found := found + [tool.value];
      table := Set(table, tool.value.name, tool.value);
      i := i + 1;
    }
    assert found == target;
  }

  /** `_discover_tools(server)` on the server record, the tool table and the counters,
      given what the server's `list_tools()` returned or raised. */
  method DiscoverListing(server: Server, tools: Dict<Tool>, stats: RoutingStats, reply: Outcome<McpResponse>)
    returns (updated: Server, table: Dict<Tool>, counts: RoutingStats)
    ensures (updated, table, counts) == Discover(server, tools, stats, reply)
  {
    if !ListingUsable(reply) {
      return server, tools, stats;
    }
    var advertised := Advertised(reply);
    if !advertised.JArr? {
      DiscoverNotList(server, tools, stats, reply);
      return server.(tools := []), tools, stats;
    }
    DiscoverFound(server, tools, stats, reply);
    updated, table, counts := RegisterListed(server, tools, stats, advertised.items);
  }

  /** The tools read from a list of advertised entries, stored on the server record,
      registered and counted. */
  method RegisterListed(server: Server, tools: Dict<Tool>, stats: RoutingStats, items: seq<Json>)
    returns (updated: Server, table: Dict<Tool>, counts: RoutingStats)
    ensures (updated, table, counts) == Registered(server, tools, stats, ParseTools(items, server.url))
  {
    var found;
    found, table := ReadTools(tools, items, server.url);
    updated := server.(tools := found);
    counts := stats.(toolsDiscovered := stats.toolsDiscovered + |found|);
    RegisteredOf(server, tools, stats, found, table);
  }

  /** The result of registering, given the tools read and the table they produced. */
  lemma RegisteredOf(server: Server, tools: Dict<Tool>, stats: RoutingStats, found: seq<Tool>, table: Dict<Tool>)
    requires table == RegisterAll(tools, found)
    ensures Registered(server, tools, stats, found)
            == (server.(tools := found), table, stats.(toolsDiscovered := stats.toolsDiscovered + |found|))
  {
  }

  /** Storing a server with its discovered tools under its URL, whether it is new or
      already present, keeps the registry consistent. */
  lemma StoreDiscovered(servers: Dict<Server>, tools: Dict<Tool>, stats: RoutingStats, server: Server, reply: Outcome<McpResponse>)
    requires Registry(servers, tools)
    ensures var d := Discover(server, tools, stats, reply);
            Registry(Set(servers, server.url, d.0), d.1)
  {
    var d := Discover(server, tools, stats, reply);
    var s' := Set(servers, server.url, d.0);
    SetDistinct(servers, server.url, d.0);
    SetEntries(servers, server.url, d.0);
    assert server.url in Keys(s');
    forall k | k in Keys(servers) ensures k in Keys(s') { }
    if ListingUsable(reply) {
      DiscoverOutcome(server, tools, stats, reply);
      RegisterAllEntries(tools, d.0.tools);
    }
  }

  /** A server's tools discovered, and the server stored under its URL. */
  method StoreServer(servers: Dict<Server>, tools: Dict<Tool>, stats: RoutingStats, server: Server,
                     reply: Outcome<McpResponse>)
    returns (servers': Dict<Server>, tools': Dict<Tool>, stats': RoutingStats)
    requires Registry(servers, tools)
    ensures Registry(servers', tools')
    ensures var d := Discover(server, tools, stats, reply);
            servers' == Set(servers, server.url, d.0) && tools' == d.1 && stats' == d.2
  {
    StoreDiscovered(servers, tools, stats, server, reply);
    var updated;
    updated, tools', stats' := DiscoverListing(server, tools, stats, reply);
    servers' := Set(servers, server.url, updated);
  }

  /** The tool table without the tools of the server at `url`, order kept. */
  function ToolsNotFrom(tools: Dict<Tool>, url: string): (r: Dict<Tool>)
    ensures forall e :: e in r <==> e in tools && e.value.serverUrl != url
  {
    if tools == [] then []
    else
      var init := ToolsNotFrom(tools[..|tools| - 1], url);
      var last := tools[|tools| - 1];
      SplitLast(tools);
      if last.value.serverUrl == url then init else init + [last]
  }

  /** Removal drops exactly the tools of that server: a name bound to one of them is
      gone, every other name keeps its binding. */
  lemma ToolsNotFromLookup(tools: Dict<Tool>, url: string, name: string)
    requires DistinctKeys(tools)
    ensures Get(ToolsNotFrom(tools, url), name)
            == if Get(tools, name).Some? && Get(tools, name).value.serverUrl == url then None else Get(tools, name)
  {
    var r := ToolsNotFrom(tools, url);
    match Get(tools, name)
    case None =>
      forall i | 0 <= i < |r| ensures r[i].key != name {
        var j :| 0 <= j < |tools| && tools[j] == r[i];
        assert Keys(tools)[j] == r[i].key;
      }
      assert name !in Keys(r);
    case Some(v) =>
      if v.serverUrl == url {
        forall i | 0 <= i < |r| ensures r[i].key != name {
          if r[i].key == name {
            EntryLookup(tools, name, r[i].value);
          }
        }
        assert name !in Keys(r);
      } else {
        ToolsNotFromDistinct(tools, url);
        EntryLookup(r, name, v);
      }
  }

  /** The three keys of one `get_server_info()` record. */
  function ServerInfo(server: Server): Json {
    JObj([Entry("connected", JBool(server.connected)),
          Entry("tool_count", JNum(|server.tools|)),
          Entry("tools", JArr(seq(|server.tools|, i requires 0 <= i < |server.tools| => JStr(server.tools[i].name))))])
  }

  /** A tool a search finds: the query occurs in its lower-cased name or description. */
  predicate ToolMatches(tool: Tool, query: string) {
    IsSubstring(query, Lower(tool.name)) || IsSubstring(query, Lower(tool.description))
  }

  /** The matching tools, in order. */
  function Matching(ts: seq<Tool>, query: string): seq<Tool> {
    if ts == [] then []
    else
      var init := Matching(ts[..|ts| - 1], query);
      if ToolMatches(ts[|ts| - 1], query) then init + [ts[|ts| - 1]] else init
  }

  /** The search result holds exactly the matching tools. */
  lemma {:induction false} MatchingMembers(ts: seq<Tool>, query: string, t: Tool)
    ensures t in Matching(ts, query) <==> t in ts && ToolMatches(t, query)
  {
    if ts != [] {
      MatchingMembers(ts[..|ts| - 1], query, t);
      assert ts == ts[..|ts| - 1] + [ts[|ts| - 1]];
    }
  }

  /** The search result keeps the order of the tools it was drawn from. */
  lemma {:induction false} MatchingSubsequence(ts: seq<Tool>, query: string)
    ensures IsSubsequence(Matching(ts, query), ts)
  {
    if ts != [] {
      var init := ts[..|ts| - 1];
      var last := ts[|ts| - 1];
      MatchingSubsequence(init, query);
      SplitLast(ts);
      if ToolMatches(last, query) {
        SubsequenceOfBothLonger(Matching(init, query), init, last);
      } else {
        SubsequenceOfLonger(Matching(init, query), init, last);
      }
    }
  }

  /** The refresh of every server, in table order, over the first `n` servers. */
  function RefreshAll(servers: Dict<Server>, tools: Dict<Tool>, stats: RoutingStats, listing: Listing, n: nat)
    : (Dict<Server>, Dict<Tool>, RoutingStats)
    requires n <= |servers|
  {
    if n == 0 then (servers, tools, stats)
    else
      var r := RefreshAll(servers, tools, stats, listing, n - 1);
      var server := servers[n - 1].value;
      var d := Discover(server, r.1, r.2, listing(server.url));
      (Set(r.0, servers[n - 1].key, d.0), d.1, d.2)
  }

  /** After refreshing the first `n` servers: the registry is consistent, the server
      keys are as they were, and the later servers are untouched. */
  ghost predicate RefreshedUpTo(servers: Dict<Server>, r: (Dict<Server>, Dict<Tool>, RoutingStats), n: nat) {
    && Registry(r.0, r.1) && Keys(r.0) == Keys(servers)
    && forall j :: n <= j < |servers| && j < |r.0| ==> r.0[j] == servers[j]
  }

  /** The loop of `refresh_tools()` without a server: every server, in table order,
      rediscovers its tools and is stored back under its key. */
  method RefreshEvery(servers: Dict<Server>, tools: Dict<Tool>, stats: RoutingStats, listing: Listing)
    returns (s: Dict<Server>, t: Dict<Tool>, st: RoutingStats)
    requires Registry(servers, tools)
    ensures (s, t, st) == RefreshAll(servers, tools, stats, listing, |servers|)
    ensures RefreshedUpTo(servers, (s, t, st), |servers|)
  {
    s, t, st := servers, tools, stats;
    var i := 0;
    while i < |servers|
      invariant i <= |servers|
      invariant (s, t, st) == RefreshAll(servers, tools, stats, listing, i)
      invariant RefreshedUpTo(servers, (s, t, st), i)
    {
      var server := servers[i].value;
      RefreshStep(servers, s, t, st, i, listing(server.url));
      ghost var d := Discover(server, t, st, listing(server.url));
      var updated;
      updated, t, st := DiscoverListing(server, t, st, listing(server.url));
      assert (updated, t, st) == d;
      s := Set(s, servers[i].key, updated);
      i := i + 1;
    }
  }

  /** One step of `RefreshAll` keeps the registry and the server keys, and leaves the
      later servers alone. */
  lemma RefreshStep(servers: Dict<Server>, s: Dict<Server>, t: Dict<Tool>, st: RoutingStats,
                    i: nat, reply: Outcome<McpResponse>)
    requires i < |servers| && RefreshedUpTo(servers, (s, t, st), i)
    ensures var d := Discover(servers[i].value, t, st, reply);
            RefreshedUpTo(servers, (Set(s, servers[i].key, d.0), d.1, d.2), i + 1)
  {
    var server := servers[i].value;
    assert |s| == |Keys(s)|;
    assert s[i] == servers[i] && servers[i] in s;
    StoreDiscovered(s, t, st, server, reply);
    var d := Discover(server, t, st, reply);
    assert Keys(s)[i] == servers[i].key;
    SetDistinct(s, servers[i].key, d.0);
    forall j | i < j < |servers| ensures s[j].key != servers[i].key {
      assert s[j].key == Keys(s)[j];
    }
  }

  /** `MultiMCPClient`. */
  class MultiMcpClient {
    var servers: Dict<Server>
    var tools: Dict<Tool>
    var stats: RoutingStats
    const securityManager: Security.SecurityManager?
    const enableSecurity: bool
    const timeout: int
    /** The screening API key the environment supplies, read when a server's client
        builds its own security manager. */
    const envKey: Option<string>

    ghost predicate Valid()
      reads this
    {
      Registry(servers, tools)
    }

    /** `MultiMCPClient(security_manager, enable_security, timeout)`. */
    constructor(envKey: Option<string>, securityManager: Security.SecurityManager? := null,
                enableSecurity: bool := true, timeout: int := 30)
      ensures servers == [] && tools == [] && stats == ZeroRoutingStats && Valid()
      ensures this.securityManager == securityManager && this.enableSecurity == enableSecurity
      ensures this.timeout == timeout && this.envKey == envKey
    {
      servers := [];
      tools := [];
      stats := ZeroRoutingStats;
      this.securityManager := securityManager;
      this.enableSecurity := enableSecurity;
      this.timeout := timeout;
      this.envKey := envKey;
    }

    /** Building a server's client fails: security is on, no manager is shared and the
        environment has no API key. */
    predicate ClientSetupFails() {
      enableSecurity && securityManager == null && (envKey.None? || envKey.value == "")
    }

    /** `_discover_tools(server)`, given what the server's `list_tools()` returned or
        raised; returns the updated server record. */
    method DiscoverTools(server: Server, reply: Outcome<McpResponse>) returns (updated: Server)
      modifies this
      ensures servers == old(servers)
      ensures (updated, tools, stats) == Discover(server, old(tools), old(stats), reply)
    {
      var table, counts;
      updated, table, counts := DiscoverListing(server, tools, stats, reply);
      tools := table;
      stats := counts;
    }

    /** `add_server(server_url)`. */
    method AddServer(serverUrl: string, health: Health, listing: Listing) returns (added: bool)
      requires Valid()
      modifies this
      ensures Valid()
      ensures added <==> Url.Normalize(serverUrl) !in Keys(old(servers)) && !ClientSetupFails()
                         && ConnectsTo(RStrip(Url.Normalize(serverUrl), '/'), health)
      ensures !added ==> servers == old(servers) && tools == old(tools) && stats == old(stats)
      ensures added ==>
                var nu := Url.Normalize(serverUrl);
                var (server, discovered, counters) := Discover(Server(nu, [], true), old(tools), old(stats), listing(nu));
                && servers == Set(old(servers), nu, server)
                && tools == discovered
                && stats == counters.(serversAdded := counters.serversAdded + 1)
    {
      var nu := Url.Normalize(serverUrl);
      added := false;
      if Get(servers, nu).None? {
        var client := McpClient.Create(nu, envKey, timeout, securityManager, enableSecurity);
        if client.Returned? && client.value.Connect(health) {
          servers, tools, stats := StoreServer(servers, tools, stats, Server(nu, [], true), listing(nu));
          stats := stats.(serversAdded := stats.serversAdded + 1);
          added := true;
        }
      }
    }

    /** `remove_server(server_url)`. */
    method RemoveServer(serverUrl: string) returns (removed: bool)
      requires Valid()
      modifies this
      ensures Valid()
      ensures removed <==> Url.Normalize(serverUrl) in Keys(old(servers))
      ensures !removed ==> servers == old(servers) && tools == old(tools)
      ensures removed ==> servers == Delete(old(servers), Url.Normalize(serverUrl))
                          && tools == ToolsNotFrom(old(tools), Url.Normalize(serverUrl))
      ensures stats == old(stats)
    {
      var nu := Url.Normalize(serverUrl);
      if Get(servers, nu).None? {
        return false;
      }
      ghost var before := tools;
      tools := DeleteToolsOf(tools, nu);
      RemoveKeepsRegistry(servers, before, nu);
      servers := Delete(servers, nu);
      return true;
    }

    /** `refresh_tools(server_url)`: one server when a non-empty URL is given (a URL
        not in the table is ignored), every server in table order otherwise. */
    method RefreshTools(serverUrl: Option<string>, listing: Listing)
      requires Valid()
      modifies this
      ensures Valid()
      ensures Keys(servers) == Keys(old(servers))
      ensures serverUrl.Some? && serverUrl.value != [] ==>
                var nu := Url.Normalize(serverUrl.value);
                if nu in Keys(old(servers)) then
                  var (server, discovered, counters) := Discover(Get(old(servers), nu).value, old(tools), old(stats), listing(nu));
                  servers == Set(old(servers), nu, server) && tools == discovered && stats == counters
                else servers == old(servers) && tools == old(tools) && stats == old(stats)
      ensures serverUrl.None? || serverUrl.value == [] ==>
                (servers, tools, stats) == RefreshAll(old(servers), old(tools), old(stats), listing, |old(servers)|)
    {
      if serverUrl.Some? && serverUrl.value != [] {
        var nu := Url.Normalize(serverUrl.value);
        var found := Get(servers, nu);
        if found.Some? {
          var server := found.value;
          assert server.url == nu;
          StoreDiscovered(servers, tools, stats, server, listing(nu));
          server := DiscoverTools(server, listing(nu));
          servers := Set(servers, nu, server);
        }
      } else {
        servers, tools, stats := RefreshEvery(servers, tools, stats, listing);
      }
    }

    /** `list_tools()`: every registered tool, in table order. */
    function ListTools(): (r: seq<Tool>)
      reads this
      ensures |r| == |tools|
      ensures forall i :: 0 <= i < |r| ==> r[i] == tools[i].value
      ensures Valid() ==> forall t :: t in r ==> t.serverUrl in Keys(servers)
    {
      Values(tools)
    }

    /** `find_tool(tool_name)`. */
    function FindTool(toolName: string): (r: Option<Tool>)
      reads this
      ensures r.None? <==> toolName !in Keys(tools)
      ensures r.Some? ==> Entry(toolName, r.value) in tools
      ensures Valid() && r.Some? ==> r.value.name == toolName && r.value.serverUrl in Keys(servers)
    {
      Get(tools, toolName)
    }

    /** `search_tools(query)`. */
    method SearchTools(query: string) returns (matches: seq<Tool>)
      ensures matches == Matching(ListTools(), Lower(query))
      ensures forall t :: t in matches <==> t in ListTools() && ToolMatches(t, Lower(query))
      ensures IsSubsequence(matches, ListTools())
    {
      var q := Lower(query);
      var all := Values(tools);
      matches := [];
      var i := 0;
      while i < |all|
        invariant 0 <= i <= |all|
        invariant matches == Matching(all[..i], q)
      {
        assert all[..i + 1][..i] == all[..i];
        if ToolMatches(all[i], q) {
          matches := matches + [all[i]];
        }
        i := i + 1;
      }
      assert all[..i] == all;
      forall t ensures t in matches <==> t in all && ToolMatches(t, q) {
        MatchingMembers(all, q, t);
      }
      MatchingSubsequence(all, q);
    }

    /** `call_tool(tool_name, arguments)`: routed to the server that advertised the
        tool; a routing error is counted when that server's client raises. */
    method CallTool(toolName: string, arguments: Dict<Json>, invoke: Invoke) returns (r: Outcome<McpResponse>)
      modifies this
      ensures servers == old(servers) && tools == old(tools)
      ensures toolName !in Keys(tools) ==> r == Raised(ValueError("Tool '" + toolName + "' not found")) && stats == old(stats)
      ensures toolName in Keys(tools) && Get(tools, toolName).value.serverUrl !in Keys(servers) ==>
                r == Raised(ValueError("Server for tool '" + toolName + "' not available")) && stats == old(stats)
      ensures toolName in Keys(tools) && Get(tools, toolName).value.serverUrl in Keys(servers) ==>
                && r == invoke(Get(tools, toolName).value.serverUrl, toolName, arguments)
                && stats == old(stats).(requestsRouted := old(stats).requestsRouted + 1,
                                        routingErrors := old(stats).routingErrors + if r.Raised? then 1 else 0)
      ensures Valid() && toolName in Keys(tools) ==> stats.requestsRouted == old(stats).requestsRouted + 1
    {
      var tool := FindTool(toolName);
      if tool.None? {
        return Raised(ValueError("Tool '" + toolName + "' not found"));
      }
      var server := Get(servers, tool.value.serverUrl);
      if server.None? {
        return Raised(ValueError("Server for tool '" + toolName + "' not available"));
      }
      stats := stats.(requestsRouted := stats.requestsRouted + 1);
      r := invoke(tool.value.serverUrl, toolName, arguments);
      if r.Raised? {
        stats := stats.(routingErrors := stats.routingErrors + 1);
      }
    }

    /** `get_server_info()`: one record per server, keyed by its URL, in table order. */
    method GetServerInfo() returns (info: Dict<Json>)
      requires DistinctKeys(servers)
      ensures Keys(info) == Keys(servers)
      ensures forall url :: Get(info, url) == if url in Keys(servers) then Some(ServerInfo(Get(servers, url).value)) else None
    {
      info := [];
      var i := 0;
      while i < |servers|
        invariant 0 <= i <= |servers|
        invariant info == MapValues(servers[..i], ServerInfo)
      {
        MapValuesSnoc(servers, ServerInfo, i);
        info := Set(info, servers[i].key, ServerInfo(servers[i].value));
        i := i + 1;
      }
      assert servers[..i] == servers;
      forall url ensures Get(info, url) == if url in Keys(servers) then Some(ServerInfo(Get(servers, url).value)) else None {
        GetMapValues(servers, ServerInfo, url);
      }
    }

    /** `get_stats()`. */
    function GetStats(): (r: Dict<int>)
      reads this
      ensures r == StatsReport(stats, |servers|, |tools|)
      ensures Valid() ==> |servers| == |KeySet(servers)| && |tools| == |KeySet(tools)|
    {
      TableSize(servers);
      TableSize(tools);
      StatsReport(stats, |servers|, |tools|)
    }

    /** `close()`: both tables are emptied; the counters stay. */
    method Close()
      modifies this
      ensures servers == [] && tools == [] && stats == old(stats) && Valid()
    {
      servers := [];
      tools := [];
    }
  }

  /** A copy of the counters updated with the two table sizes: the four counters in
      the order the client creates them, then `total_servers` and `total_tools`. */
  function StatsReport(stats: RoutingStats, totalServers: nat, totalTools: nat): Dict<int> {
    [Entry("servers_added", stats.serversAdded as int),
     Entry("tools_discovered", stats.toolsDiscovered as int),
     Entry("requests_routed", stats.requestsRouted as int),
     Entry("routing_errors", stats.routingErrors as int),
     Entry("total_servers", totalServers as int),
     Entry("total_tools", totalTools as int)]
  }

  /** The report holds the four counters and the two sizes, each under its own key. */
  lemma StatsReportFacts(stats: RoutingStats, totalServers: nat, totalTools: nat)
    ensures var r := StatsReport(stats, totalServers, totalTools);
            && Keys(r) == ["servers_added", "tools_discovered", "requests_routed", "routing_errors", "total_servers", "total_tools"]
            && Get(r, "servers_added") == Some(stats.serversAdded as int)
            && Get(r, "tools_discovered") == Some(stats.toolsDiscovered as int)
            && Get(r, "requests_routed") == Some(stats.requestsRouted as int)
            && Get(r, "routing_errors") == Some(stats.routingErrors as int)
            && Get(r, "total_servers") == Some(totalServers as int)
            && Get(r, "total_tools") == Some(totalTools as int)
  {
    var r := StatsReport(stats, totalServers, totalTools);
    var ks := ["servers_added", "tools_discovered", "requests_routed", "routing_errors", "total_servers", "total_tools"];
    assert Keys(r) == ks;
    assert forall i, j :: 0 <= i < j < |ks| ==> ks[i] != ks[j];
    assert DistinctKeys(r) by {
      forall i, j | 0 <= i < j < |r| ensures r[i].key != r[j].key {
        assert r[i].key == ks[i] && r[j].key == ks[j];
      }
    }
    GetEntry(r, 0);
    GetEntry(r, 1);
    GetEntry(r, 2);
    GetEntry(r, 3);
    GetEntry(r, 4);
    GetEntry(r, 5);
  }

  /** The tools of the server at `nu`, collected by name in table order, deleted
      one by one from the table. */
  method DeleteToolsOf(tools: Dict<Tool>, nu: string) returns (table: Dict<Tool>)
    requires DistinctKeys(tools)
    ensures table == ToolsNotFrom(tools, nu)
  {
    table := tools;
    var i := 0;
    while i < |tools|
      invariant 0 <= i <= |tools|
      invariant table == ToolsNotFrom(tools[..i], nu) + tools[i..]
    {
      RemoveStep(tools, i, nu);
      if tools[i].value.serverUrl == nu {
        table := Delete(table, tools[i].key);
      }
      i := i + 1;
    }
    assert tools[..i] == tools;
  }

  /** One step of the removal loop: deleting the next tool's name when it belongs to
      the server removes exactly that entry. */
  lemma RemoveStep(snapshot: Dict<Tool>, i: nat, nu: string)
    requires DistinctKeys(snapshot) && i < |snapshot|
    ensures var current := ToolsNotFrom(snapshot[..i], nu) + snapshot[i..];
            ToolsNotFrom(snapshot[..i + 1], nu) + snapshot[i + 1..]
            == if snapshot[i].value.serverUrl == nu then Delete(current, snapshot[i].key) else current
  {
    var e := snapshot[i];
    var kept := ToolsNotFrom(snapshot[..i], nu);
    var rest := snapshot[i + 1..];
    assert snapshot[..i + 1] == snapshot[..i] + [e];
    assert snapshot[..i + 1][..i] == snapshot[..i];
    assert snapshot[i..] == [e] + rest;
    if e.value.serverUrl == nu {
      assert e.key !in Keys(kept) by {
        forall j | 0 <= j < |kept| ensures kept[j].key != e.key {
          assert kept[j] in snapshot[..i];
          var m :| 0 <= m < i && snapshot[..i][m] == kept[j];
          assert snapshot[m] == kept[j];
        }
      }
      assert e.key !in Keys(rest) by {
        forall j | 0 <= j < |rest| ensures rest[j].key != e.key {
          assert rest[j] == snapshot[i + 1 + j];
        }
      }
      DeleteConcat(kept, [e] + rest, e.key);
      DeleteFacts(kept, e.key);
      DeleteFacts(rest, e.key);
      assert Delete([e] + rest, e.key) == Delete(rest, e.key);
    }
  }

  /** Removing a server with its tools keeps the registry consistent. */
  lemma RemoveKeepsRegistry(servers: Dict<Server>, tools: Dict<Tool>, nu: string)
    requires Registry(servers, tools)
    ensures Registry(Delete(servers, nu), ToolsNotFrom(tools, nu))
  {
    DeleteDistinct(servers, nu);
    DeleteFacts(servers, nu);
    ToolsNotFromDistinct(tools, nu);
    forall e | e in ToolsNotFrom(tools, nu) ensures e.value.serverUrl in Keys(Delete(servers, nu)) {
      assert e.value.serverUrl != nu && Get(servers, e.value.serverUrl).Some?;
    }
  }

  /** Removal keeps tool names distinct. */
  lemma {:induction false} ToolsNotFromDistinct(tools: Dict<Tool>, url: string)
    requires DistinctKeys(tools)
    ensures DistinctKeys(ToolsNotFrom(tools, url))
  {
    if tools != [] {
      var init := tools[..|tools| - 1];
      var last := tools[|tools| - 1];
      ToolsNotFromDistinct(init, url);
      var kept := ToolsNotFrom(init, url);
      forall j | 0 <= j < |kept| ensures kept[j].key != last.key {
        assert kept[j] in init;
        var m :| 0 <= m < |init| && init[m] == kept[j];
        assert tools[m] == kept[j];
      }
    }
  }

  /** The size of a table without repeated keys is its number of keys. */
  lemma TableSize<V>(d: Dict<V>)
    ensures DistinctKeys(d) ==> |d| == |KeySet(d)|
  {
    if DistinctKeys(d) {
      DistinctKeysCount(d);
    }
  }
}
