/** The remote MCP connection-state table
    (packages/tiles-playground/lib/mcp-client-manager.ts).

    The manager keeps one `ConnectionState` per server id. The MCP client
    library is foreign: what `client.connect`, `client.listTools` and
    `client.callTool` do is passed in as an outcome value, and the client
    object itself is an opaque handle. Event listeners registered on a
    client are the `On...` methods, which the environment calls. */
module McpClients {
  import opened Common

  datatype Status = Disconnected | Connecting | Connected | Errored | AuthRequired

  function StatusName(s: Status): (r: string)
    ensures |r| > 0
  {
    match s
    case Disconnected => "disconnected"
    case Connecting => "connecting"
    case Connected => "connected"
    case Errored => "error"
    case AuthRequired => "auth-required"
  }

  datatype Tool = Tool(name: string, description: Option<string>, inputSchema: Option<Json>)

  /** A tool as `listTools` reports it, possibly with fields beyond the three kept. */
  datatype ListedTool = ListedTool(
    name: string, description: Option<string>, inputSchema: Option<Json>, extra: Object)

  /** An MCP client object, known only by its identity. */
  datatype Client = Client(handle: nat)

  datatype ConnectionState = ConnectionState(
    status: Status,
    client: Option<Client>,
    tools: seq<Tool>,
    lastConnected: Option<int>,
    errorMessage: Option<string>)

  datatype Category = Payments | Development | Productivity | Data

  datatype RemoteServerConfig = RemoteServerConfig(
    id: string,
    name: string,
    url: string,
    requiresAuth: bool,
    enabled: bool,
    category: Option<Category>,
    description: Option<string>,
    icon: Option<string>)

  /** One block of a tool result. Only text blocks carry `text`. */
  datatype ContentItem =
    | TextItem(text: Option<string>)
    | ImageItem(data: Option<string>, mimeType: Option<string>)
    | ResourceItem(uri: Option<string>)
    | OtherItem(json: Json)

  datatype ToolResult = ToolResult(content: seq<ContentItem>, isError: bool)

  /** What `client.connect(url)` does: resolve, or reject with an `Error`
      message (`None` for a thrown non-`Error`). */
  datatype TransportOutcome = Connects(client: Client) | ConnectFails(message: Option<string>)

  datatype ListOutcome = Listed(tools: seq<ListedTool>) | ListFails

  /** What `client.callTool` resolves with. */
  datatype RawCallResult =
    | RawText(text: string)
    | RawObject(content: Option<seq<ContentItem>>, isError: bool, json: Json)

  datatype RemoteCall = CallResolved(result: RawCallResult) | CallRejected(message: Option<string>)

  /** Everything the environment decides during one `connectServer`: the
      two clock readings, the transport outcome and the tool listing. */
  datatype ConnectAttempt = ConnectAttempt(
    startedAt: int, transport: TransportOutcome, connectedAt: int, listing: ListOutcome)

  type Table = map<string, ConnectionState>

  // ------------------------------------------------------------ the table rules

  /** An entry can only list tools and carry a timestamp of its own making:
      tools come from a client's listing, and a client is stored only
      together with the time its connection was made. */
  predicate WellFormed(s: ConnectionState)
  {
    (|s.tools| > 0 ==> s.client.Some?) && (s.client.Some? ==> s.lastConnected.Some?)
  }

  predicate WellFormedTable(t: Table)
  {
    forall id :: id in t ==> WellFormed(t[id])
  }

  function ProjectTools(listed: seq<ListedTool>): (r: seq<Tool>)
    ensures |r| == |listed|
    ensures forall i :: 0 <= i < |r| ==>
      r[i] == Tool(listed[i].name, listed[i].description, listed[i].inputSchema)
    decreases |listed|
  {
    if |listed| == 0 then []
    else [Tool(listed[0].name, listed[0].description, listed[0].inputSchema)] + ProjectTools(listed[1..])
  }

  const ConnectingState := ConnectionState(Connecting, None, [], None, None)
  const DisconnectedState := ConnectionState(Disconnected, None, [], None, None)

  function ErrorState(message: Option<string>): ConnectionState
  {
    ConnectionState(Errored, None, [], None,
      Some(if message.Some? then message.value else "Unknown connection error"))
  }

  /** `refreshTools`: only a connected entry with a client is refreshed,
      and a failed listing keeps the tools it had. */
  function Refreshed(t: Table, serverId: string, listing: ListOutcome): (r: Table)
  {
    if serverId in t && t[serverId].client.Some? && t[serverId].status == Connected && listing.Listed?
    then t[serverId := t[serverId].(tools := ProjectTools(listing.tools))]
    else t
  }

  /** The entry `connectServer` leaves and returns. */
  function ConnectedEntry(config: RemoteServerConfig, a: ConnectAttempt): (s: ConnectionState)
  {
    match a.transport
    case ConnectFails(m) => ErrorState(m)
    case Connects(c) =>
      var made := ConnectionState(Connected, Some(c), [], Some(a.connectedAt), None);
      Refreshed(map[config.id := made], config.id, a.listing)[config.id]
  }

  function StatusUpdated(t: Table, serverId: string, status: Status, message: Option<string>): (r: Table)
  {
    if serverId in t then
      var prev := t[serverId];
      t[serverId := prev.(status := status,
                         errorMessage := if Present(message) then message else prev.errorMessage)]
    else t
  }

  /** The message `executeRemoteTool` rejects with or the result it resolves with. */
  function RemoteToolOutcome(t: Table, serverId: string, toolName: string, call: RemoteCall,
                             stringify: Json -> string): (r: Result<ToolResult, string>)
  {
    if serverId !in t then Failure("No connection found for server " + serverId)
    else if t[serverId].status != Connected || t[serverId].client.None? then
      Failure("Server " + serverId + " is not connected (status: " + StatusName(t[serverId].status) + ")")
    else
      match call
      case CallRejected(m) =>
        Ok(ToolResult([TextItem(Some("Error executing " + toolName + ": "
                                     + (if m.Some? then m.value else "Unknown error")))], true))
      case CallResolved(RawText(s)) =>
        Ok(ToolResult([TextItem(Some(s))], false))
      case CallResolved(RawObject(content, _, json)) =>
        Ok(ToolResult(if content.Some? then content.value else [TextItem(Some(stringify(json)))], false))
  }

  // ------------------------------------------------------------ properties

  /** `connectServer` never rejects: it ends in 'connected' with the new
      client, or in 'error' with no client, no tools and a message. */
  lemma ConnectOutcomes(config: RemoteServerConfig, a: ConnectAttempt)
    ensures var s := ConnectedEntry(config, a);
      (a.transport.Connects? ==> s.status == Connected && s.client == Some(a.transport.client)
                                 && s.lastConnected == Some(a.connectedAt) && s.errorMessage.None?)
      && (a.transport.ConnectFails? ==> s.status == Errored && s.client.None? && s.tools == []
                                        && s.lastConnected.None?
                                        && s.errorMessage == Some(if a.transport.message.Some? then a.transport.message.value
                                                               else "Unknown connection error"))
      && (a.transport.Connects? && a.listing.Listed? ==> s.tools == ProjectTools(a.listing.tools))
      && (a.transport.Connects? && a.listing.ListFails? ==> s.tools == [])
  {
  }

  /** `refreshTools` replaces the tool list exactly when the entry is a
      connected one with a client and listing succeeds; nothing else in
      the table changes. */
  lemma {:induction false} RefreshOnlyWhenConnected(t: Table, serverId: string, listing: ListOutcome)
    ensures var r := Refreshed(t, serverId, listing);
      r.Keys == t.Keys
      && (forall id :: id in t && id != serverId ==> r[id] == t[id])
      && (serverId in t ==> r[serverId].(tools := t[serverId].tools) == t[serverId])
      && (r != t ==> serverId in t && t[serverId].status == Connected && t[serverId].client.Some?
                     && listing.Listed? && r[serverId].tools == ProjectTools(listing.tools))
      && (listing.ListFails? ==> r == t)
  {
    var r := Refreshed(t, serverId, listing);
    if serverId in t {
      assert r[serverId].(tools := t[serverId].tools) == t[serverId];
    }
  }

  /** `updateConnectionStatus` never adds an entry, and keeps the previous
      error message unless a non-empty one is given. */
  lemma StatusUpdateOnlyExisting(t: Table, serverId: string, status: Status, message: Option<string>)
    ensures var r := StatusUpdated(t, serverId, status, message);
      r.Keys == t.Keys
      && (serverId !in t ==> r == t)
      && (serverId in t ==> r[serverId].status == status
                            && r[serverId].client == t[serverId].client
                            && r[serverId].tools == t[serverId].tools
                            && r[serverId].errorMessage == (if Present(message) then message else t[serverId].errorMessage))
      && (forall id :: id in t && id != serverId ==> r[id] == t[id])
  {
  }

  /** `executeRemoteTool` rejects without calling the tool exactly when the
      server has no entry or is not a connected entry with a client, with
      the source's two messages; once it calls, it resolves, and only a
      rejected call is flagged `isError`, as one text block naming the
      tool and the message. Content that is not an array becomes one text
      block: a raw string as it is, an object stringified. */
  lemma RemoteToolFailuresAndErrors(t: Table, serverId: string, toolName: string, call: RemoteCall,
                                    stringify: Json -> string)
    ensures var r := RemoteToolOutcome(t, serverId, toolName, call, stringify);
      (r.Failure? <==> serverId !in t || t[serverId].status != Connected || t[serverId].client.None?)
      && (serverId !in t ==> r == Failure("No connection found for server " + serverId))
      && (serverId in t && (t[serverId].status != Connected || t[serverId].client.None?) ==>
            r == Failure("Server " + serverId + " is not connected (status: " + StatusName(t[serverId].status) + ")"))
      && (r.Ok? ==> (r.value.isError <==> call.CallRejected?))
      && (r.Ok? && call.CallRejected? ==>
            r.value.content == [TextItem(Some("Error executing " + toolName + ": "
                                              + (if call.message.Some? then call.message.value else "Unknown error")))])
      && (r.Ok? && call.CallResolved? && call.result.RawText? ==> r.value.content == [TextItem(Some(call.result.text))])
      && (r.Ok? && call.CallResolved? && call.result.RawObject? && call.result.content.None? ==>
            r.value.content == [TextItem(Some(stringify(call.result.json)))])
      && (r.Ok? && call.CallResolved? && call.result.RawObject? && call.result.content.Some? ==>
            r.value.content == call.result.content.value)
  {
  }

  /** A server-side error flag on a resolved call is dropped. */
  lemma ServerErrorFlagDropped(t: Table, serverId: string, toolName: string,
                               content: seq<ContentItem>, json: Json, stringify: Json -> string)
    requires serverId in t && t[serverId].status == Connected && t[serverId].client.Some?
    ensures RemoteToolOutcome(t, serverId, toolName, CallResolved(RawObject(Some(content), true, json)), stringify)
            == Ok(ToolResult(content, false))
  {
  }

  /** Every operation keeps each entry well formed. */
  lemma {:induction false} OperationsPreserveWellFormed(t: Table, serverId: string, listing: ListOutcome,
                                                       status: Status, message: Option<string>,
                                                       config: RemoteServerConfig, a: ConnectAttempt)
    requires WellFormedTable(t)
    ensures WellFormedTable(Refreshed(t, serverId, listing))
    ensures WellFormedTable(StatusUpdated(t, serverId, status, message))
    ensures WellFormedTable(t[config.id := ConnectingState])
    ensures WellFormedTable(t[config.id := ConnectedEntry(config, a)])
    ensures WellFormedTable(t[serverId := DisconnectedState])
  {
    var r := Refreshed(t, serverId, listing);
    forall id | id in r ensures WellFormed(r[id]) {
      if id == serverId && r != t {
        assert t[serverId].client.Some?;
      }
    }
    var u := StatusUpdated(t, serverId, status, message);
    forall id | id in u ensures WellFormed(u[id]) {
      assert WellFormed(t[id]);
    }
    var e := ConnectedEntry(config, a);
    assert WellFormed(e);
  }

  /** Refreshing an entry just stored is refreshing it on its own. */
  lemma RefreshedOver(t: Table, serverId: string, made: ConnectionState, listing: ListOutcome)
    ensures Refreshed(t[serverId := made], serverId, listing)
            == t[serverId := Refreshed(map[serverId := made], serverId, listing)[serverId]]
  {
  }

  // ------------------------------------------------------------ the manager

  class MCPClientManager {
    var connections: Table

    constructor ()
      ensures connections == map[]
    {
      connections := map[];
    }

    ghost predicate Valid()
      reads this
    {
      WellFormedTable(connections)
    }

    /** `connectServer`: mark the entry 'connecting', then record the
        outcome of the transport and, on success, the tool listing. */
    method ConnectServer(config: RemoteServerConfig, a: ConnectAttempt) returns (state: ConnectionState)
      requires Valid()
      modifies this
      ensures Valid()
      ensures connections == old(connections)[config.id := ConnectedEntry(config, a)]
      ensures state == connections[config.id]
    {
      connections := connections[config.id := ConnectingState.(lastConnected := Some(a.startedAt))];
      match a.transport {
        case ConnectFails(m) =>
          state := ErrorState(m);
          connections := connections[config.id := state];
        case Connects(c) =>
          var made := ConnectionState(Connected, Some(c), [], Some(a.connectedAt), None);
          connections := connections[config.id := made];
          assert connections == old(connections)[config.id := made];
          RefreshTools(config.id, a.listing);
          RefreshedOver(old(connections), config.id, made, a.listing);
          state := connections[config.id];
      }
      OperationsPreserveWellFormed(old(connections), config.id, a.listing, Connected, None, config, a);
    }

    /** `disconnectServer`: close the client if there is one (a failing
        close is ignored), then store 'disconnected' for any id. */
    method DisconnectServer(serverId: string) returns (closed: Option<Client>)
      requires Valid()
      modifies this
      ensures Valid()
      ensures connections == old(connections)[serverId := DisconnectedState]
      ensures closed == (if serverId in old(connections) then old(connections)[serverId].client else None)
    {
      closed := None;
      if serverId in connections && connections[serverId].client.Some? {
        closed := connections[serverId].client;
      }
      connections := connections[serverId := DisconnectedState];
    }

    method RefreshTools(serverId: string, listing: ListOutcome)
      modifies this
      ensures connections == Refreshed(old(connections), serverId, listing)
    {
      if serverId !in connections || connections[serverId].client.None?
         || connections[serverId].status != Connected {
        return;
      }
      match listing {
        case ListFails =>
        case Listed(tools) =>
          var entry := connections[serverId];
          connections := connections[serverId := entry.(tools := ProjectTools(tools))];
      }
    }

    /** `executeRemoteTool` reads the table and changes nothing. */
    method ExecuteRemoteTool(serverId: string, toolName: string, args: Object, call: RemoteCall,
                             stringify: Json -> string)
      returns (r: Result<ToolResult, string>)
      ensures r == RemoteToolOutcome(connections, serverId, toolName, call, stringify)
    {
      var connection := Get(connections, serverId);
      if connection.None? {
        return Failure("No connection found for server " + serverId);
      }
      if connection.value.status != Connected || connection.value.client.None? {
        return Failure("Server " + serverId + " is not connected (status: "
                       + StatusName(connection.value.status) + ")");
      }
      match call {
        case CallRejected(m) =>
          var why := if m.Some? then m.value else "Unknown error";
          r := Ok(ToolResult([TextItem(Some("Error executing " + toolName + ": " + why))], true));
        case CallResolved(RawText(s)) =>
          r := Ok(ToolResult([TextItem(Some(s))], false));
        case CallResolved(RawObject(content, _, json)) =>
          if content.Some? {
            r := Ok(ToolResult(content.value, false));
          } else {
            r := Ok(ToolResult([TextItem(Some(stringify(json)))], false));
          }
      }
    }

    function GetConnectionState(serverId: string): (r: Option<ConnectionState>)
      reads this
      ensures r.Some? <==> serverId in connections
      ensures r.Some? ==> r.value == connections[serverId]
    {
      Get(connections, serverId)
    }

    /** `new Map(this.connections)`: a new map with the same ids and
        entries. The entries themselves are shared with the manager in the
        code; here they are values. */
    function GetAllConnections(): (r: Table)
      reads this
      ensures r.Keys == connections.Keys
      ensures forall id :: id in r ==> r[id] == connections[id]
    {
      connections
    }

    function GetAvailableTools(serverId: string): (r: seq<Tool>)
      reads this
      ensures serverId !in connections ==> r == []
      ensures serverId in connections ==> r == connections[serverId].tools
    {
      if serverId in connections then connections[serverId].tools else []
    }

    method UpdateConnectionStatus(serverId: string, status: Status, message: Option<string>)
      requires Valid()
      modifies this
      ensures Valid()
      ensures connections == StatusUpdated(old(connections), serverId, status, message)
    {
      if serverId in connections {
        var entry := connections[serverId];
        entry := entry.(status := status);
        if Present(message) {
          entry := entry.(errorMessage := message);
        }
        connections := connections[serverId := entry];
      }
      OperationsPreserveWellFormed(old(connections), serverId, ListFails, status, message,
                                   RemoteServerConfig(serverId, "", "", false, false, None, None, None),
                                   ConnectAttempt(0, ConnectFails(None), 0, ListFails));
    }

    /** The 'connected' listener: mark connected, then refresh the tools. */
    method OnConnected(serverId: string, listing: ListOutcome)
      requires Valid()
      modifies this
      ensures Valid()
      ensures connections == Refreshed(StatusUpdated(old(connections), serverId, Connected, None), serverId, listing)
    {
      UpdateConnectionStatus(serverId, Connected, None);
      ghost var mid := connections;
      RefreshTools(serverId, listing);
      OperationsPreserveWellFormed(mid, serverId, listing, Connected, None,
                                   RemoteServerConfig(serverId, "", "", false, false, None, None, None),
                                   ConnectAttempt(0, ConnectFails(None), 0, ListFails));
    }

    method OnDisconnected(serverId: string)
      requires Valid()
      modifies this
      ensures Valid()
      ensures connections == StatusUpdated(old(connections), serverId, Disconnected, None)
    {
      UpdateConnectionStatus(serverId, Disconnected, None);
    }

    /** The 'error' listener passes the event's message, if any. */
    method OnError(serverId: string, message: Option<string>)
      requires Valid()
      modifies this
      ensures Valid()
      ensures connections == StatusUpdated(old(connections), serverId, Errored, message)
    {
      UpdateConnectionStatus(serverId, Errored, message);
    }

    method OnOAuthRedirect(serverId: string)
      requires Valid()
      modifies this
      ensures Valid()
      ensures connections == StatusUpdated(old(connections), serverId, AuthRequired, None)
    {
      UpdateConnectionStatus(serverId, AuthRequired, None);
    }
  }

  // ------------------------------------------------------------ seeded servers

  const RemoteServers: seq<RemoteServerConfig> := [
    RemoteServerConfig("fetch", "Fetch", "https://remote.mcpservers.org/fetch/mcp",
                       false, false, Some(Data), Some("Web search tools"), None),
    RemoteServerConfig("kite", "Kite - Zerodha", "https://mcp.kite.trade/sse",
                       true, false, Some(Data), Some("Zerodha Kite trade tools"), None),
    RemoteServerConfig("github", "GitHub", "https://api.githubcopilot.com/mcp/",
                       true, false, Some(Development), Some("Repository and issue management"),
                       Some("\U{1F419}")),
    RemoteServerConfig("sentry", "Sentry", "https://mcp.sentry.dev/sse",
                       true, false, Some(Development),
                       Some("Developer-first error tracking and performance monitoring platform"), None),
    RemoteServerConfig("linear", "Linear", "https://mcp.linear.app/sse",
                       true, false, Some(Productivity), Some("Project management tool"), None),
    RemoteServerConfig("paypal", "PayPal", "https://mcp.paypal.com/sse",
                       true, false, Some(Payments), Some("Global online payment system"), None),
    RemoteServerConfig("asana", "Asana", "https://mcp.asana.com/sse",
                       true, false, Some(Productivity), Some("Project management tool"), None),
    RemoteServerConfig("sequential-thinking", "Sequential Thinking",
                       "https://remote.mcpservers.org/sequentialthinking/mcp",
                       false, false, Some(Productivity),
                       Some("Dynamic and reflective problem-solving through structured thinking process"), None),
    RemoteServerConfig("edgeone-pages", "EdgeOne Pages", "https://remote.mcpservers.org/edgeone-pages/mcp",
                       false, false, Some(Development),
                       Some("Deploy HTML content to EdgeOne Pages and obtain accessible public URLs"), None)
  ]

  /** The nine seeded servers have distinct ids and are all disabled. */
  lemma RemoteServersDistinctAndDisabled()
    ensures |RemoteServers| == 9
    ensures forall i, j :: 0 <= i < j < |RemoteServers| ==> RemoteServers[i].id != RemoteServers[j].id
    ensures forall i :: 0 <= i < |RemoteServers| ==> !RemoteServers[i].enabled
  {
  }
}
