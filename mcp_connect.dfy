/** The `/api/mcp-connect` route (packages/tiles-playground/pages/api/mcp-connect.ts).

    An `action` selects one operation of the connection-state table:
    connect, disconnect, list the connections, fetch one server's tools,
    or list again ('refresh-states'). Listings drop the client objects. */
module McpConnectRoute {
  import opened Common
  import opened McpClients

  datatype ConnectRequest = ConnectRequest(
    httpMethod: string,
    action: Option<string>,
    serverConfig: Option<RemoteServerConfig>,
    serverId: Option<string>)

  /** A connection state without its client, as it is sent. */
  datatype Serialised = Serialised(
    status: Status, tools: seq<Tool>, lastConnected: Option<int>, errorMessage: Option<string>)

  function Strip(s: ConnectionState): Serialised
  {
    Serialised(s.status, s.tools, s.lastConnected, s.errorMessage)
  }

  datatype ConnectReply = ConnectReply(
    status: int,
    success: bool,
    error: Option<string>,
    connectionState: Option<ConnectionState>,
    connections: Option<map<string, Serialised>>,
    tools: Option<seq<Tool>>)

  function Fail(status: int, message: string): ConnectReply
  {
    ConnectReply(status, false, Some(message), None, None, None)
  }

  const Ok200 := ConnectReply(200, true, None, None, None, None)

  datatype Action =
    | Refuse(reply: ConnectReply)
    | DoConnect(config: RemoteServerConfig)
    | DoDisconnect(serverId: string)
    | DoList
    | DoGetTools(serverId: string)

  /** The dispatch and the checks that need no state. */
  function Dispatch(req: ConnectRequest): (a: Action)
    ensures req.httpMethod != "POST" ==> a == Refuse(Fail(405, "Method not allowed"))
    ensures req.httpMethod == "POST" && !Present(req.action) ==> a == Refuse(Fail(400, "action is required"))
    ensures a.DoConnect? <==> req.httpMethod == "POST" && req.action == Some("connect") && req.serverConfig.Some?
    ensures a.DoDisconnect? <==> req.httpMethod == "POST" && req.action == Some("disconnect") && Present(req.serverId)
    ensures a.DoGetTools? <==> req.httpMethod == "POST" && req.action == Some("get-tools") && Present(req.serverId)
    ensures a.DoList? <==>
      (req.httpMethod == "POST" && (req.action == Some("list-connections") || req.action == Some("refresh-states")))
    ensures a.Refuse? ==> a.reply.status in {400, 405} && !a.reply.success
  {
    if req.httpMethod != "POST" then Refuse(Fail(405, "Method not allowed"))
    else if !Present(req.action) then Refuse(Fail(400, "action is required"))
    else
      var action := req.action.value;
      if action == "connect" then
        if req.serverConfig.None? then Refuse(Fail(400, "serverConfig is required for connect action"))
        else DoConnect(req.serverConfig.value)
      else if action == "disconnect" then
        if !Present(req.serverId) then Refuse(Fail(400, "serverId is required for disconnect action"))
        else DoDisconnect(req.serverId.value)
      else if action == "list-connections" || action == "refresh-states" then DoList
      else if action == "get-tools" then
        if !Present(req.serverId) then Refuse(Fail(400, "serverId is required for get-tools action"))
        else DoGetTools(req.serverId.value)
      else Refuse(Fail(400, "Unsupported action: " + action))
  }

  /** An action outside the five known ones is refused by name. */
  lemma UnknownActionRefused(req: ConnectRequest)
    requires req.httpMethod == "POST" && Present(req.action)
    requires req.action.value !in {"connect", "disconnect", "list-connections", "refresh-states", "get-tools"}
    ensures Dispatch(req) == Refuse(Fail(400, "Unsupported action: " + req.action.value))
  {
  }

  function SerialisedTable(t: Table): (r: map<string, Serialised>)
    ensures r.Keys == t.Keys
    ensures forall id :: id in r ==> r[id] == Strip(t[id])
  {
    map id | id in t :: Strip(t[id])
  }

  /** The `forEach` that copies each entry without its client. */
  method SerialiseConnections(t: Table) returns (obj: map<string, Serialised>)
    ensures obj == SerialisedTable(t)
  {
    obj := map[];
    var pending := t.Keys;
    while pending != {}
      invariant pending <= t.Keys
      invariant obj.Keys == t.Keys - pending
      invariant forall id :: id in obj ==> obj[id] == Strip(t[id])
      decreases pending
    {
      var id :| id in pending;
      obj := obj[id := Strip(t[id])];
      pending := pending - {id};
    }
  }

  /** Two listings of the same table agree, and each differs from the
      table only by the missing client. */
  lemma {:induction false} ListingsAgree(t: Table, id: string)
    requires id in t
    ensures SerialisedTable(t)[id].status == t[id].status
    ensures SerialisedTable(t)[id].tools == t[id].tools
    ensures SerialisedTable(t)[id].lastConnected == t[id].lastConnected
    ensures SerialisedTable(t)[id].errorMessage == t[id].errorMessage
    ensures forall c :: Strip(t[id].(client := c)) == SerialisedTable(t)[id]
  {
  }

  /** The reply the route sends, given the table before the request. */
  function ConnectReplyFor(req: ConnectRequest, t: Table, a: ConnectAttempt): ConnectReply
  {
    match Dispatch(req)
    case Refuse(r) => r
    case DoConnect(config) => Ok200.(connectionState := Some(ConnectedEntry(config, a)))
    case DoDisconnect(_) => Ok200
    case DoList => Ok200.(connections := Some(SerialisedTable(t)))
    case DoGetTools(id) => Ok200.(tools := Some(if id in t then t[id].tools else []))
  }

  method Handle(req: ConnectRequest, manager: MCPClientManager, a: ConnectAttempt) returns (reply: ConnectReply)
    requires manager.Valid()
    modifies manager
    ensures manager.Valid()
    ensures reply == ConnectReplyFor(req, old(manager.connections), a)
    ensures manager.connections ==
      match Dispatch(req)
      case DoConnect(config) => old(manager.connections)[config.id := ConnectedEntry(config, a)]
      case DoDisconnect(id) => old(manager.connections)[id := DisconnectedState]
      case _ => old(manager.connections)
  {
    var action := Dispatch(req);
    match action {
      case Refuse(r) =>
        reply := r;
      case DoConnect(config) =>
        var state := manager.ConnectServer(config, a);
        reply := Ok200.(connectionState := Some(state));
      case DoDisconnect(id) =>
        var _ := manager.DisconnectServer(id);
        reply := Ok200;
      case DoList =>
        var obj := SerialiseConnections(manager.GetAllConnections());
        reply := Ok200.(connections := Some(obj));
      case DoGetTools(id) =>
        reply := Ok200.(tools := Some(manager.GetAvailableTools(id)));
    }
  }

  /** connect succeeds whatever the transport did, carrying the state
      returned, 'error' included; disconnect and get-tools succeed on any
      id, get-tools with no tools for an unknown one. */
  lemma {:induction false} ActionsSucceed(req: ConnectRequest, t: Table, a: ConnectAttempt)
    ensures Dispatch(req).DoConnect? && a.transport.ConnectFails? ==>
      ConnectReplyFor(req, t, a).success && ConnectReplyFor(req, t, a).connectionState.value.status == Errored
    ensures Dispatch(req).DoGetTools? && Dispatch(req).serverId !in t ==>
      ConnectReplyFor(req, t, a).tools == Some([])
    ensures !Dispatch(req).Refuse? ==> ConnectReplyFor(req, t, a).status == 200
  {
  }
}
