/** The `/api/mcp-execute` route (packages/tiles-playground/pages/api/mcp-execute.ts).

    A request names a tool and an execution type. 'remote-mcp' runs the
    tool on a remote MCP server through the connection-state table,
    connecting first when the stored state is not 'connected' and a server
    configuration was sent. 'local-wasm' fetches a WebAssembly module and
    runs it with server defaults merged under the caller's options. */
module McpExecuteRoute {
  import opened Common
  import opened WasmExec
  import opened McpClients
  import opened WasmExecuteRoute

  datatype McpExecuteRequest = McpExecuteRequest(
    httpMethod: string,
    kind: Option<string>,
    toolName: Option<string>,
    serverId: Option<string>,
    serverConfig: Option<RemoteServerConfig>,
    args: Option<Object>,
    contentAddress: Option<string>,
    functionName: Option<string>,
    input: Option<string>,
    config: Option<Json>,
    executorOptions: Option<Object>)

  datatype McpReply = McpReply(status: int, output: Option<string>, error: Option<string>,
                               toolResult: Option<ToolResult>)

  function ErrorReply(status: int, message: string): McpReply
  {
    McpReply(status, None, Some(message), None)
  }

  /** Where a request goes after the checks that need no state. */
  datatype Route =
    | Reject(reply: McpReply)
    | Remote(serverId: string, serverConfig: Option<RemoteServerConfig>, toolName: string, args: Object)
    | Local(contentAddress: string, functionName: string, input: string, config: Json, overrides: Object)

  function RouteRequest(req: McpExecuteRequest): (r: Route)
    ensures req.httpMethod != "POST" ==> r == Reject(ErrorReply(405, "Method not allowed"))
    ensures req.httpMethod == "POST" && (!Present(req.kind) || !Present(req.toolName)) ==>
      r == Reject(ErrorReply(400, "type and toolName are required"))
    ensures r.Remote? <==> req.httpMethod == "POST" && Present(req.kind) && Present(req.toolName)
                           && req.kind.value == "remote-mcp" && Present(req.serverId)
    ensures r.Local? <==> req.httpMethod == "POST" && Present(req.kind) && Present(req.toolName)
                          && req.kind.value == "local-wasm" && Present(req.contentAddress)
    ensures r.Local? ==> r.functionName == (if req.functionName.Some? then req.functionName.value else "call")
                         && r.input == (if req.input.Some? then req.input.value else "")
    ensures r.Remote? ==> r.serverId == req.serverId.value && r.serverConfig == req.serverConfig
  {
    if req.httpMethod != "POST" then Reject(ErrorReply(405, "Method not allowed"))
    else if !Present(req.kind) || !Present(req.toolName) then
      Reject(ErrorReply(400, "type and toolName are required"))
    else if req.kind.value == "remote-mcp" then
      if !Present(req.serverId) then
        Reject(ErrorReply(400, "serverId is required for remote MCP execution"))
      else
        Remote(req.serverId.value, req.serverConfig, req.toolName.value,
               if req.args.Some? then req.args.value else map[])
    else if req.kind.value == "local-wasm" then
      if !Present(req.contentAddress) then
        Reject(ErrorReply(400, "contentAddress is required for local WASM execution"))
      else
        Local(req.contentAddress.value,
              if req.functionName.Some? then req.functionName.value else "call",
              if req.input.Some? then req.input.value else "",
              if req.config.Some? then req.config.value else EmptyObject,
              if req.executorOptions.Some? then req.executorOptions.value else map[])
    else Reject(ErrorReply(400, "Unsupported execution type: " + req.kind.value))
  }

  /** A type other than the two known ones is refused by name. */
  lemma UnsupportedTypeRejected(req: McpExecuteRequest)
    requires req.httpMethod == "POST" && Present(req.kind) && Present(req.toolName)
    requires req.kind.value != "remote-mcp" && req.kind.value != "local-wasm"
    ensures RouteRequest(req) == Reject(ErrorReply(400, "Unsupported execution type: " + req.kind.value))
  {
  }

  // ------------------------------------------------------------ remote branch

  /** The single auto-connect rule. */
  predicate NeedsConnect(state: Option<ConnectionState>, config: Option<RemoteServerConfig>)
  {
    (state.None? || state.value.status != Connected) && config.Some?
  }

  function StatusOrUnknown(state: Option<ConnectionState>): string
  {
    if state.Some? then StatusName(state.value.status) else "unknown"
  }

  /** `item.text` of the first block, when it is a non-empty string. */
  function FirstText(content: seq<ContentItem>): Option<string>
  {
    if |content| > 0 && content[0].TextItem? && Present(content[0].text) then content[0].text else None
  }

  /** One block's line of the plain-text output. A missing text or uri is
      what `join` and a template literal make of `undefined`. */
  function Piece(item: ContentItem, stringify: Json -> string): string
  {
    match item
    case TextItem(t) => if t.Some? then t.value else ""
    case ImageItem(_, m) => "[Image: " + OrElse(m, "unknown") + "]"
    case ResourceItem(u) => "[Resource: " + (if u.Some? then u.value else "undefined") + "]"
    case OtherItem(j) => stringify(j)
  }

  function Pieces(content: seq<ContentItem>, stringify: Json -> string): (r: seq<string>)
    ensures |r| == |content|
    ensures forall i :: 0 <= i < |r| ==> r[i] == Piece(content[i], stringify)
    decreases |content|
  {
    if |content| == 0 then [] else [Piece(content[0], stringify)] + Pieces(content[1..], stringify)
  }

  /** The blocks' lines joined with newlines, in order. */
  function Flatten(content: seq<ContentItem>, stringify: Json -> string): string
  {
    Join(Pieces(content, stringify), "\n")
  }

  /** Flattening keeps every block, in order: splitting the output on
      newlines gives the blocks' lines back whenever no line has one. */
  lemma {:induction false} FlattenKeepsBlocks(content: seq<ContentItem>, stringify: Json -> string)
    requires |content| >= 1
    requires forall i :: 0 <= i < |content| ==> '\n' !in Piece(content[i], stringify)
    ensures Split(Flatten(content, stringify), '\n') == Pieces(content, stringify)
    ensures |Split(Flatten(content, stringify), '\n')| == |content|
  {
    SplitJoin(Pieces(content, stringify), '\n');
  }

  /** The reply once the table holds `state` for the server and, when it
      is connected, `executeRemoteTool` gave `outcome`. */
  function RemoteReply(serverId: string, state: Option<ConnectionState>,
                       outcome: Result<ToolResult, string>, stringify: Json -> string): (r: McpReply)
  {
    if state.None? || state.value.status != Connected then
      ErrorReply(400, "Remote server " + serverId + " is not connected (status: " + StatusOrUnknown(state) + ")")
    else
      match outcome
      case Failure(m) => ErrorReply(500, m)
      case Ok(tr) =>
        if tr.isError then
          McpReply(500, None, Some(OrElse(FirstText(tr.content), "Remote tool execution failed")), Some(tr))
        else McpReply(200, Some(Flatten(tr.content, stringify)), None, Some(tr))
  }

  /** A server that is still not connected gets a 400 naming its status,
      whatever the tool would have done; a flagged result is a 500 and an
      unflagged one a 200 with the flattened output. */
  lemma RemoteReplies(serverId: string, state: Option<ConnectionState>,
                      o1: Result<ToolResult, string>, o2: Result<ToolResult, string>, stringify: Json -> string)
    ensures state.None? ==> RemoteReply(serverId, state, o1, stringify).error
                            == Some("Remote server " + serverId + " is not connected (status: unknown)")
    ensures (state.None? || state.value.status != Connected) ==>
      RemoteReply(serverId, state, o1, stringify) == RemoteReply(serverId, state, o2, stringify)
      && RemoteReply(serverId, state, o1, stringify).status == 400
    ensures state.Some? && state.value.status == Connected && o1.Ok? ==>
      (RemoteReply(serverId, state, o1, stringify).status == 500 <==> o1.value.isError)
    ensures state.Some? && state.value.status == Connected && o1.Ok? && o1.value.isError ==>
      var first := o1.value.content;
      RemoteReply(serverId, state, o1, stringify).error
      == Some(if |first| > 0 && first[0].TextItem? && Present(first[0].text) then first[0].text.value
              else "Remote tool execution failed")
      && RemoteReply(serverId, state, o1, stringify).toolResult == Some(o1.value)
    ensures state.Some? && state.value.status == Connected && o1.Ok? && !o1.value.isError ==>
      RemoteReply(serverId, state, o1, stringify)
      == McpReply(200, Some(Flatten(o1.value.content, stringify)), None, Some(o1.value))
    ensures state.Some? && state.value.status == Connected && o1.Failure? ==>
      RemoteReply(serverId, state, o1, stringify) == ErrorReply(500, o1.error)
  {
    if state.None? {
      var head := "Remote server " + serverId;
      assert head + " is not connected (status: " + "unknown" + ")" == head + " is not connected (status: unknown)";
    }
  }

  /** A remote call that throws reaches the caller as a 500 whose error
      names the tool and the thrown message. */
  lemma RejectedCallReply(t: Table, serverId: string, toolName: string, m: Option<string>,
                          stringify: Json -> string)
    requires serverId in t && t[serverId].status == Connected && t[serverId].client.Some?
    ensures var reply := RemoteReply(serverId, Some(t[serverId]),
                                     RemoteToolOutcome(t, serverId, toolName, CallRejected(m), stringify), stringify);
      reply.status == 500
      && reply.error == Some("Error executing " + toolName + ": " + (if m.Some? then m.value else "Unknown error"))
  {
    RemoteToolFailuresAndErrors(t, serverId, toolName, CallRejected(m), stringify);
    var text := "Error executing " + toolName + ": " + (if m.Some? then m.value else "Unknown error");
    assert text[0] == 'E';
  }

  /** Everything the environment decides during one request. */
  datatype Effects = Effects(
    attempt: ConnectAttempt,
    call: RemoteCall,
    stringify: Json -> string,
    local: LocalRun)

  /** The table after the remote branch: changed only by a connect. */
  function RemoteTable(t: Table, serverId: string, config: Option<RemoteServerConfig>, a: ConnectAttempt): Table
  {
    if NeedsConnect(Get(t, serverId), config) then t[config.value.id := ConnectedEntry(config.value, a)] else t
  }

  /** The state the remote branch checks: the one `connectServer` returned
      when it connected, the stored one otherwise. */
  function CheckedState(t: Table, serverId: string, config: Option<RemoteServerConfig>, a: ConnectAttempt)
    : Option<ConnectionState>
  {
    if NeedsConnect(Get(t, serverId), config) then Some(ConnectedEntry(config.value, a))
    else Get(t, serverId)
  }

  // ------------------------------------------------------------ local branch

  const TmpAndVarTmp: Json := JObj(map["/tmp" := JStr("/tmp"), "/var/tmp" := JStr("/var/tmp")])

  /** The server defaults, the caller's options on top, and no
      `allowedHosts` unless the merged `runInWorker` is truthy. */
  function LocalOptions(config: Json, overrides: Object): (o: Object)
  {
    var merged := map["useWasi" := JBool(true), "allowedPaths" := TmpAndVarTmp, "logLevel" := JStr("debug"),
                      "runInWorker" := JBool(false), "config" := config] + overrides;
    if Truthy(Get(merged, "runInWorker")) then merged else merged - {"allowedHosts"}
  }

  /** Each key is the caller's value if given, else the default;
      `allowedHosts` survives exactly when it was given and the merged
      `runInWorker` is truthy. */
  lemma {:induction false} LocalOptionsMerge(config: Json, overrides: Object, k: string)
    ensures var o := LocalOptions(config, overrides);
      (k != "allowedHosts" && k in overrides ==> k in o && o[k] == overrides[k])
      && ("allowedHosts" in o <==> "allowedHosts" in overrides && Truthy(Get(overrides, "runInWorker")))
      && ("allowedHosts" in o ==> o["allowedHosts"] == overrides["allowedHosts"])
      && ("useWasi" !in overrides ==> o["useWasi"] == JBool(true))
      && ("allowedPaths" !in overrides ==> o["allowedPaths"] == TmpAndVarTmp)
      && ("logLevel" !in overrides ==> o["logLevel"] == JStr("debug"))
      && ("runInWorker" !in overrides ==> o["runInWorker"] == JBool(false))
      && ("config" !in overrides ==> o["config"] == config)
  {
    var merged := map["useWasi" := JBool(true), "allowedPaths" := TmpAndVarTmp, "logLevel" := JStr("debug"),
                      "runInWorker" := JBool(false), "config" := config] + overrides;
    if "runInWorker" !in overrides {
      assert Get(merged, "runInWorker") == Some(JBool(false));
    } else {
      assert Get(merged, "runInWorker") == Get(overrides, "runInWorker");
    }
  }

  /** The executor a local run sees never runs in a worker unless the
      caller asked for one, and then it gets no host list either way
      unless the caller gave one. */
  lemma LocalWorkerNeedsRequest(config: Json, overrides: Object, env: Environment)
    ensures var p := NormalisedOptions(LocalOptions(config, overrides), env);
      (p.runInWorker ==> Truthy(Get(overrides, "runInWorker")))
      && (p.allowedHosts.Some? ==> "allowedHosts" in overrides)
  {
    LocalOptionsMerge(config, overrides, "runInWorker");
    var o := LocalOptions(config, overrides);
    if "runInWorker" !in overrides {
      assert o["runInWorker"] == JBool(false);
    }
  }

  function McpFromReply(r: Reply): McpReply
  {
    McpReply(r.status, r.output, r.error, None)
  }

  // ------------------------------------------------------------ the route

  /** The reply the route sends, given the table before the request. */
  function McpExecuteReply(req: McpExecuteRequest, t: Table, fx: Effects): McpReply
  {
    match RouteRequest(req)
    case Reject(r) => r
    case Remote(id, config, tool, _) =>
      var after := RemoteTable(t, id, config, fx.attempt);
      var state := CheckedState(t, id, config, fx.attempt);
      RemoteReply(id, state, RemoteToolOutcome(after, id, tool, fx.call, fx.stringify), fx.stringify)
    case Local(_, fn, input, config, overrides) =>
      match FetchWasmContent(fx.local.fetch)
      case Failure(m) => McpFromReply(CaughtReply(m))
      case Ok(wasm) =>
        McpFromReply(ResultReply(ExecuteOn(PluginAtExecute(wasm, LocalOptions(config, overrides), fx.local),
                                           fn, input)))
  }

  /** The remote branch: connect when needed, check the state, call the tool. */
  method HandleRemote(id: string, config: Option<RemoteServerConfig>, tool: string, args: Object,
                      manager: MCPClientManager, fx: Effects)
    returns (reply: McpReply)
    requires manager.Valid()
    modifies manager
    ensures manager.Valid()
    ensures manager.connections == RemoteTable(old(manager.connections), id, config, fx.attempt)
    ensures reply == RemoteReply(id, CheckedState(old(manager.connections), id, config, fx.attempt),
                                 RemoteToolOutcome(manager.connections, id, tool, fx.call, fx.stringify), fx.stringify)
  {
    var state := manager.GetConnectionState(id);
    if (state.None? || state.value.status != Connected) && config.Some? {
      var s := manager.ConnectServer(config.value, fx.attempt);
      state := Some(s);
    }
    if state.None? || state.value.status != Connected {
      var status := if state.Some? then StatusName(state.value.status) else "unknown";
      reply := ErrorReply(400, "Remote server " + id + " is not connected (status: " + status + ")");
      return;
    }
    var outcome := manager.ExecuteRemoteTool(id, tool, args, fx.call, fx.stringify);
    match outcome {
      case Failure(m) =>
        reply := ErrorReply(500, m);
      case Ok(tr) =>
        if tr.isError {
          reply := McpReply(500, None, Some(OrElse(FirstText(tr.content), "Remote tool execution failed")), Some(tr));
        } else {
          reply := McpReply(200, Some(Flatten(tr.content, fx.stringify)), None, Some(tr));
        }
    }
  }

  method Handle(req: McpExecuteRequest, manager: MCPClientManager, fx: Effects)
    returns (reply: McpReply, executor: Option<WasmExecutor>)
    requires manager.Valid()
    modifies manager
    ensures manager.Valid()
    ensures reply == McpExecuteReply(req, old(manager.connections), fx)
    ensures manager.connections ==
      if RouteRequest(req).Remote?
      then RemoteTable(old(manager.connections), req.serverId.value, req.serverConfig, fx.attempt)
      else old(manager.connections)
    ensures executor.Some? <==> RouteRequest(req).Local? && fx.local.fetch.Fetched?
    ensures executor.Some? ==> fresh(executor.value) && executor.value.plugin.None?
  {
    executor := None;
    var route := RouteRequest(req);
    match route {
      case Reject(r) =>
        reply := r;
      case Remote(id, config, tool, args) =>
        reply := HandleRemote(id, config, tool, args, manager, fx);
      case Local(_, fn, input, config, overrides) =>
        var content := FetchWasmContent(fx.local.fetch);
        if content.Failure? {
          reply := McpFromReply(CaughtReply(content.error));
          return;
        }
        var options := LocalOptions(config, overrides);
        var result, e := RunLocal(content.value, options, fn, input, fx.local);
        executor := Some(e);
        reply := McpFromReply(ResultReply(result));
    }
  }

  /** A request whose checks fail, or a local run, leaves the table alone;
      a remote one connects at most once, only when the stored state is
      not 'connected' and a configuration was sent. */
  lemma ConnectOnlyWhenNeeded(t: Table, serverId: string, config: Option<RemoteServerConfig>, a: ConnectAttempt)
    ensures !NeedsConnect(Get(t, serverId), config) ==> RemoteTable(t, serverId, config, a) == t
    ensures Get(t, serverId).Some? && t[serverId].status == Connected ==> RemoteTable(t, serverId, config, a) == t
    ensures config.None? ==> RemoteTable(t, serverId, config, a) == t
  {
  }

  /** A stored 'connected' state goes straight to the tool; without a
      configuration a disconnected server is refused without a call. */
  lemma {:induction false} RemoteWithoutConfigRefused(req: McpExecuteRequest, t: Table, fx: Effects)
    requires RouteRequest(req).Remote? && req.serverConfig.None?
    requires req.serverId.value !in t || t[req.serverId.value].status != Connected
    ensures McpExecuteReply(req, t, fx).status == 400
    ensures McpExecuteReply(req, t, fx).error ==
      Some("Remote server " + req.serverId.value + " is not connected (status: "
           + StatusOrUnknown(Get(t, req.serverId.value)) + ")")
  {
    var route := RouteRequest(req);
    assert route.serverConfig.None?;
    assert CheckedState(t, route.serverId, route.serverConfig, fx.attempt) == Get(t, req.serverId.value);
  }
}
