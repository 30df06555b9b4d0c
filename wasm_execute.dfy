/** The `/api/wasm-execute` route (packages/tiles-playground/pages/api/wasm-execute.ts)
    and the server-side fetch of WebAssembly content it shares with
    `/api/mcp-execute`.

    The route validates the body, fetches the module bytes, merges
    server defaults under the caller's executor options, creates an
    executor, executes once and frees the executor before looking at the
    result. */
module WasmExecuteRoute {
  import opened Common
  import opened WasmExec

  /** What `fetch` of `https://www.mcp.run/api/c/<address>` does. */
  datatype FetchOutcome =
    | Fetched(body: seq<bv8>)
    | NotOk(statusText: string)
    | FetchThrew(message: Option<string>)

  /** `fetchWasmContentServerSide`: the bytes, or the message of what it
      throws (`None` for a thrown value that is not an `Error`). */
  function FetchWasmContent(f: FetchOutcome): (r: Result<seq<bv8>, Option<string>>)
    ensures f.Fetched? <==> r.Ok?
    ensures f.Fetched? ==> r.value == f.body
    ensures f.NotOk? ==> r.error == Some("Failed to fetch WASM content: " + f.statusText)
    ensures f.FetchThrew? ==> r.error == f.message
  {
    match f
    case Fetched(b) => Ok(b)
    case NotOk(t) => Failure(Some("Failed to fetch WASM content: " + t))
    case FetchThrew(m) => Failure(m)
  }

  /** How one local execution unfolds: the fetch, the browser facts the
      executor inspects, whether the unawaited `initialize` finishes
      before `execute` reads the plugin field, and `createPlugin`. */
  datatype LocalRun = LocalRun(
    fetch: FetchOutcome,
    env: Environment,
    initFinishesFirst: bool,
    createPlugin: (seq<bv8>, PluginOptions) -> Result<Plugin, string>)

  /** The plugin field as `execute` finds it. */
  function PluginAtExecute(wasm: seq<bv8>, options: Object, run: LocalRun): Option<Plugin>
  {
    var created := run.createPlugin(wasm, NormalisedOptions(options, run.env));
    if run.initFinishesFirst && created.Ok? then Some(created.value) else None
  }

  datatype Reply = Reply(status: int, output: Option<string>, error: Option<string>)

  /** The reply once the executor has run: a truthy error is a 500. */
  function ResultReply(r: ExecResult): (reply: Reply)
    ensures reply.status == 500 <==> Present(r.error)
    ensures reply.status == 200 ==> reply.output == Some(r.output)
    ensures reply.status == 500 ==> reply.error == r.error
  {
    if Present(r.error) then Reply(500, None, r.error) else Reply(200, Some(r.output), None)
  }

  function CaughtReply(message: Option<string>): Reply
  {
    Reply(500, None, Some(if message.Some? then message.value else "Unknown error occurred"))
  }

  /** A local run with validated inputs: create, execute once, free. It
      returns the executor so a caller can see that it was freed. */
  method RunLocal(wasm: seq<bv8>, options: Object, functionName: string, input: string, run: LocalRun)
    returns (result: ExecResult, executor: WasmExecutor)
    ensures fresh(executor)
    ensures result == ExecuteOn(PluginAtExecute(wasm, options, run), functionName, input)
    ensures executor.plugin.None?
  {
    executor := new WasmExecutor(wasm, options, run.env);
    if run.initFinishesFirst {
      executor.FinishInitialize(run.createPlugin);
    }
    result := executor.Execute(functionName, input);
    executor.Free();
  }

  // ------------------------------------------------------------ this route

  datatype WasmExecuteRequest = WasmExecuteRequest(
    httpMethod: string,
    contentAddress: Option<string>,
    functionName: Option<string>,
    input: Option<string>,
    config: Option<Json>,
    executorOptions: Option<Object>)

  const TmpAndData: Json := JObj(map["/tmp" := JStr("/tmp"), "/data" := JStr("/data")])

  /** The server defaults, then every key of the caller's options on top. */
  function ServerOptions(config: Json, overrides: Object): (o: Object)
    ensures forall k :: k in overrides ==> k in o && o[k] == overrides[k]
    ensures "allowedHosts" in o
  {
    map["useWasi" := JBool(true), "allowedPaths" := TmpAndData, "logLevel" := JStr("debug"),
        "runInWorker" := JBool(false), "allowedHosts" := JArr([JStr("*")]), "config" := config]
    + overrides
  }

  /** A key the caller leaves out keeps its default; `allowedHosts` is
      kept whatever `runInWorker` becomes. */
  lemma ServerDefaultsStand(config: Json, overrides: Object)
    ensures var o := ServerOptions(config, overrides);
      ("useWasi" !in overrides ==> o["useWasi"] == JBool(true))
      && ("allowedPaths" !in overrides ==> o["allowedPaths"] == TmpAndData)
      && ("logLevel" !in overrides ==> o["logLevel"] == JStr("debug"))
      && ("runInWorker" !in overrides ==> o["runInWorker"] == JBool(false))
      && ("allowedHosts" !in overrides ==> o["allowedHosts"] == JArr([JStr("*")]))
      && ("config" !in overrides ==> o["config"] == config)
      && o.Keys == overrides.Keys + {"useWasi", "allowedPaths", "logLevel", "runInWorker", "allowedHosts", "config"}
  {
  }

  /** With no caller options the executor gets WASI, the debug logger,
      `/tmp` and `/data`, every host, and no worker. */
  lemma DefaultPluginOptions(config: Json, env: Environment)
    ensures NormalisedOptions(ServerOptions(config, map[]), env) ==
      PluginOptions(JBool(true), if Truthy(Some(config)) then config else EmptyObject, false,
                    Some(JArr([JStr("*")])), Some(TmpAndData), true, Some(JStr("debug")))
  {
    var o := ServerOptions(config, map[]);
    ServerDefaultsStand(config, map[]);
    DefaultsNormalise(o, config, env);
  }

  lemma DefaultsNormalise(o: Object, config: Json, env: Environment)
    requires Get(o, "useWasi") == Some(JBool(true)) && Get(o, "config") == Some(config)
    requires Get(o, "runInWorker") == Some(JBool(false)) && Get(o, "allowedHosts") == Some(JArr([JStr("*")]))
    requires Get(o, "allowedPaths") == Some(TmpAndData) && Get(o, "logLevel") == Some(JStr("debug"))
    ensures NormalisedOptions(o, env) ==
      PluginOptions(JBool(true), if Truthy(Some(config)) then config else EmptyObject, false,
                    Some(JArr([JStr("*")])), Some(TmpAndData), true, Some(JStr("debug")))
  {
    assert "/tmp" in TmpAndData.fields;
  }

  function Validate(req: WasmExecuteRequest): (r: Option<Reply>)
    ensures r.Some? <==> req.httpMethod != "POST" || !Present(req.contentAddress) || !Present(req.functionName)
    ensures req.httpMethod != "POST" ==> r == Some(Reply(405, None, Some("Method not allowed")))
    ensures req.httpMethod == "POST" && (!Present(req.contentAddress) || !Present(req.functionName)) ==>
      r == Some(Reply(400, None, Some("contentAddress and functionName are required")))
  {
    if req.httpMethod != "POST" then Some(Reply(405, None, Some("Method not allowed")))
    else if !Present(req.contentAddress) || !Present(req.functionName) then
      Some(Reply(400, None, Some("contentAddress and functionName are required")))
    else None
  }

  /** The reply the route sends. */
  function WasmExecuteReply(req: WasmExecuteRequest, run: LocalRun): Reply
  {
    match Validate(req)
    case Some(rejection) => rejection
    case None =>
      match FetchWasmContent(run.fetch)
      case Failure(m) => CaughtReply(m)
      case Ok(wasm) =>
        var options := ServerOptions(if req.config.Some? then req.config.value else EmptyObject,
                                     if req.executorOptions.Some? then req.executorOptions.value else map[]);
        ResultReply(ExecuteOn(PluginAtExecute(wasm, options, run), req.functionName.value,
                              if req.input.Some? then req.input.value else ""))
  }

  method Handle(req: WasmExecuteRequest, run: LocalRun) returns (reply: Reply, executor: Option<WasmExecutor>)
    ensures reply == WasmExecuteReply(req, run)
    ensures executor.Some? <==> Validate(req).None? && run.fetch.Fetched?
    ensures executor.Some? ==> fresh(executor.value) && executor.value.plugin.None?
  {
    executor := None;
    var rejection := Validate(req);
    if rejection.Some? {
      return rejection.value, None;
    }
    var content := FetchWasmContent(run.fetch);
    if content.Failure? {
      return CaughtReply(content.error), None;
    }
    var config := if req.config.Some? then req.config.value else EmptyObject;
    var overrides := if req.executorOptions.Some? then req.executorOptions.value else map[];
    var options := ServerOptions(config, overrides);
    var input := if req.input.Some? then req.input.value else "";
    var result, e := RunLocal(content.value, options, req.functionName.value, input, run);
    reply := ResultReply(result);
    executor := Some(e);
  }

  /** Validation failures answer before any fetch: the reply does not
      depend on how the rest of the run would go. */
  lemma RejectionIgnoresRun(req: WasmExecuteRequest, run1: LocalRun, run2: LocalRun)
    requires Validate(req).Some?
    ensures WasmExecuteReply(req, run1) == WasmExecuteReply(req, run2)
    ensures WasmExecuteReply(req, run1).status == 405 || WasmExecuteReply(req, run1).status == 400
  {
  }

  /** A failed fetch becomes a 500 carrying the fetch's message. */
  lemma FailedFetchIs500(req: WasmExecuteRequest, run: LocalRun)
    requires Validate(req).None? && run.fetch.NotOk?
    ensures WasmExecuteReply(req, run) ==
      Reply(500, None, Some("Failed to fetch WASM content: " + run.fetch.statusText))
  {
  }
}
