/** The WebAssembly executor wrapper (packages/tiles-playground/lib/wasm-executor.ts).

    The extism plugin is foreign: it is a value whose `call` maps a function
    name and an input string to what the call does (returns an output buffer
    or throws). `createPlugin` is a function parameter of the step that
    completes the constructor's unawaited initialisation. */
module WasmExec {
  import opened Common

  /** The three facts `isSharedArrayBufferAvailable` inspects. */
  datatype Environment = Environment(
    sharedArrayBufferDefined: bool,
    windowDefined: bool,
    crossOriginIsolated: Option<Json>)

  predicate IsSharedArrayBufferAvailable(env: Environment)
  {
    env.sharedArrayBufferDefined && env.windowDefined
    && env.crossOriginIsolated == Some(JBool(true))
  }

  /** Threaded execution is possible exactly when all three facts hold;
      `crossOriginIsolated` must be the boolean `true`, not merely truthy. */
  lemma SharedArrayBufferNeedsAllThree(env: Environment)
    ensures IsSharedArrayBufferAvailable(env) <==>
      env.sharedArrayBufferDefined && env.windowDefined
      && env.crossOriginIsolated.Some? && env.crossOriginIsolated.value == JBool(true)
    ensures env.crossOriginIsolated == Some(JNum(1)) ==> !IsSharedArrayBufferAvailable(env)
  {
  }

  /** The options object handed to `createPlugin`. `logger` records whether
      the console logger was attached. */
  datatype PluginOptions = PluginOptions(
    useWasi: Json,
    config: Json,
    runInWorker: bool,
    allowedHosts: Option<Json>,
    allowedPaths: Option<Json>,
    logger: bool,
    logLevel: Option<Json>)

  /** The normalisation `initialize` applies to the caller's options. */
  function NormalisedOptions(options: Object, env: Environment): (p: PluginOptions)
    ensures p.useWasi == (if Nullish(Get(options, "useWasi")) then JBool(true) else options["useWasi"])
    ensures Get(options, "useWasi") != Some(JBool(false)) ==> p.useWasi != JBool(false)
    ensures p.config == (if Truthy(Get(options, "config")) then options["config"] else EmptyObject)
    ensures p.runInWorker <==> Truthy(Get(options, "runInWorker")) && IsSharedArrayBufferAvailable(env)
    ensures p.allowedHosts.Some? <==> HasLength(Get(options, "allowedHosts"))
    ensures p.allowedHosts.Some? ==> p.allowedHosts == Get(options, "allowedHosts")
    ensures p.allowedPaths.Some? <==> HasKeys(Get(options, "allowedPaths"))
    ensures p.allowedPaths.Some? ==> p.allowedPaths == Get(options, "allowedPaths")
    ensures p.logger <==> Truthy(Get(options, "logLevel"))
    ensures p.logLevel.Some? <==> p.logger
    ensures p.logLevel.Some? ==> p.logLevel == Get(options, "logLevel")
  {
    var useWasi := Get(options, "useWasi");
    var config := Get(options, "config");
    var hosts := Get(options, "allowedHosts");
    var paths := Get(options, "allowedPaths");
    var level := Get(options, "logLevel");
    PluginOptions(
      if Nullish(useWasi) then JBool(true) else useWasi.value,
      if Truthy(config) then config.value else EmptyObject,
      Truthy(Get(options, "runInWorker")) && IsSharedArrayBufferAvailable(env),
      if HasLength(hosts) then hosts else None,
      if HasKeys(paths) then paths else None,
      Truthy(level),
      if Truthy(level) then level else None)
  }

  /** What one `plugin.call` does: resolve with an output buffer whose
      `text()` is given (`None` for a null buffer), or throw. */
  datatype CallOutcome = Returned(text: Option<string>) | Threw(message: string)

  datatype Plugin = Plugin(call: (string, string) -> CallOutcome)

  datatype ExecResult = ExecResult(output: string, error: Option<string>)

  /** The message a JavaScript engine gives for `null.call(...)`. */
  const NullPluginError := "Cannot read properties of null (reading 'call')"

  /** `execute` on a plugin field that may be null. */
  function ExecuteOn(plugin: Option<Plugin>, functionName: string, input: string): (r: ExecResult)
    ensures r.error.Some? ==> r.output == ""
    ensures plugin.None? ==> r == ExecResult("", Some(NullPluginError))
    ensures plugin.Some? ==>
      match plugin.value.call(functionName, input)
      case Returned(t) => r.error.None? && r.output == (if t.Some? then t.value else "")
      case Threw(m) => r.error == Some(m)
  {
    if plugin.None? then ExecResult("", Some(NullPluginError))
    else
      match plugin.value.call(functionName, input)
      case Returned(t) => ExecResult(if t.Some? then t.value else "", None)
      case Threw(m) => ExecResult("", Some(m))
  }

  class WasmExecutor {
    var plugin: Option<Plugin>
    /** Whether the constructor's `initialize` has not completed yet. */
    var initialising: bool
    const wasm: seq<bv8>
    const pluginOptions: PluginOptions

    /** The constructor stores null and starts `initialize` without
        awaiting it; the options are normalised at once. */
    constructor (wasmBuffer: seq<bv8>, options: Object, env: Environment)
      ensures plugin.None? && initialising
      ensures wasm == wasmBuffer
      ensures pluginOptions == NormalisedOptions(options, env)
    {
      var useWasi := Get(options, "useWasi");
      var config := Get(options, "config");
      var runInWorker := false;
      if Truthy(Get(options, "runInWorker")) {
        if IsSharedArrayBufferAvailable(env) {
          runInWorker := true;
        } else {
          // the source warns on the console and falls back
          runInWorker := false;
        }
      }
      var hosts: Option<Json> := None;
      if HasLength(Get(options, "allowedHosts")) {
        hosts := Get(options, "allowedHosts");
      }
      var paths: Option<Json> := None;
      if HasKeys(Get(options, "allowedPaths")) {
        paths := Get(options, "allowedPaths");
      }
      var logger := false;
      var level: Option<Json> := None;
      if Truthy(Get(options, "logLevel")) {
        logger := true;
        level := Get(options, "logLevel");
      }
      plugin := None;
      initialising := true;
      wasm := wasmBuffer;
      pluginOptions := PluginOptions(
        if Nullish(useWasi) then JBool(true) else useWasi.value,
        if Truthy(config) then config.value else EmptyObject,
        runInWorker, hosts, paths, logger, level);
    }

    /** The awaited `createPlugin` inside `initialize` settles. A rejection
        is unhandled and leaves the field as it was. */
    method FinishInitialize(createPlugin: (seq<bv8>, PluginOptions) -> Result<Plugin, string>)
      requires initialising
      modifies this
      ensures !initialising
      ensures createPlugin(wasm, pluginOptions).Ok? ==> plugin == Some(createPlugin(wasm, pluginOptions).value)
      ensures createPlugin(wasm, pluginOptions).Failure? ==> plugin == old(plugin)
    {
      var created := createPlugin(wasm, pluginOptions);
      if created.Ok? {
        plugin := Some(created.value);
      }
      initialising := false;
    }

    /** `execute` catches every failure, so it always returns a result. */
    method Execute(functionName: string, input: string) returns (r: ExecResult)
      ensures r == ExecuteOn(plugin, functionName, input)
    {
      if plugin.None? {
        return ExecResult("", Some(NullPluginError));
      }
      var outcome := plugin.value.call(functionName, input);
      match outcome {
        case Returned(t) =>
          r := ExecResult(if t.Some? then t.value else "", None);
        case Threw(m) =>
          r := ExecResult("", Some(m));
      }
    }

    /** `free` drops the plugin; calling it again changes nothing. */
    method Free()
      modifies this
      ensures plugin.None?
      ensures initialising == old(initialising)
      ensures old(plugin).None? ==> plugin == old(plugin)
    {
      if plugin.Some? {
        plugin := None;
      }
    }
  }

  /** Executing without a plugin, whether before `initialize` completes or
      after `free`, reports an error instead of throwing. */
  lemma {:induction false} ExecuteWithoutPluginFails(functionName: string, input: string)
    ensures ExecuteOn(None, functionName, input).error.Some?
    ensures ExecuteOn(None, functionName, input).output == ""
  {
  }

  /** For every plugin and call, exactly one of output and error carries the
      outcome: an error is always paired with empty output, and a resolved
      call never reports an error. */
  lemma ExecuteNeverThrows(p: Plugin, functionName: string, input: string)
    ensures var r := ExecuteOn(Some(p), functionName, input);
      (r.error.Some? <==> p.call(functionName, input).Threw?)
      && (r.error.Some? ==> r.output == "")
  {
  }
}
