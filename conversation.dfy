/** The agentic tool-use conversation route
    (packages/wasm-runner/pages/api/conversation.ts).

    The route describes every servlet tool to the language model, creates
    one executor per servlet, and then asks the model again and again: each
    `tool_use` block of a reply runs the matching servlet and is answered by
    exactly one `tool_result` with the same id. It stops at the first reply
    whose stop reason does not ask for more.

    The model is a finite script of replies; running out of script is a
    modelling outcome the route itself does not have. Executors are modelled
    by the plugin each one holds when a tool runs. */
module Conversation {
  import opened Common
  import opened WasmExec
  import WasmExecuteRoute

  // ------------------------------------------------------------ requests

  datatype ServletTool = ServletTool(
    name: string, description: Option<string>, inputSchema: Json, servletSlug: string)

  /** `meta.schema` of a servlet. */
  datatype Schema = Schema(
    description: Option<string>,
    properties: Option<Object>,
    required: Option<seq<string>>,
    tools: Option<Json>,
    name: Option<string>)

  datatype ServletInfo = ServletInfo(
    slug: string,
    contentAddress: Option<string>,
    functionName: Option<string>,
    config: Option<Json>,
    allowedHosts: Option<Json>,
    allowedPaths: Option<Json>,
    logLevel: Option<Json>,
    runInWorker: Option<Json>,
    schema: Option<Schema>,
    metaDescription: Option<string>)

  /** `servletTools` is `None` when it is missing or not an array. */
  datatype ConversationRequest = ConversationRequest(
    httpMethod: string,
    prompt: Option<string>,
    servletTools: Option<seq<ServletTool>>,
    servletInfoList: Option<seq<ServletInfo>>)

  // ------------------------------------------------------------ tool descriptors

  datatype ToolDescriptor = ToolDescriptor(
    name: string, description: string, properties: Object, required: seq<string>)

  function InfoFor(tool: ServletTool, infos: seq<ServletInfo>): (r: Option<ServletInfo>)
    ensures r.Some? ==> r.value in infos && r.value.slug == tool.servletSlug
    ensures r.None? ==> forall i :: 0 <= i < |infos| ==> infos[i].slug != tool.servletSlug
  {
    match FindFirst(infos, (info: ServletInfo) => info.slug == tool.servletSlug)
    case None => None
    case Some(i) => Some(infos[i])
  }

  function SchemaOf(info: Option<ServletInfo>): Option<Schema>
  {
    if info.Some? then info.value.schema else None
  }

  function Property(kind: string, description: string): Json
  {
    JObj(map["type" := JStr(kind), "description" := JStr(description)])
  }

  /** The schema's own properties with the extras a schema's `tools`, a
      schema's `name` and the servlet's `meta.description` spread over
      them, in that order. */
  function WithExtras(properties: Object, info: Option<ServletInfo>): Object
  {
    var schema := SchemaOf(info);
    var withTools := if schema.Some? && Truthy(schema.value.tools)
      then properties["tools" := Property("array", "Available tools in this servlet")] else properties;
    var withName := if schema.Some? && Present(schema.value.name)
      then withTools["servlet_name" := Property("string", "Name of the servlet")] else withTools;
    if info.Some? && Present(info.value.metaDescription)
    then withName["servlet_description" := Property("string", "Full description of the servlet")] else withName
  }

  function Describe(tool: ServletTool, infos: seq<ServletInfo>): ToolDescriptor
  {
    var info := InfoFor(tool, infos);
    var schema := SchemaOf(info);
    ToolDescriptor(
      tool.name,
      if schema.Some? && Present(schema.value.description) then schema.value.description.value
      else if Present(tool.description) then tool.description.value
      else "Execute the " + tool.name + " function",
      WithExtras(if schema.Some? && schema.value.properties.Some? then schema.value.properties.value else map[], info),
      if schema.Some? && schema.value.required.Some? then schema.value.required.value else [])
  }

  function Descriptors(tools: seq<ServletTool>, infos: seq<ServletInfo>): (r: seq<ToolDescriptor>)
    ensures |r| == |tools|
    ensures forall i :: 0 <= i < |r| ==> r[i] == Describe(tools[i], infos)
  {
    seq(|tools|, i requires 0 <= i < |tools| => Describe(tools[i], infos))
  }

  /** One descriptor per tool, in order and under the tool's name; its
      description is the schema's, else the tool's, else a generated one;
      with no schema `required` is empty and only the extras remain. */
  lemma {:induction false} DescriptorsFollowTools(tools: seq<ServletTool>, infos: seq<ServletInfo>, i: nat)
    requires i < |tools|
    ensures var d := Descriptors(tools, infos)[i];
      var schema := SchemaOf(InfoFor(tools[i], infos));
      d.name == tools[i].name
      && (schema.Some? && Present(schema.value.description) ==> d.description == schema.value.description.value)
      && (!(schema.Some? && Present(schema.value.description)) && Present(tools[i].description)
          ==> d.description == tools[i].description.value)
      && (!(schema.Some? && Present(schema.value.description)) && !Present(tools[i].description)
          ==> d.description == "Execute the " + tools[i].name + " function")
      && (schema.None? ==> d.required == [] && d.properties.Keys <= {"servlet_description"})
      && (forall k :: k in d.properties && k !in {"tools", "servlet_name", "servlet_description"}
            ==> schema.Some? && schema.value.properties.Some? && k in schema.value.properties.value)
  {
    var d := Descriptors(tools, infos)[i];
    assert d == Describe(tools[i], infos);
    var info := InfoFor(tools[i], infos);
    var schema := SchemaOf(info);
    ExtrasKeys(if schema.Some? && schema.value.properties.Some? then schema.value.properties.value else map[], info);
  }

  /** The extras add only their own three keys, and without a schema only
      the description one. */
  lemma ExtrasKeys(properties: Object, info: Option<ServletInfo>)
    ensures forall k ::
              k in WithExtras(properties, info) && k !in {"tools", "servlet_name", "servlet_description"}
              ==> k in properties
    ensures SchemaOf(info).None? ==> WithExtras(properties, info).Keys <= properties.Keys + {"servlet_description"}
  {
  }

  /** The schema consulted is that of the first servlet with the tool's slug. */
  lemma {:induction false} FirstMatchingServletWins(tool: ServletTool, infos: seq<ServletInfo>, j: nat)
    requires j < |infos| && infos[j].slug == tool.servletSlug
    requires forall i :: 0 <= i < j ==> infos[i].slug != tool.servletSlug
    ensures InfoFor(tool, infos) == Some(infos[j])
  {
    var p := (info: ServletInfo) => info.slug == tool.servletSlug;
    assert p(infos[j]);
  }

  // ------------------------------------------------------------ plugin instances

  /** The foreign functions the route depends on. */
  datatype Effects = Effects(
    fetch: string -> WasmExecuteRoute.FetchOutcome,
    env: Environment,
    initFinishesFirst: bool,
    createPlugin: (seq<bv8>, PluginOptions) -> Result<Plugin, string>,
    stringify: Json -> string,
    parse: string -> Option<Json>)

  /** An entry of `pluginInstances`: the executor is represented by the
      module and options it was created with. */
  datatype PluginInstance = PluginInstance(
    functionName: string, contentAddress: string, wasm: seq<bv8>, options: Object)

  /** The options object built for one servlet's executor: WASI, the
      config and the worker flag, then each optional list or level that
      is given. */
  function InstanceOptions(info: ServletInfo): Object
  {
    var base: Object := map["useWasi" := JBool(true), "config" := if Truthy(info.config) then info.config.value else EmptyObject];
    var withWorker := if info.runInWorker.Some? then base["runInWorker" := info.runInWorker.value] else base;
    var withHosts := if HasLength(info.allowedHosts) then withWorker["allowedHosts" := info.allowedHosts.value] else withWorker;
    var withPaths := if HasKeys(info.allowedPaths) then withHosts["allowedPaths" := info.allowedPaths.value] else withHosts;
    if Truthy(info.logLevel) then withPaths["logLevel" := info.logLevel.value] else withPaths
  }

  /** WASI is always on and `config` defaults to `{}`; host and path
      lists and the log level are passed only when given, non-empty or
      truthy; `runInWorker` is passed as given. */
  lemma InstanceOptionsFields(info: ServletInfo)
    ensures var o := InstanceOptions(info);
      "useWasi" in o && o["useWasi"] == JBool(true)
      && "config" in o && o["config"] == (if Truthy(info.config) then info.config.value else EmptyObject)
      && ("allowedHosts" in o <==> HasLength(info.allowedHosts))
      && (HasLength(info.allowedHosts) ==> o["allowedHosts"] == info.allowedHosts.value)
      && ("allowedPaths" in o <==> HasKeys(info.allowedPaths))
      && ("logLevel" in o <==> Truthy(info.logLevel))
      && ("runInWorker" in o <==> info.runInWorker.Some?)
      && o.Keys <= {"useWasi", "config", "runInWorker", "allowedHosts", "allowedPaths", "logLevel"}
  {
  }

  /** The plugin an instance's executor holds when a tool runs. */
  function PluginOf(inst: PluginInstance, fx: Effects): Option<Plugin>
  {
    WasmExecuteRoute.PluginAtExecute(inst.wasm, inst.options,
      WasmExecuteRoute.LocalRun(WasmExecuteRoute.Fetched(inst.wasm), fx.env, fx.initFinishesFirst, fx.createPlugin))
  }

  /** One servlet's instance, or the message of what creating it throws. */
  function Instance(info: ServletInfo, fx: Effects): (r: Result<PluginInstance, Option<string>>)
    ensures !Present(info.contentAddress) ==> r == Failure(Some("Content address is required"))
    ensures r.Ok? ==> r.value.contentAddress == info.contentAddress.value
                      && r.value.functionName == OrElse(info.functionName, "call")
                      && fx.fetch(info.contentAddress.value).Fetched?
  {
    if !Present(info.contentAddress) then Failure(Some("Content address is required"))
    else
      var address := info.contentAddress.value;
      match fx.fetch(address)
      case NotOk(t) => Failure(Some("Failed to fetch servlet content: " + t))
      case FetchThrew(m) => Failure(m)
      case Fetched(wasm) =>
        Ok(PluginInstance(OrElse(info.functionName, "call"), address, wasm, InstanceOptions(info)))
  }

  /** Each servlet's instance, computed independently of the others. */
  function Instantiated(infos: seq<ServletInfo>, fx: Effects): (made: seq<Result<PluginInstance, Option<string>>>)
    ensures |made| == |infos|
    ensures forall i :: 0 <= i < |infos| ==> made[i] == Instance(infos[i], fx)
  {
    seq(|infos|, i requires 0 <= i < |infos| => Instance(infos[i], fx))
  }

  /** The instance table after the first `n` servlets, given what creating
      each one gives; the first failure ends the loop and the request. */
  function Fill(infos: seq<ServletInfo>, made: seq<Result<PluginInstance, Option<string>>>, n: nat)
    : Result<map<string, PluginInstance>, Option<string>>
    requires |made| == |infos| && n <= |infos|
  {
    if n == 0 then Ok(map[])
    else
      match Fill(infos, made, n - 1)
      case Failure(e) => Failure(e)
      case Ok(table) =>
        match made[n - 1]
        case Failure(e) => Failure(e)
        case Ok(p) => Ok(table[infos[n - 1].slug := p])
  }

  function Instances(infos: seq<ServletInfo>, fx: Effects): Result<map<string, PluginInstance>, Option<string>>
  {
    Fill(infos, Instantiated(infos, fx), |infos|)
  }

  /** One iteration of that loop: check the address, fetch, build the
      options and create the executor. */
  method CreateInstance(info: ServletInfo, fx: Effects) returns (r: Result<PluginInstance, Option<string>>)
    ensures r == Instance(info, fx)
  {
    if !Present(info.contentAddress) {
      return Failure(Some("Content address is required"));
    }
    var address := info.contentAddress.value;
    var response := fx.fetch(address);
    match response {
      case NotOk(t) =>
        return Failure(Some("Failed to fetch servlet content: " + t));
      case FetchThrew(m) =>
        return Failure(m);
      case Fetched(wasm) =>
        var options := InstanceOptions(info);
        return Ok(PluginInstance(OrElse(info.functionName, "call"), address, wasm, options));
    }
  }

  /** The `for` loop filling `pluginInstances`. */
  method BuildInstances(infos: seq<ServletInfo>, fx: Effects)
    returns (r: Result<map<string, PluginInstance>, Option<string>>)
    ensures r == Instances(infos, fx)
  {
    ghost var made := Instantiated(infos, fx);
    var table: map<string, PluginInstance> := map[];
    var i := 0;
    while i < |infos|
      invariant 0 <= i <= |infos|
      invariant Fill(infos, made, i) == Ok(table)
    {
      var instance := CreateInstance(infos[i], fx);
      assert made[i] == instance;
      FillStep(infos, made, i, table);
      if instance.Failure? {
        FailureSticks(infos, made, i + 1, |infos|);
        return Failure(instance.error);
      }
      table := table[infos[i].slug := instance.value];
      i := i + 1;
    }
    return Ok(table);
  }

  /** One more servlet: its failure ends the fill, its instance is stored. */
  lemma FillStep(infos: seq<ServletInfo>, made: seq<Result<PluginInstance, Option<string>>>,
                 n: nat, table: map<string, PluginInstance>)
    requires |made| == |infos| && n < |infos| && Fill(infos, made, n) == Ok(table)
    ensures Fill(infos, made, n + 1) ==
      if made[n].Failure? then Failure(made[n].error) else Ok(table[infos[n].slug := made[n].value])
  {
  }

  lemma {:induction false} FailureSticks(infos: seq<ServletInfo>, made: seq<Result<PluginInstance, Option<string>>>,
                                         n: nat, m: nat)
    requires |made| == |infos| && n <= m <= |infos|
    requires Fill(infos, made, n).Failure?
    ensures Fill(infos, made, m) == Fill(infos, made, n)
    decreases m - n
  {
    if n < m {
      FailureSticks(infos, made, n, m - 1);
    }
  }

  /** A servlet without a content address fails the whole request rather
      than being skipped. */
  lemma {:induction false} MissingAddressAborts(infos: seq<ServletInfo>, fx: Effects, j: nat)
    requires j < |infos| && !Present(infos[j].contentAddress)
    ensures Instances(infos, fx).Failure?
  {
    var made := Instantiated(infos, fx);
    assert made[j].Failure?;
    FailedCreationAborts(infos, made, |infos|, j);
  }

  lemma {:induction false} FailedCreationAborts(infos: seq<ServletInfo>, made: seq<Result<PluginInstance, Option<string>>>,
                                                n: nat, j: nat)
    requires |made| == |infos| && j < n <= |infos| && made[j].Failure?
    ensures Fill(infos, made, n).Failure?
    decreases n
  {
    if j < n - 1 {
      FailedCreationAborts(infos, made, n - 1, j);
    }
  }

  /** When every servlet is instantiated, the table has one entry per slug, ... */
  lemma {:induction false} FillKeys(infos: seq<ServletInfo>, made: seq<Result<PluginInstance, Option<string>>>, n: nat)
    requires |made| == |infos| && n <= |infos| && Fill(infos, made, n).Ok?
    ensures forall s :: s in Fill(infos, made, n).value <==> exists i :: 0 <= i < n && infos[i].slug == s
    decreases n
  {
    if n > 0 {
      FillKeys(infos, made, n - 1);
      var prev := Fill(infos, made, n - 1).value;
      assert made[n - 1].Ok?;
      assert Fill(infos, made, n).value == prev[infos[n - 1].slug := made[n - 1].value];
    }
  }

  /** ... holding the instance of the last servlet with that slug. */
  lemma {:induction false} FillLastWins(infos: seq<ServletInfo>, made: seq<Result<PluginInstance, Option<string>>>,
                                        n: nat, i: nat)
    requires |made| == |infos| && i < n <= |infos| && Fill(infos, made, n).Ok?
    requires forall k :: i < k < n ==> infos[k].slug != infos[i].slug
    ensures made[i].Ok? && infos[i].slug in Fill(infos, made, n).value
    ensures Fill(infos, made, n).value[infos[i].slug] == made[i].value
    decreases n
  {
    var prev := Fill(infos, made, n - 1);
    assert prev.Ok? && made[n - 1].Ok?;
    assert Fill(infos, made, n).value == prev.value[infos[n - 1].slug := made[n - 1].value];
    if i < n - 1 {
      FillLastWins(infos, made, n - 1, i);
    }
  }

  /** The same for the servlets themselves: each slug's instance carries
      the content address and the function name (its own or 'call') of
      the last servlet with that slug. */
  lemma InstancesCoverSlugs(infos: seq<ServletInfo>, fx: Effects)
    requires Instances(infos, fx).Ok?
    ensures var t := Instances(infos, fx).value;
      (forall s :: s in t <==> exists i :: 0 <= i < |infos| && infos[i].slug == s)
      && (forall i :: 0 <= i < |infos| && (forall k :: i < k < |infos| ==> infos[k].slug != infos[i].slug) ==>
            t[infos[i].slug].functionName == OrElse(infos[i].functionName, "call")
            && Some(t[infos[i].slug].contentAddress) == infos[i].contentAddress)
  {
    var made := Instantiated(infos, fx);
    FillKeys(infos, made, |infos|);
    forall i | 0 <= i < |infos| && (forall k :: i < k < |infos| ==> infos[k].slug != infos[i].slug)
      ensures Instances(infos, fx).value[infos[i].slug].functionName == OrElse(infos[i].functionName, "call")
      ensures Some(Instances(infos, fx).value[infos[i].slug].contentAddress) == infos[i].contentAddress
    {
      FillLastWins(infos, made, |infos|, i);
      assert made[i] == Instance(infos[i], fx);
    }
  }

  // ------------------------------------------------------------ tool use

  datatype Block =
    | TextBlock(text: string)
    | ToolUse(id: string, name: string, input: Json)
    | OtherBlock(kind: string)

  datatype ModelReply = ModelReply(role: string, content: seq<Block>, stopReason: Option<string>)

  /** One call of the model: a reply, or a thrown error with its message. */
  datatype ModelOutcome = Responds(reply: ModelReply) | ApiFails(message: Option<string>)

  datatype ToolResultBlock = ToolResultBlock(toolUseId: string, content: string, isError: bool)

  /** A tool's output after the parse guard. */
  datatype Parsed = ParsedObject(value: Json) | RawText(text: string)

  datatype Message =
    | UserPrompt(text: string)
    | AssistantTurn(role: string, content: seq<Block>)
    | ToolResults(results: seq<ToolResultBlock>)

  datatype HistoryEntry =
    | Prompted(text: string)
    | Replied(role: string, content: seq<Block>)
    | ToolRun(toolName: string, input: Json, outcome: Result<Parsed, string>)

  datatype ToolContext = ToolContext(
    tools: seq<ServletTool>, instances: map<string, PluginInstance>, fx: Effects)

  /** JSON is parsed only when the text starts with '{' and ends with '}';
      anything else, or a failed parse, keeps the raw text. */
  function ParseGuard(text: string, parse: string -> Option<Json>): (r: Parsed)
    ensures r.ParsedObject? ==> StartsWith(text, "{") && EndsWith(text, "}") && parse(text) == Some(r.value)
    ensures r.RawText? ==> r.text == text
  {
    if StartsWith(text, "{") && EndsWith(text, "}") then
      match parse(text)
      case Some(j) => ParsedObject(j)
      case None => RawText(text)
    else RawText(text)
  }

  /** The value a servlet receives, stringified: `{params: {name, arguments}}`. */
  function ServletInput(name: string, input: Json): (v: Json)
    ensures v.JObj? && v.fields.Keys == {"params"}
    ensures v.fields["params"].JObj? && v.fields["params"].fields.Keys == {"name", "arguments"}
    ensures v.fields["params"].fields["name"] == JStr(name) && v.fields["params"].fields["arguments"] == input
  {
    JObj(map["params" := JObj(map["name" := JStr(name), "arguments" := input])])
  }

  /** What running one `tool_use` gives: the parsed output or an error message. */
  function RunTool(name: string, input: Json, ctx: ToolContext): (r: Result<Parsed, string>)
    ensures (forall i :: 0 <= i < |ctx.tools| ==> ctx.tools[i].name != name) ==>
      r == Failure("Tool " + name + " not found")
  {
    match FindFirst(ctx.tools, (t: ServletTool) => t.name == name)
    case None => Failure("Tool " + name + " not found")
    case Some(i) =>
      var slug := ctx.tools[i].servletSlug;
      if slug !in ctx.instances then Failure("No plugin instance found for " + slug)
      else
        var inst := ctx.instances[slug];
        var result := ExecuteOn(PluginOf(inst, ctx.fx), inst.functionName, ctx.fx.stringify(ServletInput(name, input)));
        if Present(result.error) then Failure(result.error.value)
        else Ok(ParseGuard(result.output, ctx.fx.parse))
  }

  /** The tool run is the first one with the name; with no instance for
      its servlet the run fails naming the slug; otherwise the instance's
      executor runs its function on the stringified servlet input, an
      error is passed on as it is, and an output is guarded-parsed. */
  lemma RunToolOutcomes(name: string, input: Json, ctx: ToolContext, i: nat)
    requires i < |ctx.tools| && ctx.tools[i].name == name
    requires forall j :: 0 <= j < i ==> ctx.tools[j].name != name
    ensures var slug := ctx.tools[i].servletSlug;
      (slug !in ctx.instances ==> RunTool(name, input, ctx) == Failure("No plugin instance found for " + slug))
      && (slug in ctx.instances ==>
            var inst := ctx.instances[slug];
            var result := ExecuteOn(PluginOf(inst, ctx.fx), inst.functionName,
                                    ctx.fx.stringify(ServletInput(name, input)));
            (Present(result.error) ==> RunTool(name, input, ctx) == Failure(result.error.value))
            && (!Present(result.error) ==> RunTool(name, input, ctx) == Ok(ParseGuard(result.output, ctx.fx.parse))))
  {
    var p := (t: ServletTool) => t.name == name;
    assert p(ctx.tools[i]);
    assert FindFirst(ctx.tools, p) == Some(i);
  }

  /** The `tool_result` content is always a string. */
  function ResultBlock(id: string, outcome: Result<Parsed, string>, stringify: Json -> string): ToolResultBlock
  {
    match outcome
    case Failure(m) => ToolResultBlock(id, "Error: " + m, true)
    case Ok(ParsedObject(j)) => ToolResultBlock(id, stringify(j), false)
    case Ok(RawText(t)) => ToolResultBlock(id, t, false)
  }

  function ToolUses(blocks: seq<Block>): (r: seq<Block>)
    ensures |r| <= |blocks|
    ensures forall k :: 0 <= k < |r| ==> r[k].ToolUse?
    decreases |blocks|
  {
    if |blocks| == 0 then []
    else
      var last := blocks[|blocks| - 1];
      ToolUses(blocks[..|blocks| - 1]) + (if last.ToolUse? then [last] else [])
  }

  predicate IsToolUse(b: Block)
  {
    b.ToolUse?
  }

  /** The tool uses are the `tool_use` blocks, every one of them, in block
      order: the blocks filtered by kind. */
  lemma {:induction false} ToolUsesAreFiltered(blocks: seq<Block>)
    ensures ToolUses(blocks) == Filter(blocks, IsToolUse)
    ensures forall b :: b in ToolUses(blocks) <==> b in blocks && b.ToolUse?
    decreases |blocks|
  {
    if |blocks| > 0 {
      var front := blocks[..|blocks| - 1];
      var last := blocks[|blocks| - 1];
      ToolUsesAreFiltered(front);
      assert blocks == front + [last];
      FilterAppend(front, [last], IsToolUse);
      assert [last][1..] == [];
      assert Filter([last], IsToolUse) == (if last.ToolUse? then [last] else []);
    }
    FilterMembers(blocks, IsToolUse);
  }

  /** Tool uses of two runs of blocks are those of each, one after the
      other; a single block is its own tool use or none. */
  lemma ToolUsesAppend(a: seq<Block>, b: seq<Block>)
    ensures ToolUses(a + b) == ToolUses(a) + ToolUses(b)
    ensures |a| == 1 ==> ToolUses(a) == (if a[0].ToolUse? then a else [])
  {
    ToolUsesAreFiltered(a + b);
    ToolUsesAreFiltered(a);
    ToolUsesAreFiltered(b);
    FilterAppend(a, b, IsToolUse);
    if |a| == 1 {
      assert a[..0] == [];
    }
  }

  function ResultsFor(blocks: seq<Block>, ctx: ToolContext): seq<ToolResultBlock>
    decreases |blocks|
  {
    if |blocks| == 0 then []
    else
      var last := blocks[|blocks| - 1];
      ResultsFor(blocks[..|blocks| - 1], ctx)
      + (if last.ToolUse?
         then [ResultBlock(last.id, RunTool(last.name, last.input, ctx), ctx.fx.stringify)] else [])
  }

  function EntriesFor(blocks: seq<Block>, ctx: ToolContext): seq<HistoryEntry>
    decreases |blocks|
  {
    if |blocks| == 0 then []
    else
      var last := blocks[|blocks| - 1];
      EntriesFor(blocks[..|blocks| - 1], ctx)
      + (if last.ToolUse? then [ToolRun(last.name, last.input, RunTool(last.name, last.input, ctx))] else [])
  }

  /** Every `tool_use` block gets exactly one `tool_result` and one history
      entry, in block order, carrying its id and its tool name; other
      blocks get nothing. */
  lemma {:induction false} OneResultPerToolUse(blocks: seq<Block>, ctx: ToolContext)
    ensures |ResultsFor(blocks, ctx)| == |ToolUses(blocks)| == |EntriesFor(blocks, ctx)|
    ensures forall k :: 0 <= k < |ToolUses(blocks)| ==>
      ResultsFor(blocks, ctx)[k].toolUseId == ToolUses(blocks)[k].id
      && EntriesFor(blocks, ctx)[k].ToolRun?
      && EntriesFor(blocks, ctx)[k].toolName == ToolUses(blocks)[k].name
      && EntriesFor(blocks, ctx)[k].outcome == RunTool(ToolUses(blocks)[k].name, ToolUses(blocks)[k].input, ctx)
      && ResultsFor(blocks, ctx)[k] == ResultBlock(ToolUses(blocks)[k].id, EntriesFor(blocks, ctx)[k].outcome,
                                                   ctx.fx.stringify)
    decreases |blocks|
  {
    if |blocks| > 0 {
      OneResultPerToolUse(blocks[..|blocks| - 1], ctx);
    }
  }

  /** Blocks are answered independently: a failing block does not stop
      the ones after it. */
  lemma {:induction false} ResultsAppend(front: seq<Block>, back: seq<Block>, ctx: ToolContext)
    ensures ResultsFor(front + back, ctx) == ResultsFor(front, ctx) + ResultsFor(back, ctx)
    ensures ToolUses(front + back) == ToolUses(front) + ToolUses(back)
    decreases |back|
  {
    if |back| > 0 {
      var init := back[..|back| - 1];
      assert (front + back)[..|front + back| - 1] == front + init;
      assert (front + back)[|front + back| - 1] == back[|back| - 1];
      ResultsAppend(front, init, ctx);
    } else {
      assert front + back == front;
    }
  }

  /** An unknown tool, a missing instance or an executor error is reported
      to the model as an error result "Error: <message>". */
  lemma ToolFailuresReported(id: string, name: string, input: Json, ctx: ToolContext)
    ensures RunTool(name, input, ctx).Failure? ==>
      ResultBlock(id, RunTool(name, input, ctx), ctx.fx.stringify)
        == ToolResultBlock(id, "Error: " + RunTool(name, input, ctx).error, true)
    ensures FindFirst(ctx.tools, (t: ServletTool) => t.name == name).None? ==>
      ResultBlock(id, RunTool(name, input, ctx), ctx.fx.stringify)
        == ToolResultBlock(id, "Error: Tool " + name + " not found", true)
  {
    if FindFirst(ctx.tools, (t: ServletTool) => t.name == name).None? {
      assert "Error: " + ("Tool " + name + " not found") == "Error: Tool " + name + " not found";
    }
  }

  /** The inner loop over one reply's blocks. */
  method ProcessBlocks(blocks: seq<Block>, ctx: ToolContext)
    returns (results: seq<ToolResultBlock>, entries: seq<HistoryEntry>, toolUseCount: nat)
    ensures results == ResultsFor(blocks, ctx)
    ensures entries == EntriesFor(blocks, ctx)
    ensures toolUseCount == |ToolUses(blocks)|
  {
    results, entries, toolUseCount := [], [], 0;
    var i := 0;
    while i < |blocks|
      invariant 0 <= i <= |blocks|
      invariant results == ResultsFor(blocks[..i], ctx)
      invariant entries == EntriesFor(blocks[..i], ctx)
      invariant toolUseCount == |ToolUses(blocks[..i])|
    {
      assert blocks[..i + 1][..i] == blocks[..i];
      var block := blocks[i];
      if block.ToolUse? {
        toolUseCount := toolUseCount + 1;
        var outcome := RunTool(block.name, block.input, ctx);
        results := results + [ResultBlock(block.id, outcome, ctx.fx.stringify)];
        entries := entries + [ToolRun(block.name, block.input, outcome)];
      }
      i := i + 1;
    }
    assert blocks[..i] == blocks;
  }

  // ------------------------------------------------------------ the loop

  /** The loop goes on after a reply that stops for `tool_use`, or that
      ends its turn after using at least one tool. */
  predicate Continues(r: ModelReply)
  {
    r.stopReason == Some("tool_use") || (r.stopReason == Some("end_turn") && |ToolUses(r.content)| > 0)
  }

  /** What the model is sent each round. The temperature, a float, is
      not modelled. */
  datatype ApiRequest = ApiRequest(
    model: string, maxTokens: nat, system: string, tools: seq<ToolDescriptor>, messages: seq<Message>)

  const PromptOpening := "You are an AI assistant that helps users interact with WASM servlets. \nYou have access to the following "
  const PromptClosing := ".\nYour task is to understand the user's request in natural language and execute the appropriate servlet functions."
    + "\nWhen calling a tool, use the exact format required by the tool's input schema."
    + "\nFor each tool call, structure your response to:"
    + "\n1. Explain what you're about to do\n2. Call the appropriate tool with the correct parameters"
    + "\n3. Interpret the results in a user-friendly way"

  /** The system prompt: the number of tools and their names, joined with ', '. */
  function SystemMessage(names: seq<string>): string
  {
    PromptOpening + IntToString(|names|) + " tool(s): " + Join(names, ", ") + PromptClosing
  }

  function DescriptorNames(descriptors: seq<ToolDescriptor>): (r: seq<string>)
    ensures |r| == |descriptors|
    ensures forall i :: 0 <= i < |r| ==> r[i] == descriptors[i].name
  {
    seq(|descriptors|, i requires 0 <= i < |descriptors| => descriptors[i].name)
  }

  datatype LoopOutcome =
    | Finished(finalMessage: ModelReply, history: seq<HistoryEntry>, sent: seq<ApiRequest>)
    | ApiError(message: Option<string>, sent: seq<ApiRequest>)
    | ScriptExhausted(history: seq<HistoryEntry>, sent: seq<ApiRequest>)

  function Request(descriptors: seq<ToolDescriptor>, messages: seq<Message>): ApiRequest
  {
    ApiRequest("claude-3-haiku-20240307", 4096, SystemMessage(DescriptorNames(descriptors)), descriptors, messages)
  }

  /** Every request carries the same system prompt, which states how many
      servlet tools there are and names each of them. */
  lemma SystemPromptNamesTools(tools: seq<ServletTool>, infos: seq<ServletInfo>, messages: seq<Message>, k: nat)
    requires k < |tools|
    ensures var system := Request(Descriptors(tools, infos), messages).system;
      StartsWith(system, PromptOpening + IntToString(|tools|) + " tool(s): ")
      && Contains(system, tools[k].name)
  {
    var names := DescriptorNames(Descriptors(tools, infos));
    assert names[k] == tools[k].name;
    JoinHasPart(names, ", ", k);
    Framed(PromptOpening + IntToString(|tools|) + " tool(s): ", Join(names, ", "), PromptClosing, names[k]);
  }

  lemma Framed(head: string, middle: string, tail: string, sub: string)
    requires Contains(middle, sub)
    ensures StartsWith(head + middle + tail, head)
    ensures Contains(head + middle + tail, sub)
  {
    assert (head + middle + tail)[..|head|] == head;
    ContainsAfterPrefix(head, middle, sub);
    ContainsBeforeSuffix(head + middle, tail, sub);
  }

  /** The rest of the conversation from the given state. */
  function Converse(script: seq<ModelOutcome>, ctx: ToolContext, descriptors: seq<ToolDescriptor>,
                    messages: seq<Message>, history: seq<HistoryEntry>, sent: seq<ApiRequest>): LoopOutcome
    decreases |script|
  {
    if |script| == 0 then ScriptExhausted(history, sent)
    else
      var sent' := sent + [Request(descriptors, messages)];
      match script[0]
      case ApiFails(m) => ApiError(m, sent')
      case Responds(r) =>
        var history' := history + [Replied(r.role, r.content)] + EntriesFor(r.content, ctx);
        var messages' := messages + [AssistantTurn(r.role, r.content)];
        if Continues(r) then
          Converse(script[1..], ctx, descriptors, messages' + [ToolResults(ResultsFor(r.content, ctx))], history', sent')
        else Finished(r, history', sent')
  }

  /** The do-while loop. Each round sends the messages so far, records the
      reply in both lists, answers its tool uses, and either goes on with
      the results as a new user message or stops with that reply. */
  method AgenticLoop(prompt: string, script: seq<ModelOutcome>, ctx: ToolContext, descriptors: seq<ToolDescriptor>)
    returns (out: LoopOutcome)
    ensures out == Converse(script, ctx, descriptors, [UserPrompt(prompt)], [Prompted(prompt)], [])
  {
    var messages := [UserPrompt(prompt)];
    var history := [Prompted(prompt)];
    var sent: seq<ApiRequest> := [];
    var k := 0;
    while k < |script|
      invariant 0 <= k <= |script|
      invariant Converse(script, ctx, descriptors, [UserPrompt(prompt)], [Prompted(prompt)], [])
             == Converse(script[k..], ctx, descriptors, messages, history, sent)
      decreases |script| - k
    {
      assert script[k..][1..] == script[k + 1..];
      sent := sent + [Request(descriptors, messages)];
      match script[k] {
        case ApiFails(m) =>
          return ApiError(m, sent);
        case Responds(r) =>
          messages := messages + [AssistantTurn(r.role, r.content)];
          history := history + [Replied(r.role, r.content)];
          var results, entries, toolUseCount := ProcessBlocks(r.content, ctx);
          history := history + entries;
          if r.stopReason == Some("tool_use") || (r.stopReason == Some("end_turn") && toolUseCount > 0) {
            messages := messages + [ToolResults(results)];
          } else {
            return Finished(r, history, sent);
          }
      }
      k := k + 1;
    }
    return ScriptExhausted(history, sent);
  }

  /** The number of leading replies that keep the loop going. */
  function ContinuingPrefix(script: seq<ModelOutcome>): (n: nat)
    ensures n <= |script|
    ensures forall j :: 0 <= j < n ==> script[j].Responds? && Continues(script[j].reply)
    ensures n < |script| ==> script[n].ApiFails? || !Continues(script[n].reply)
    decreases |script|
  {
    if |script| > 0 && script[0].Responds? && Continues(script[0].reply)
    then 1 + ContinuingPrefix(script[1..]) else 0
  }

  /** The history entries one reply adds. */
  function Round(o: ModelOutcome, ctx: ToolContext): seq<HistoryEntry>
  {
    match o
    case ApiFails(_) => []
    case Responds(r) => [Replied(r.role, r.content)] + EntriesFor(r.content, ctx)
  }

  function Transcript(script: seq<ModelOutcome>, ctx: ToolContext): seq<HistoryEntry>
    decreases |script|
  {
    if |script| == 0 then [] else Round(script[0], ctx) + Transcript(script[1..], ctx)
  }

  /** One round that continues: the rest of the conversation starts from
      the messages and history that round leaves. */
  lemma ContinuingRound(
    script: seq<ModelOutcome>, ctx: ToolContext, descriptors: seq<ToolDescriptor>,
    messages: seq<Message>, history: seq<HistoryEntry>, sent: seq<ApiRequest>)
    requires |script| > 0 && script[0].Responds? && Continues(script[0].reply)
    ensures var r := script[0].reply;
      Converse(script, ctx, descriptors, messages, history, sent)
      == Converse(script[1..], ctx, descriptors,
                  messages + [AssistantTurn(r.role, r.content), ToolResults(ResultsFor(r.content, ctx))],
                  history + Round(script[0], ctx), sent + [Request(descriptors, messages)])
  {
    var r := script[0].reply;
    assert messages + [AssistantTurn(r.role, r.content)] + [ToolResults(ResultsFor(r.content, ctx))]
        == messages + [AssistantTurn(r.role, r.content), ToolResults(ResultsFor(r.content, ctx))];
    assert history + [Replied(r.role, r.content)] + EntriesFor(r.content, ctx) == history + Round(script[0], ctx);
  }

  /** The loop stops at the first reply that does not continue, with that
      reply as the final message. The history is the starting history
      followed, for every reply up to and including it, by the reply and
      one entry per tool use; the model was asked once per reply. */
  lemma {:induction false} LoopStopsAtFirstFinalReply(
    script: seq<ModelOutcome>, ctx: ToolContext, descriptors: seq<ToolDescriptor>,
    messages: seq<Message>, history: seq<HistoryEntry>, sent: seq<ApiRequest>)
    requires ContinuingPrefix(script) < |script| && script[ContinuingPrefix(script)].Responds?
    ensures var n := ContinuingPrefix(script);
      var out := Converse(script, ctx, descriptors, messages, history, sent);
      out.Finished? && out.finalMessage == script[n].reply && !Continues(out.finalMessage)
      && out.history == history + Transcript(script[..n + 1], ctx)
      && |out.sent| == |sent| + n + 1
    decreases |script|
  {
    var n := ContinuingPrefix(script);
    if n == 0 {
      FinalRound(script, ctx, descriptors, messages, history, sent);
      assert script[..1][1..] == [];
    } else {
      var r := script[0].reply;
      var messages' := messages + [AssistantTurn(r.role, r.content), ToolResults(ResultsFor(r.content, ctx))];
      var history' := history + Round(script[0], ctx);
      var sent' := sent + [Request(descriptors, messages)];
      ContinuingRound(script, ctx, descriptors, messages, history, sent);
      assert ContinuingPrefix(script[1..]) == n - 1;
      LoopStopsAtFirstFinalReply(script[1..], ctx, descriptors, messages', history', sent');
      var out' := Converse(script[1..], ctx, descriptors, messages', history', sent');
      assert out'.history == history' + Transcript(script[1..][..n], ctx);
      TranscriptPrefix(script, n, ctx);
      AppendAfter(history, Round(script[0], ctx), Transcript(script[1..][..n], ctx), Transcript(script[..n + 1], ctx));
      assert out'.finalMessage == script[n].reply;
    }
  }

  lemma AppendAfter(history: seq<HistoryEntry>, first: seq<HistoryEntry>, rest: seq<HistoryEntry>, whole: seq<HistoryEntry>)
    requires whole == first + rest
    ensures history + first + rest == history + whole
  {
  }

  lemma FinalRound(
    script: seq<ModelOutcome>, ctx: ToolContext, descriptors: seq<ToolDescriptor>,
    messages: seq<Message>, history: seq<HistoryEntry>, sent: seq<ApiRequest>)
    requires |script| > 0 && script[0].Responds? && !Continues(script[0].reply)
    ensures Converse(script, ctx, descriptors, messages, history, sent)
      == Finished(script[0].reply, history + Round(script[0], ctx), sent + [Request(descriptors, messages)])
  {
    var r := script[0].reply;
    assert history + [Replied(r.role, r.content)] + EntriesFor(r.content, ctx) == history + Round(script[0], ctx);
  }

  lemma TranscriptPrefix(script: seq<ModelOutcome>, n: nat, ctx: ToolContext)
    requires n < |script|
    ensures Transcript(script[..n + 1], ctx) == Round(script[0], ctx) + Transcript(script[1..][..n], ctx)
  {
    assert script[..n + 1][1..] == script[1..][..n];
  }

  /** A failing model call after the continuing replies ends the loop
      with that call's error. */
  lemma {:induction false} LoopFailsAtApiError(
    script: seq<ModelOutcome>, ctx: ToolContext, descriptors: seq<ToolDescriptor>,
    messages: seq<Message>, history: seq<HistoryEntry>, sent: seq<ApiRequest>)
    requires ContinuingPrefix(script) < |script| && script[ContinuingPrefix(script)].ApiFails?
    ensures var out := Converse(script, ctx, descriptors, messages, history, sent);
      out.ApiError? && out.message == script[ContinuingPrefix(script)].message
      && |out.sent| == |sent| + ContinuingPrefix(script) + 1
    decreases |script|
  {
    if ContinuingPrefix(script) > 0 {
      var r := script[0].reply;
      ContinuingRound(script, ctx, descriptors, messages, history, sent);
      LoopFailsAtApiError(script[1..], ctx, descriptors,
                          messages + [AssistantTurn(r.role, r.content), ToolResults(ResultsFor(r.content, ctx))],
                          history + Round(script[0], ctx), sent + [Request(descriptors, messages)]);
    }
  }

  /** Running out of script after replies that all continue. */
  lemma {:induction false} LoopExhausts(
    script: seq<ModelOutcome>, ctx: ToolContext, descriptors: seq<ToolDescriptor>,
    messages: seq<Message>, history: seq<HistoryEntry>, sent: seq<ApiRequest>)
    requires ContinuingPrefix(script) == |script|
    ensures var out := Converse(script, ctx, descriptors, messages, history, sent);
      out.ScriptExhausted? && out.history == history + Transcript(script, ctx)
    decreases |script|
  {
    if |script| > 0 {
      var r := script[0].reply;
      ContinuingRound(script, ctx, descriptors, messages, history, sent);
      LoopExhausts(script[1..], ctx, descriptors,
                   messages + [AssistantTurn(r.role, r.content), ToolResults(ResultsFor(r.content, ctx))],
                   history + Round(script[0], ctx), sent + [Request(descriptors, messages)]);
    }
  }

  /** Each later request extends the previous one by the reply and its
      tool results. */
  lemma {:induction false} RequestsGrow(
    script: seq<ModelOutcome>, ctx: ToolContext, descriptors: seq<ToolDescriptor>,
    messages: seq<Message>, history: seq<HistoryEntry>, sent: seq<ApiRequest>)
    requires |script| >= 2 && script[0].Responds? && Continues(script[0].reply)
    requires !Converse(script, ctx, descriptors, messages, history, sent).ScriptExhausted?
    ensures var out := Converse(script, ctx, descriptors, messages, history, sent);
      var r := script[0].reply;
      |out.sent| >= |sent| + 2
      && out.sent[|sent|].messages == messages
      && out.sent[|sent| + 1].messages
         == messages + [AssistantTurn(r.role, r.content), ToolResults(ResultsFor(r.content, ctx))]
  {
    var r := script[0].reply;
    var messages' := messages + [AssistantTurn(r.role, r.content)] + [ToolResults(ResultsFor(r.content, ctx))];
    var history' := history + [Replied(r.role, r.content)] + EntriesFor(r.content, ctx);
    var sent' := sent + [Request(descriptors, messages)];
    SentKeepsPrefix(script[1..], ctx, descriptors, messages', history', sent');
    assert messages' == messages + [AssistantTurn(r.role, r.content), ToolResults(ResultsFor(r.content, ctx))];
  }

  lemma {:induction false} SentKeepsPrefix(
    script: seq<ModelOutcome>, ctx: ToolContext, descriptors: seq<ToolDescriptor>,
    messages: seq<Message>, history: seq<HistoryEntry>, sent: seq<ApiRequest>)
    ensures var out := Converse(script, ctx, descriptors, messages, history, sent);
      |out.sent| >= |sent| && out.sent[..|sent|] == sent
      && (|script| > 0 ==> |out.sent| > |sent| && out.sent[|sent|] == Request(descriptors, messages))
    decreases |script|
  {
    if |script| > 0 {
      var sent' := sent + [Request(descriptors, messages)];
      match script[0] {
        case ApiFails(m) =>
        case Responds(r) =>
          if Continues(r) {
            var messages' := messages + [AssistantTurn(r.role, r.content)] + [ToolResults(ResultsFor(r.content, ctx))];
            var history' := history + [Replied(r.role, r.content)] + EntriesFor(r.content, ctx);
            SentKeepsPrefix(script[1..], ctx, descriptors, messages', history', sent');
            var out := Converse(script[1..], ctx, descriptors, messages', history', sent');
            assert out.sent[..|sent'|] == sent';
            assert out.sent[..|sent|] == sent'[..|sent|];
            assert out.sent[|sent|] == sent'[|sent|];
          }
      }
    }
  }

  // ------------------------------------------------------------ the route

  datatype ConversationReply =
    | Rejected(status: int, error: string)
    | Completed(finalMessage: ModelReply, stopReason: Option<string>, history: seq<HistoryEntry>, freed: set<string>)
    | Failed(error: string)
    | Unfinished

  function Validate(req: ConversationRequest): (r: Option<ConversationReply>)
    ensures r.Some? <==> req.httpMethod != "POST" || !Present(req.prompt)
                         || req.servletTools.None? || req.servletInfoList.None?
    ensures req.httpMethod != "POST" ==> r == Some(Rejected(405, "Method not allowed"))
    ensures req.httpMethod == "POST" && !Present(req.prompt) ==> r == Some(Rejected(400, "Prompt is required"))
    ensures req.httpMethod == "POST" && Present(req.prompt) && (req.servletTools.None? || req.servletInfoList.None?)
            ==> r == Some(Rejected(400, "Required data is missing"))
  {
    if req.httpMethod != "POST" then Some(Rejected(405, "Method not allowed"))
    else if !Present(req.prompt) then Some(Rejected(400, "Prompt is required"))
    else if req.servletTools.None? || req.servletInfoList.None? then Some(Rejected(400, "Required data is missing"))
    else None
  }

  function Thrown(m: Option<string>): ConversationReply
  {
    Failed(if m.Some? then m.value else "Unknown error")
  }

  /** The reply the route sends for a request and a script of model replies. */
  function ConversationReplyFor(req: ConversationRequest, script: seq<ModelOutcome>, fx: Effects): ConversationReply
  {
    match Validate(req)
    case Some(rejection) => rejection
    case None =>
      var tools := req.servletTools.value;
      var infos := req.servletInfoList.value;
      match Instances(infos, fx)
      case Failure(m) => Thrown(m)
      case Ok(instances) =>
        match Converse(script, ToolContext(tools, instances, fx), Descriptors(tools, infos),
                       [UserPrompt(req.prompt.value)], [Prompted(req.prompt.value)], [])
        case ApiError(m, _) => Thrown(m)
        case ScriptExhausted(_, _) => Unfinished
        case Finished(final, history, _) => Completed(final, final.stopReason, history, instances.Keys)
  }

  /** The cleanup loop: `free` every executor; a failing one is ignored.
      The executors are not modelled as objects here, so a freed executor
      is recorded by its slug in the returned set. */
  method FreeAll(instances: map<string, PluginInstance>) returns (freed: set<string>)
    ensures freed == instances.Keys
  {
    freed := {};
    var pending := instances.Keys;
    while pending != {}
      invariant pending <= instances.Keys
      invariant freed == instances.Keys - pending
      decreases pending
    {
      var slug :| slug in pending;
      freed := freed + {slug};
      pending := pending - {slug};
    }
  }

  method Handle(req: ConversationRequest, script: seq<ModelOutcome>, fx: Effects)
    returns (reply: ConversationReply, sent: seq<ApiRequest>)
    ensures reply == ConversationReplyFor(req, script, fx)
    ensures Validate(req).Some? ==> sent == []
  {
    sent := [];
    var rejection := Validate(req);
    if rejection.Some? {
      return rejection.value, [];
    }
    var tools := req.servletTools.value;
    var infos := req.servletInfoList.value;
    var descriptors := Descriptors(tools, infos);
    var built := BuildInstances(infos, fx);
    if built.Failure? {
      return Thrown(built.error), [];
    }
    var ctx := ToolContext(tools, built.value, fx);
    var out := AgenticLoop(req.prompt.value, script, ctx, descriptors);
    sent := out.sent;
    match out {
      case ApiError(m, _) =>
        reply := Thrown(m);
      case ScriptExhausted(_, _) =>
        reply := Unfinished;
      case Finished(final, history, _) =>
        var freed := FreeAll(built.value);
        reply := Completed(final, final.stopReason, history, freed);
    }
  }

  /** A completed conversation starts its history with the prompt, ends on
      a reply that does not continue, and freed every executor. */
  lemma {:induction false} CompletedConversation(req: ConversationRequest, script: seq<ModelOutcome>, fx: Effects)
    requires ConversationReplyFor(req, script, fx).Completed?
    ensures var c := ConversationReplyFor(req, script, fx);
      |c.history| > 0 && c.history[0] == Prompted(req.prompt.value)
      && !Continues(c.finalMessage) && c.stopReason == c.finalMessage.stopReason
      && (forall s :: s in c.freed <==> exists i :: 0 <= i < |req.servletInfoList.value|
                                                 && req.servletInfoList.value[i].slug == s)
  {
    var tools := req.servletTools.value;
    var infos := req.servletInfoList.value;
    var instances := Instances(infos, fx).value;
    var ctx := ToolContext(tools, instances, fx);
    var n := ContinuingPrefix(script);
    if n == |script| {
      LoopExhausts(script, ctx, Descriptors(tools, infos),
                   [UserPrompt(req.prompt.value)], [Prompted(req.prompt.value)], []);
      assert false;
    } else if script[n].ApiFails? {
      LoopFailsAtApiError(script, ctx, Descriptors(tools, infos),
                          [UserPrompt(req.prompt.value)], [Prompted(req.prompt.value)], []);
      assert false;
    }
    LoopStopsAtFirstFinalReply(script, ctx, Descriptors(tools, infos),
                               [UserPrompt(req.prompt.value)], [Prompted(req.prompt.value)], []);
    InstancesCoverSlugs(infos, fx);
  }

  /** Every rejection happens before any servlet is fetched. */
  lemma RejectionIgnoresEffects(req: ConversationRequest, s1: seq<ModelOutcome>, s2: seq<ModelOutcome>,
                                fx1: Effects, fx2: Effects)
    requires Validate(req).Some?
    ensures ConversationReplyFor(req, s1, fx1) == ConversationReplyFor(req, s2, fx2)
  {
  }
}
