/** The wasm-runner page (packages/wasm-runner/pages/index.tsx): running a
    module directly, sending a prompt to the conversation route, and
    choosing how a tool result is shown.

    Form fields are plain strings as the page holds them. `JSON.parse` is
    a function parameter returning the value or the message it throws. */
module RunnerPage {
  import opened Common
  import opened WasmExec
  import WasmExecuteRoute
  import Conversation

  // ------------------------------------------------------------ allowed paths

  /** One comma-separated entry of the allowed-paths field, with
      `split(':').map(trim)` destructured: the host part, and the guest
      part or "" when there is none. */
  datatype PathSegment = PathSegment(text: string, host: string, guest: string)

  function ParseSegment(text: string): (p: PathSegment)
    ensures p.text == text
  {
    var parts := Split(text, ':');
    PathSegment(text, Trim(parts[0]), if |parts| > 1 then Trim(parts[1]) else "")
  }

  /** The entries of the field, split on every comma (blank ones included). */
  function Segments(field: string): seq<PathSegment>
  {
    var parts := Split(field, ',');
    seq(|parts|, i requires 0 <= i < |parts| => ParseSegment(parts[i]))
  }

  predicate WellFormedSegment(p: PathSegment)
  {
    p.host != "" && p.guest != ""
  }

  function InvalidPathMessage(p: PathSegment): string
  {
    "Invalid path format: " + p.text + ". Should be /host/path:/guest/path"
  }

  /** What the lenient loop (used for prompts) builds: malformed entries
      are skipped and a later host overwrites. */
  function LenientPaths(segments: seq<PathSegment>): map<string, string>
    decreases |segments|
  {
    if |segments| == 0 then map[]
    else
      var last := segments[|segments| - 1];
      var m := LenientPaths(segments[..|segments| - 1]);
      if WellFormedSegment(last) then m[last.host := last.guest] else m
  }

  /** What the strict loop (used for direct runs) builds: the first
      malformed entry throws. */
  function StrictPaths(segments: seq<PathSegment>): Result<map<string, string>, string>
    decreases |segments|
  {
    if |segments| == 0 then Ok(map[])
    else
      var last := segments[|segments| - 1];
      match StrictPaths(segments[..|segments| - 1])
      case Failure(e) => Failure(e)
      case Ok(m) =>
        if WellFormedSegment(last) then Ok(m[last.host := last.guest])
        else Failure(InvalidPathMessage(last))
  }

  /** Strict parsing succeeds exactly when every entry is well formed, and
      then builds what lenient parsing builds. */
  lemma {:induction false} StrictAgreesWithLenient(segments: seq<PathSegment>)
    ensures StrictPaths(segments).Ok? <==> forall i :: 0 <= i < |segments| ==> WellFormedSegment(segments[i])
    ensures StrictPaths(segments).Ok? ==> StrictPaths(segments).value == LenientPaths(segments)
    decreases |segments|
  {
    if |segments| > 0 {
      var init := segments[..|segments| - 1];
      StrictAgreesWithLenient(init);
      assert forall j :: 0 <= j < |init| ==> init[j] == segments[j];
    }
  }

  /** A strict failure names the first malformed entry. */
  lemma {:induction false} StrictNamesFirstMalformed(segments: seq<PathSegment>, i: nat)
    requires i < |segments| && !WellFormedSegment(segments[i])
    requires forall j :: 0 <= j < i ==> WellFormedSegment(segments[j])
    ensures StrictPaths(segments) == Failure(InvalidPathMessage(segments[i]))
    decreases |segments|
  {
    var init := segments[..|segments| - 1];
    if i < |segments| - 1 {
      assert forall j :: 0 <= j <= i ==> init[j] == segments[j];
      StrictNamesFirstMalformed(init, i);
    } else {
      StrictAgreesWithLenient(init);
      assert forall j :: 0 <= j < |init| ==> init[j] == segments[j];
    }
  }

  /** A host is a key exactly when some well-formed entry names it. */
  lemma {:induction false} LenientKeys(segments: seq<PathSegment>)
    ensures forall h :: h in LenientPaths(segments) <==>
      exists i :: 0 <= i < |segments| && WellFormedSegment(segments[i]) && segments[i].host == h
    decreases |segments|
  {
    if |segments| > 0 {
      var init := segments[..|segments| - 1];
      LenientKeys(init);
      assert forall j :: 0 <= j < |init| ==> init[j] == segments[j];
    }
  }

  /** The guest stored for a host is that of its last well-formed entry. */
  lemma {:induction false} LenientLastWins(segments: seq<PathSegment>, i: nat)
    requires i < |segments| && WellFormedSegment(segments[i])
    requires forall k :: i < k < |segments| && WellFormedSegment(segments[k]) ==> segments[k].host != segments[i].host
    ensures segments[i].host in LenientPaths(segments)
    ensures LenientPaths(segments)[segments[i].host] == segments[i].guest
    decreases |segments|
  {
    var init := segments[..|segments| - 1];
    if i < |segments| - 1 {
      assert init[i] == segments[i];
      LenientLastWins(init, i);
    }
  }

  lemma {:induction false} StrictFailureSticks(segments: seq<PathSegment>, n: nat)
    requires n <= |segments| && StrictPaths(segments[..n]).Failure?
    ensures StrictPaths(segments) == StrictPaths(segments[..n])
    decreases |segments| - n
  {
    if n < |segments| {
      assert segments[..n + 1][..n] == segments[..n];
      StrictFailureSticks(segments, n + 1);
    } else {
      assert segments[..n] == segments;
    }
  }

  /** The strict `for` loop of `runWasm`, run when the field is not blank. */
  method ParsePathsStrict(segments: seq<PathSegment>) returns (r: Result<map<string, string>, string>)
    ensures r == StrictPaths(segments)
  {
    var paths: map<string, string> := map[];
    var i := 0;
    while i < |segments|
      invariant 0 <= i <= |segments|
      invariant StrictPaths(segments[..i]) == Ok(paths)
    {
      assert segments[..i + 1][..i] == segments[..i];
      var pair := segments[i];
      if pair.host != "" && pair.guest != "" {
        paths := paths[pair.host := pair.guest];
      } else {
        StrictFailureSticks(segments, i + 1);
        return Failure(InvalidPathMessage(pair));
      }
      i := i + 1;
    }
    assert segments[..i] == segments;
    return Ok(paths);
  }

  /** The lenient `for` loop of `processPrompt`, run when the field is not blank. */
  method ParsePathsLenient(segments: seq<PathSegment>) returns (paths: map<string, string>)
    ensures paths == LenientPaths(segments)
  {
    paths := map[];
    var i := 0;
    while i < |segments|
      invariant 0 <= i <= |segments|
      invariant LenientPaths(segments[..i]) == paths
    {
      assert segments[..i + 1][..i] == segments[..i];
      var pair := segments[i];
      if pair.host != "" && pair.guest != "" {
        paths := paths[pair.host := pair.guest];
      }
      i := i + 1;
    }
    assert segments[..i] == segments;
  }

  function PathsJson(m: map<string, string>): Json
  {
    JObj(map h | h in m :: JStr(m[h]))
  }

  // ------------------------------------------------------------ allowed hosts

  /** `.map(host => host.trim())`. */
  function TrimAll(parts: seq<string>): (r: seq<string>)
    ensures |r| == |parts|
    ensures forall i :: 0 <= i < |r| ==> r[i] == Trim(parts[i])
  {
    seq(|parts|, i requires 0 <= i < |parts| => Trim(parts[i]))
  }

  /** `allowedHosts.split(',').map(trim)`, absent when the field is blank. */
  function AllowedHosts(field: string): (r: Option<seq<string>>)
    ensures r.None? <==> Trim(field) == ""
    ensures r.Some? ==> r.value == TrimAll(Split(field, ','))
  {
    if Trim(field) == "" then None else Some(TrimAll(Split(field, ',')))
  }

  /** Hosts already trimmed and free of commas come back from their
      comma join unchanged. */
  lemma HostsRoundTrip(hosts: seq<string>)
    requires |hosts| >= 1 && hosts[0] != ""
    requires forall i :: 0 <= i < |hosts| ==> ',' !in hosts[i] && Trim(hosts[i]) == hosts[i]
    ensures AllowedHosts(Join(hosts, ",")) == Some(hosts)
  {
    JoinedHostsNotBlank(hosts);
    SplitJoin(hosts, ',');
    TrimAllFixed(hosts);
  }

  lemma JoinedHostsNotBlank(hosts: seq<string>)
    requires |hosts| >= 1 && hosts[0] != "" && Trim(hosts[0]) == hosts[0]
    ensures Trim(Join(hosts, ",")) != ""
  {
    JoinStartsWith(hosts, ",");
    TrimProperties(hosts[0]);
    NotBlank(Join(hosts, ","));
  }

  lemma TrimAllFixed(parts: seq<string>)
    requires forall i :: 0 <= i < |parts| ==> Trim(parts[i]) == parts[i]
    ensures TrimAll(parts) == parts
  {
    var r := TrimAll(parts);
    assert forall i :: 0 <= i < |r| ==> r[i] == parts[i];
  }

  lemma NotBlank(s: string)
    requires |s| > 0 && !IsSpace(s[0])
    ensures Trim(s) != ""
  {
    TrimProperties(s);
  }

  lemma JoinStartsWith(parts: seq<string>, sep: string)
    requires |parts| >= 1 && parts[0] != ""
    ensures |Join(parts, sep)| > 0 && Join(parts, sep)[0] == parts[0][0]
  {
    if |parts| > 1 {
      assert Join(parts, sep) == parts[0] + sep + Join(parts[1..], sep);
    }
  }

  function HostsJson(hosts: seq<string>): Json
  {
    JArr(seq(|hosts|, i requires 0 <= i < |hosts| => JStr(hosts[i])))
  }

  // ------------------------------------------------------------ servlet tools

  datatype MetaTool = MetaTool(name: string, description: Option<string>, inputSchema: Json)

  /** The parts of a servlet's metadata the page reads. */
  datatype ServletMetadata = ServletMetadata(
    name: Option<string>,
    description: Option<string>,
    schemaTools: Option<seq<MetaTool>>,
    lastContentAddress: Option<string>,
    bindingContentAddress: Option<string>,
    interfaceFunction: Option<string>)

  /** `name.split('/').pop()`: the text after the last '/', or the whole
      name when it has none. */
  function LastSegment(name: string): (r: string)
    ensures '/' !in r
    ensures EndsWith(name, r)
    ensures |r| < |name| ==> name[|name| - |r| - 1] == '/'
    ensures '/' !in name ==> r == name
  {
    SplitPiecesLackSeparator(name, '/');
    SplitLastPiece(name, '/');
    Split(name, '/')[|Split(name, '/')| - 1]
  }

  const DefaultSchema: Json := JObj(map["type" := JStr("object"), "properties" := EmptyObject])

  /** The tools sent with a prompt: the metadata's tools renamed to their
      last path segment, or one tool standing for the whole servlet. */
  function ServletToolsFor(meta: ServletMetadata, selected: string): seq<Conversation.ServletTool>
  {
    if meta.schemaTools.Some? && |meta.schemaTools.value| > 0 then
      var tools := meta.schemaTools.value;
      seq(|tools|, i requires 0 <= i < |tools| =>
        Conversation.ServletTool(
          if LastSegment(tools[i].name) != "" then LastSegment(tools[i].name) else tools[i].name,
          tools[i].description, tools[i].inputSchema, selected))
    else
      var whole := OrElse(meta.name, selected);
      [Conversation.ServletTool(
         if LastSegment(whole) != "" then LastSegment(whole) else selected,
         Some(OrElse(meta.description, "Execute " + selected + " servlet")),
         DefaultSchema, selected)]
  }

  /** Metadata tools keep their order and schema, are tagged with the
      selected slug and are named by their last '/' segment (the full name
      when that segment is empty); without metadata tools there is exactly
      one tool with an empty object schema. */
  lemma ToolsFromMetadata(meta: ServletMetadata, selected: string)
    ensures var tools := ServletToolsFor(meta, selected);
      (forall i :: 0 <= i < |tools| ==> tools[i].servletSlug == selected)
      && (meta.schemaTools.Some? && |meta.schemaTools.value| > 0 ==>
            |tools| == |meta.schemaTools.value|
            && forall i :: 0 <= i < |tools| ==>
                 tools[i].inputSchema == meta.schemaTools.value[i].inputSchema
                 && tools[i].description == meta.schemaTools.value[i].description
                 && (LastSegment(meta.schemaTools.value[i].name) != "" ==>
                       tools[i].name == LastSegment(meta.schemaTools.value[i].name) && '/' !in tools[i].name)
                 && (LastSegment(meta.schemaTools.value[i].name) == "" ==> tools[i].name == meta.schemaTools.value[i].name))
      && (!(meta.schemaTools.Some? && |meta.schemaTools.value| > 0) ==>
            |tools| == 1 && tools[0].inputSchema == DefaultSchema
            && tools[0].description == Some(OrElse(meta.description, "Execute " + selected + " servlet"))
            && (LastSegment(OrElse(meta.name, selected)) != "" ==> tools[0].name == LastSegment(OrElse(meta.name, selected)))
            && (LastSegment(OrElse(meta.name, selected)) == "" ==> tools[0].name == selected))
  {
  }

  /** `meta.lastContentAddress || binding.contentAddress`. */
  function ContentAddressOf(meta: ServletMetadata): (r: Option<string>)
    ensures Present(meta.lastContentAddress) ==> r == meta.lastContentAddress
    ensures !Present(meta.lastContentAddress) ==> r == meta.bindingContentAddress
  {
    if Present(meta.lastContentAddress) then meta.lastContentAddress else meta.bindingContentAddress
  }

  /** `interface.function || selectedFunction || 'call'`. */
  function FunctionNameOf(meta: ServletMetadata, selectedFunction: string): (r: string)
    ensures r != ""
    ensures Present(meta.interfaceFunction) ==> r == meta.interfaceFunction.value
    ensures !Present(meta.interfaceFunction) && selectedFunction != "" ==> r == selectedFunction
    ensures !Present(meta.interfaceFunction) && selectedFunction == "" ==> r == "call"
  {
    OrElse(meta.interfaceFunction, if selectedFunction != "" then selectedFunction else "call")
  }

  // ------------------------------------------------------------ results

  /** The texts of the final message's text blocks, in order. */
  function Texts(blocks: seq<Conversation.Block>): (r: seq<string>)
    ensures |r| <= |blocks|
    decreases |blocks|
  {
    if |blocks| == 0 then []
    else (if blocks[0].TextBlock? then [blocks[0].text] else []) + Texts(blocks[1..])
  }

  predicate IsTextBlock(b: Conversation.Block)
  {
    b.TextBlock?
  }

  /** `filter(block => block.type === 'text').map(block => block.text)`:
      one text per text block, in block order, and nothing for the other
      blocks. */
  lemma {:induction false} TextsOfTextBlocks(blocks: seq<Conversation.Block>)
    ensures var kept := Filter(blocks, IsTextBlock);
      |Texts(blocks)| == |kept|
      && forall k :: 0 <= k < |kept| ==> kept[k].TextBlock? && Texts(blocks)[k] == kept[k].text
    decreases |blocks|
  {
    if |blocks| > 0 {
      TextsOfTextBlocks(blocks[1..]);
      var kept := Filter(blocks[1..], IsTextBlock);
      FilterMembers(blocks[1..], IsTextBlock);
      forall k | 0 <= k < |kept| ensures kept[k].TextBlock? {
        assert kept[k] in kept;
      }
    }
  }

  /** Texts of two runs of blocks are the texts of each, one after the other. */
  lemma {:induction false} TextsAppend(a: seq<Conversation.Block>, b: seq<Conversation.Block>)
    ensures Texts(a + b) == Texts(a) + Texts(b)
    decreases |a|
  {
    if |a| > 0 {
      assert (a + b)[1..] == a[1..] + b;
      TextsAppend(a[1..], b);
    } else {
      assert a + b == b;
    }
  }

  function FinalText(m: Conversation.ModelReply): string
  {
    Join(Texts(m.content), "\n")
  }

  /** The shown text splits back into the text blocks, in order, when none
      of them holds a line break. */
  lemma FinalTextKeepsBlocks(m: Conversation.ModelReply)
    requires |Texts(m.content)| >= 1
    requires forall k :: 0 <= k < |Texts(m.content)| ==> '\n' !in Texts(m.content)[k]
    ensures Split(FinalText(m), '\n') == Texts(m.content)
  {
    SplitJoin(Texts(m.content), '\n');
  }

  /** What `setArtifactData` receives: the tool's name, `result || error`,
      and whether a (non-empty) error was recorded. */
  datatype ArtifactData = ArtifactData(toolName: string, result: Option<Json>, isError: bool)

  function ArtifactOf(toolName: string, outcome: Result<Conversation.Parsed, string>): ArtifactData
  {
    match outcome
    case Ok(ParsedObject(j)) => ArtifactData(toolName, Some(j), false)
    case Ok(RawText(t)) => ArtifactData(toolName, if t != "" then Some(JStr(t)) else None, false)
    case Failure(m) => ArtifactData(toolName, Some(JStr(m)), m != "")
  }

  /** The artifact comes from the first 'tool_results' entry of the history. */
  function ArtifactFor(history: seq<Conversation.HistoryEntry>): (r: Option<ArtifactData>)
    ensures r.None? <==> forall i :: 0 <= i < |history| ==> !history[i].ToolRun?
    ensures r.Some? ==>
      exists i :: 0 <= i < |history| && history[i].ToolRun?
        && (forall j :: 0 <= j < i ==> !history[j].ToolRun?)
        && r.value == ArtifactOf(history[i].toolName, history[i].outcome)
  {
    match FindFirst(history, (e: Conversation.HistoryEntry) => e.ToolRun?)
    case None => None
    case Some(i) => Some(ArtifactOf(history[i].toolName, history[i].outcome))
  }

  /** How `generateArtifactHtml` presents a result. */
  datatype ArtifactView =
    | NoResult
    | ErrorView(error: Json)
    | JsonView(value: Json)
    | Verbatim(html: string)
    | JsonText(value: Json)
    | FormattedText(text: string)
    | PlainValue(value: Json)

  function Classify(v: Option<Json>, parse: string -> Option<Json>): ArtifactView
  {
    if !Truthy(v) then NoResult
    else
      match v.value
      case JObj(f) => if "error" in f then ErrorView(f["error"]) else JsonView(v.value)
      case JArr(_) => JsonView(v.value)
      case JStr(s) =>
        if StartsWith(s, "<html>") || StartsWith(s, "<!DOCTYPE") then Verbatim(s)
        else if StartsWith(s, "{") && EndsWith(s, "}") then
          match parse(s)
          case Some(j) => JsonText(j)
          case None => FormattedText(s)
        else FormattedText(s)
      case _ => PlainValue(v.value)
  }

  /** The checks run in order: falsy, an `error` field, an object, an HTML
      string, a parseable braced string, any other string, anything else. */
  lemma ClassifyCases(v: Option<Json>, parse: string -> Option<Json>)
    ensures Classify(v, parse) == NoResult <==> !Truthy(v)
    ensures Classify(v, parse).ErrorView? <==> Truthy(v) && v.value.JObj? && "error" in v.value.fields
    ensures Classify(v, parse).JsonView? <==>
      Truthy(v) && (v.value.JArr? || (v.value.JObj? && "error" !in v.value.fields))
    ensures Classify(v, parse).Verbatim? <==>
      Truthy(v) && v.value.JStr? && (StartsWith(v.value.s, "<html>") || StartsWith(v.value.s, "<!DOCTYPE"))
    ensures Classify(v, parse).JsonText? <==>
      Truthy(v) && v.value.JStr? && !StartsWith(v.value.s, "<html>") && !StartsWith(v.value.s, "<!DOCTYPE")
      && StartsWith(v.value.s, "{") && EndsWith(v.value.s, "}") && parse(v.value.s).Some?
    ensures Classify(v, parse).PlainValue? <==> Truthy(v) && (v.value.JBool? || v.value.JNum?)
  {
  }

  /** A failed tool's message reaches the artifact as a string, so it is
      shown as text and never in the error container. */
  lemma ErrorArtifactShownAsText(toolName: string, message: string, parse: string -> Option<Json>)
    requires message != ""
    ensures var a := ArtifactOf(toolName, Failure(message));
      a.isError && !Classify(a.result, parse).ErrorView? && !Classify(a.result, parse).JsonView?
  {
  }

  // ------------------------------------------------------------ the page

  /** The form fields the page reads. */
  datatype Form = Form(
    config: string,
    runInWorker: bool,
    allowedHosts: string,
    allowedPaths: string,
    logLevel: string,
    selectedFunction: string,
    input: string,
    message: string)

  /** The browser-side foreign functions. */
  datatype Browser = Browser(
    env: Environment,
    initFinishesFirst: bool,
    createPlugin: (seq<bv8>, PluginOptions) -> Result<Plugin, string>,
    parseJson: string -> Result<Json, string>)

  /** `runWasm`'s executor options, or the message of what building them throws. */
  function RunWasmOptions(form: Form, b: Browser): Result<Object, string>
  {
    var config := if Trim(form.config) != "" then b.parseJson(form.config) else Ok(EmptyObject);
    if config.Failure? then Failure(config.error)
    else
      var base := RunWasmBaseOptions(form, config.value);
      if Trim(form.allowedPaths) == "" then Ok(base)
      else
        match StrictPaths(Segments(form.allowedPaths))
        case Failure(e) => Failure(e)
        case Ok(m) => Ok(base["allowedPaths" := PathsJson(m)])
  }

  /** The options `runWasm` sets before the allowed paths. */
  function RunWasmBaseOptions(form: Form, config: Json): Object
  {
    var hosts := AllowedHosts(form.allowedHosts);
    map["useWasi" := JBool(true), "config" := config, "runInWorker" := JBool(form.runInWorker)]
      + (if hosts.Some? then map["allowedHosts" := HostsJson(hosts.value)] else map[])
      + (if Trim(form.logLevel) != "" then map["logLevel" := JStr(Trim(form.logLevel))] else map[])
  }

  function RunOf(wasm: seq<bv8>, b: Browser): WasmExecuteRoute.LocalRun
  {
    WasmExecuteRoute.LocalRun(WasmExecuteRoute.Fetched(wasm), b.env, b.initFinishesFirst, b.createPlugin)
  }

  function RunWasmResult(wasm: seq<bv8>, form: Form, b: Browser): Result<ExecResult, string>
  {
    match RunWasmOptions(form, b)
    case Failure(e) => Failure(e)
    case Ok(options) =>
      Ok(ExecuteOn(WasmExecuteRoute.PluginAtExecute(wasm, options, RunOf(wasm, b)),
                   if form.selectedFunction != "" then form.selectedFunction else "call", form.input))
  }

  /** The text `runWasm` leaves on the page. */
  function RunWasmText(wasm: seq<bv8>, form: Form, b: Browser): string
  {
    match RunWasmResult(wasm, form, b)
    case Failure(e) => "Error: " + e
    case Ok(r) => if Present(r.error) then "Error: " + r.error.value else r.output
  }

  predicate RunSucceeded(wasm: seq<bv8>, form: Form, b: Browser)
  {
    RunWasmResult(wasm, form, b).Ok? && !Present(RunWasmResult(wasm, form, b).value.error)
  }

  /** The first malformed path entry stops the run before an executor
      exists, and the page shows its text. */
  lemma MalformedPathStopsRun(wasm: seq<bv8>, form: Form, b: Browser, i: nat)
    requires Trim(form.allowedPaths) != "" && (Trim(form.config) == "" || b.parseJson(form.config).Ok?)
    requires i < |Segments(form.allowedPaths)| && !WellFormedSegment(Segments(form.allowedPaths)[i])
    requires forall j :: 0 <= j < i ==> WellFormedSegment(Segments(form.allowedPaths)[j])
    ensures RunWasmOptions(form, b).Failure?
    ensures RunWasmText(wasm, form, b) == "Error: " + InvalidPathMessage(Segments(form.allowedPaths)[i])
  {
    var segments := Segments(form.allowedPaths);
    StrictNamesFirstMalformed(segments, i);
    assert RunWasmOptions(form, b) == Failure(InvalidPathMessage(segments[i]));
  }

  /** Without a plugin in place (initialisation not finished, or plugin
      creation failed) the page shows the executor's error. */
  lemma RunWithoutPluginShowsError(wasm: seq<bv8>, form: Form, b: Browser)
    requires RunWasmOptions(form, b).Ok?
    requires WasmExecuteRoute.PluginAtExecute(wasm, RunWasmOptions(form, b).value, RunOf(wasm, b)).None?
    ensures !RunSucceeded(wasm, form, b)
    ensures RunWasmText(wasm, form, b) == "Error: " + NullPluginError
  {
    ExecuteWithoutPluginFails(if form.selectedFunction != "" then form.selectedFunction else "call", form.input);
  }

  /** The `ServletInfo` the page sends: no metadata, only the options. */
  function PromptServletInfo(selected: string, meta: ServletMetadata, form: Form, config: Json): Conversation.ServletInfo
  {
    var hosts := AllowedHosts(form.allowedHosts);
    Conversation.ServletInfo(
      selected,
      ContentAddressOf(meta),
      Some(FunctionNameOf(meta, form.selectedFunction)),
      Some(config),
      if hosts.Some? then Some(HostsJson(hosts.value)) else None,
      if Trim(form.allowedPaths) != "" then Some(PathsJson(LenientPaths(Segments(form.allowedPaths)))) else None,
      if Trim(form.logLevel) != "" then Some(JStr(form.logLevel)) else None,
      Some(JBool(form.runInWorker)),
      None,
      None)
  }

  /** The body posted to the conversation route, or what building it throws. */
  function PromptRequest(selected: string, meta: ServletMetadata, form: Form, b: Browser)
    : Result<Conversation.ConversationRequest, string>
  {
    var config := if form.config != "" then b.parseJson(form.config) else Ok(EmptyObject);
    if config.Failure? then Failure(config.error)
    else
      Ok(Conversation.ConversationRequest(
        "POST", Some(form.message), Some(ServletToolsFor(meta, selected)),
        Some([PromptServletInfo(selected, meta, form, config.value)])))
  }

  /** A request the page builds passes the route's checks. */
  lemma PageRequestsAreAccepted(selected: string, meta: ServletMetadata, form: Form, b: Browser)
    requires Trim(form.message) != "" && PromptRequest(selected, meta, form, b).Ok?
    ensures Conversation.Validate(PromptRequest(selected, meta, form, b).value).None?
  {
  }

  /** The route describes each tool the page sends by the tool's own
      description, with no extra properties and nothing required, since
      the page sends no schema and no metadata description. */
  lemma PageToolsDescribedByThemselves(info: Conversation.ServletInfo, t: Conversation.ServletTool)
    requires info.schema.None? && info.metaDescription.None?
    ensures var d := Conversation.Describe(t, [info]);
      d.description == OrElse(t.description, "Execute the " + t.name + " function")
      && d.required == [] && d.properties == map[]
  {
  }

  lemma PageSendsNoSchema(selected: string, meta: ServletMetadata, form: Form, config: Json)
    ensures PromptServletInfo(selected, meta, form, config).schema.None?
    ensures PromptServletInfo(selected, meta, form, config).metaDescription.None?
  {
  }

  /** The outcome of posting to the conversation route. */
  datatype ApiOutcome =
    | ApiReplied(finalMessage: Conversation.ModelReply, conversationHistory: seq<Conversation.HistoryEntry>)
    | ApiNotOk(statusText: string)
    | ApiThrew(message: string)

  /** The page state the two handlers change. */
  datatype View = View(
    result: string,
    isLoading: bool,
    artifactData: Option<ArtifactData>,
    conversationHistory: seq<Conversation.HistoryEntry>)

  /** The state `runWasm` leaves. */
  function AfterRunWasm(v: View, wasmFile: Option<seq<bv8>>, form: Form, b: Browser): View
  {
    if wasmFile.None? then v.(result := "Please select a WASM file or servlet first")
    else v.(result := RunWasmText(wasmFile.value, form, b), isLoading := false)
  }

  predicate Submitted(selected: string, meta: Option<ServletMetadata>, form: Form)
  {
    selected != "" && meta.Some? && Trim(form.message) != ""
  }

  /** The state a submitted prompt settles in, once the request has been
      built (or has thrown) and posted. */
  function Settled(message: string, request: Result<Conversation.ConversationRequest, string>,
                   api: Conversation.ConversationRequest -> ApiOutcome): View
  {
    var started := View("", false, None, [Conversation.Prompted(message)]);
    match request
    case Failure(e) => started.(result := "Error: " + e)
    case Ok(req) =>
      match api(req)
      case ApiNotOk(t) => started.(result := "Error: API error: " + t)
      case ApiThrew(m) => started.(result := "Error: " + m)
      case ApiReplied(final, history) => View(FinalText(final), false, ArtifactFor(history), history)
  }

  /** The state `processPrompt` leaves. */
  function AfterPrompt(v: View, selected: string, meta: Option<ServletMetadata>, form: Form, b: Browser,
                       api: Conversation.ConversationRequest -> ApiOutcome): View
  {
    if selected == "" || meta.None? then v.(result := "Please select a servlet first")
    else if Trim(form.message) == "" then v.(result := "Please enter a prompt")
    else Settled(form.message, PromptRequest(selected, meta.value, form, b), api)
  }

  /** A submitted prompt ends with loading off; a failed request or
      response shows an error and leaves only the prompt in the history
      and no artifact. */
  lemma SettledOutcomes(message: string, request: Result<Conversation.ConversationRequest, string>,
                        api: Conversation.ConversationRequest -> ApiOutcome)
    ensures !Settled(message, request, api).isLoading
    ensures request.Failure? || !api(request.value).ApiReplied? ==>
      var s := Settled(message, request, api);
      StartsWith(s.result, "Error: ") && s.artifactData.None? && s.conversationHistory == [Conversation.Prompted(message)]
  {
    var s := Settled(message, request, api);
    match request
    case Failure(e) =>
      assert s.result == "Error: " + e;
    case Ok(req) =>
      match api(req)
      case ApiNotOk(t) =>
        assert s.result == "Error: " + ("API error: " + t);
      case ApiThrew(m) =>
        assert s.result == "Error: " + m;
      case ApiReplied(_, _) =>
  }

  /** A refused prompt only replaces the message shown; what a submitted
      one leaves does not depend on the page's earlier state (the previous
      artifact and history are cleared first). */
  lemma PromptOutcomes(v: View, w: View, selected: string, meta: Option<ServletMetadata>, form: Form, b: Browser,
                       api: Conversation.ConversationRequest -> ApiOutcome)
    ensures !Submitted(selected, meta, form) ==>
      var after := AfterPrompt(v, selected, meta, form, b, api);
      after.isLoading == v.isLoading && after.artifactData == v.artifactData
      && after.conversationHistory == v.conversationHistory
      && (after.result == "Please select a servlet first" || after.result == "Please enter a prompt")
    ensures Submitted(selected, meta, form) ==>
      AfterPrompt(v, selected, meta, form, b, api) == AfterPrompt(w, selected, meta, form, b, api)
  {
  }

  /** `createWasmExecutorFromFile`: a new executor whose unawaited
      initialisation may or may not have finished when it is used. */
  method CreateExecutorFromFile(wasm: seq<bv8>, options: Object, b: Browser) returns (e: WasmExecutor)
    ensures fresh(e)
    ensures e.plugin == WasmExecuteRoute.PluginAtExecute(wasm, options, RunOf(wasm, b))
  {
    e := new WasmExecutor(wasm, options, b.env);
    if b.initFinishesFirst {
      e.FinishInitialize(b.createPlugin);
    }
  }

  /** Create the executor, execute the selected function once, and free
      the executor only when no error came back. */
  method ExecuteFromFile(wasm: seq<bv8>, options: Object, form: Form, b: Browser)
    returns (r: ExecResult, e: WasmExecutor)
    ensures fresh(e)
    ensures r == ExecuteOn(WasmExecuteRoute.PluginAtExecute(wasm, options, RunOf(wasm, b)),
                           if form.selectedFunction != "" then form.selectedFunction else "call", form.input)
    ensures !Present(r.error) ==> e.plugin.None?
    ensures Present(r.error) ==> e.plugin == WasmExecuteRoute.PluginAtExecute(wasm, options, RunOf(wasm, b))
  {
    e := CreateExecutorFromFile(wasm, options, b);
    r := e.Execute(if form.selectedFunction != "" then form.selectedFunction else "call", form.input);
    if !Present(r.error) {
      e.Free();
    }
  }

  class Page {
    var result: string
    var isLoading: bool
    var artifactData: Option<ArtifactData>
    var conversationHistory: seq<Conversation.HistoryEntry>

    constructor ()
      ensures Current() == View("", false, None, [])
    {
      result := "";
      isLoading := false;
      artifactData := None;
      conversationHistory := [];
    }

    function Current(): View
      reads this
    {
      View(result, isLoading, artifactData, conversationHistory)
    }

    /** `runWasm`: build the options, create an executor, execute, and
        free it only after a successful run; an error result is thrown
        before `free`. */
    method RunWasm(wasmFile: Option<seq<bv8>>, form: Form, b: Browser) returns (executor: Option<WasmExecutor>)
      modifies this
      ensures Current() == AfterRunWasm(old(Current()), wasmFile, form, b)
      ensures executor.Some? <==> wasmFile.Some? && RunWasmOptions(form, b).Ok?
      ensures executor.Some? ==> fresh(executor.value)
      ensures executor.Some? && RunSucceeded(wasmFile.value, form, b) ==> executor.value.plugin.None?
      ensures executor.Some? && !RunSucceeded(wasmFile.value, form, b) ==>
        executor.value.plugin
        == WasmExecuteRoute.PluginAtExecute(wasmFile.value, RunWasmOptions(form, b).value, RunOf(wasmFile.value, b))
    {
      executor := None;
      if wasmFile.None? {
        result := "Please select a WASM file or servlet first";
        return;
      }
      var wasm := wasmFile.value;
      isLoading := true;
      result := "";
      var options := RunWasmOptions(form, b);
      if options.Failure? {
        result := "Error: " + options.error;
        isLoading := false;
        return;
      }
      var r, e := ExecuteFromFile(wasm, options.value, form, b);
      executor := Some(e);
      assert RunWasmResult(wasm, form, b) == Ok(r);
      result := if Present(r.error) then "Error: " + r.error.value else r.output;
      isLoading := false;
    }

    /** The `try`/`catch`/`finally` of `processPrompt` once the request is
        built or has thrown: start loading with only the prompt in the
        history, post, and show the reply or the error. */
    method Settle(message: string, request: Result<Conversation.ConversationRequest, string>,
                  api: Conversation.ConversationRequest -> ApiOutcome)
      modifies this
      ensures Current() == Settled(message, request, api)
    {
      isLoading := true;
      result := "";
      artifactData := None;
      conversationHistory := [Conversation.Prompted(message)];
      if request.Failure? {
        result := "Error: " + request.error;
        artifactData := None;
        isLoading := false;
        return;
      }
      match api(request.value) {
        case ApiNotOk(t) =>
          result := "Error: " + ("API error: " + t);
          assert "Error: " + ("API error: " + t) == "Error: API error: " + t;
          artifactData := None;
        case ApiThrew(m) =>
          result := "Error: " + m;
          artifactData := None;
        case ApiReplied(final, history) =>
          result := FinalText(final);
          conversationHistory := history;
          var found := ArtifactFor(history);
          if found.Some? {
            artifactData := found;
          }
      }
      isLoading := false;
    }

    /** `processPrompt`: check the selection and the prompt, post the
        request, then show the final text and the first tool result. */
    method ProcessPrompt(selected: string, meta: Option<ServletMetadata>, form: Form, b: Browser,
                         api: Conversation.ConversationRequest -> ApiOutcome)
      modifies this
      ensures Current() == AfterPrompt(old(Current()), selected, meta, form, b, api)
    {
      if selected == "" || meta.None? {
        result := "Please select a servlet first";
        return;
      }
      if Trim(form.message) == "" {
        result := "Please enter a prompt";
        return;
      }
      var request := PromptRequest(selected, meta.value, form, b);
      Settle(form.message, request, api);
    }
  }
}
