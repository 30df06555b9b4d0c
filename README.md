# tiles-notebook, modelled in Dafny

The tiles notebook is a collaborative editor whose documents can call
WebAssembly "servlets" from mcp.run, either locally through an extism
plugin or on remote MCP (Model Context Protocol) servers. A second
package, the wasm-runner, runs one servlet directly or lets a language
model drive servlet tools in a conversation.

This project models the server-side orchestration and the small pure
functions around it:

- the agentic tool-use conversation route of the wasm-runner
  (`Conversation`): tool descriptors, one executor per servlet, the
  loop that answers every `tool_use` block with exactly one
  `tool_result`, and cleanup;
- the wasm-runner page (`RunnerPage`): allowed-path and allowed-host
  parsing, tool construction, the final text, and how a tool result is
  classified for display;
- the playground API routes `/api/mcp-execute` (`McpExecuteRoute`),
  `/api/wasm-execute` (`WasmExecuteRoute`), `/api/mcp-connect`
  (`McpConnectRoute`), `/api/claude` (`ClaudeRoute`) and
  `/api/waitlist` (`Waitlist`), and the edge middleware that forwards
  to mcp.run (`Middleware`);
- the remote connection-state table `MCPClientManager` (`McpClients`),
  the slug-to-client registry `McpConnectionManager` (`McpRegistry`) and
  the extism wrapper `WasmExecutor` (`WasmExec`), each a class whose
  methods change its fields;
- the editor's artifact node and its JSON and DOM forms
  (`ArtifactNodes`);
- the client-side servlet cache with its single in-flight request and
  response checks, used by the MCP context and by the lexical mentions
  plugin (`ServletCache`);
- the '@' suggestion menus and servlet containers (`Suggestions`) and
  the table of contents (`TableOfContents`);
- JSON values, `Option`/`Result` and the JavaScript string built-ins
  the rest relies on (`Common`).

Everything foreign is a parameter: fetch, the language-model API, the
MCP client library, extism `createPlugin` and `plugin.call`, Postgres,
`JSON.parse` and `JSON.stringify`. Asynchronous steps are sequential:
an unawaited promise becomes an explicit method call, such as
`WasmExecutor.FinishInitialize` or `ServletCache.Complete`, that the
environment makes later.

Where a loop or a state change is in the source, the model is a method
proved against a specification function, and the source's promises are
lemmas about that function.

The model follows the code where it does something its comments and
names do not suggest. For example, `ArtifactNodes.ContentTypeUnchecked`
shows that DOM import accepts any content type, and
`Middleware.BareWasmPathPassesThrough` shows that the configured path
`/api/wasm` is not forwarded.

## Model

| member | source | states |
|---|---|---|
| McpClients.ProjectTools | packages/tiles-playground/lib/mcp-client-manager.ts:141-146 | keeps each listed tool's name, description and input schema, in order, one per listed tool |
| McpClients.ConnectOutcomes | packages/tiles-playground/lib/mcp-client-manager.ts:44-116 | connecting never rejects: success stores the client, the connect time and the listed tools (none if listing fails); failure stores status 'error', no client or tools, and the thrown message, or 'Unknown connection error' when there is none |
| McpClients.RefreshOnlyWhenConnected | packages/tiles-playground/lib/mcp-client-manager.ts:134-152 | only a connected entry with a client has its tools replaced, and only when listing succeeds; no other entry or field changes |
| McpClients.StatusUpdateOnlyExisting | packages/tiles-playground/lib/mcp-client-manager.ts:210-219 | a status update never adds an entry, sets the status, and replaces the error message only with a non-empty one |
| McpClients.RemoteToolFailuresAndErrors | packages/tiles-playground/lib/mcp-client-manager.ts:154-195 | the call rejects with 'No connection found for server <id>' without an entry and with 'Server <id> is not connected (status: <status>)' without a connected client; a rejected tool call resolves flagged with one text block 'Error executing <tool>: <message>' ('Unknown error' without a message); a text result becomes one text block, an object without content one block of its JSON text, and an object's content is kept |
| McpClients.ServerErrorFlagDropped | packages/tiles-playground/lib/mcp-client-manager.ts:172-182 | a resolved result's own content is returned and its error flag is not carried over |
| McpClients.OperationsPreserveWellFormed | packages/tiles-playground/lib/mcp-client-manager.ts:44-219 | every table update keeps each entry's tools tied to a client and each client tied to a connect time |
| McpClients.MCPClientManager.constructor | packages/tiles-playground/lib/mcp-client-manager.ts:34 | the table starts empty |
| McpClients.MCPClientManager.ConnectServer | packages/tiles-playground/lib/mcp-client-manager.ts:44-116 | stores and returns the connect outcome under the config's id, leaving the other entries alone |
| McpClients.MCPClientManager.DisconnectServer | packages/tiles-playground/lib/mcp-client-manager.ts:118-132 | closes the stored client if any, and stores 'disconnected' with no tools for any id |
| McpClients.MCPClientManager.RefreshTools | packages/tiles-playground/lib/mcp-client-manager.ts:134-152 | the table becomes the refreshed table |
| McpClients.MCPClientManager.ExecuteRemoteTool | packages/tiles-playground/lib/mcp-client-manager.ts:154-195 | returns the remote tool outcome and leaves the table unchanged |
| McpClients.MCPClientManager.GetConnectionState | packages/tiles-playground/lib/mcp-client-manager.ts:197-199 | the stored entry, present exactly when the id is in the table |
| McpClients.MCPClientManager.GetAllConnections | packages/tiles-playground/lib/mcp-client-manager.ts:201-203 | a copy with the same ids and entries |
| McpClients.MCPClientManager.GetAvailableTools | packages/tiles-playground/lib/mcp-client-manager.ts:205-208 | the entry's tools, or none for an unknown id |
| McpClients.MCPClientManager.UpdateConnectionStatus | packages/tiles-playground/lib/mcp-client-manager.ts:210-219 | the table becomes the status-updated table and stays well formed |
| McpClients.MCPClientManager.OnConnected | packages/tiles-playground/lib/mcp-client-manager.ts:63-68 | the 'connected' event marks the entry connected, then refreshes its tools |
| McpClients.MCPClientManager.OnDisconnected | packages/tiles-playground/lib/mcp-client-manager.ts:70-73 | the 'disconnected' event sets that status |
| McpClients.MCPClientManager.OnError | packages/tiles-playground/lib/mcp-client-manager.ts:75-79 | the 'error' event sets the error status with the event's message, if it has one |
| McpClients.MCPClientManager.OnOAuthRedirect | packages/tiles-playground/lib/mcp-client-manager.ts:81-87 | the 'oauth-redirect' event sets 'auth-required' |
| McpClients.RemoteServersDistinctAndDisabled | packages/tiles-playground/lib/mcp-client-manager.ts:223-306 | the nine seeded servers have distinct ids and are all disabled |
| WasmExec.SharedArrayBufferNeedsAllThree | packages/tiles-playground/lib/wasm-executor.ts:20-22 | threads are possible exactly when SharedArrayBuffer and window exist and crossOriginIsolated is the boolean true, not merely truthy |
| WasmExec.NormalisedOptions | packages/tiles-playground/lib/wasm-executor.ts:32-66 | useWasi defaults to true unless given; config defaults to an empty object unless truthy; the worker is used only when requested and available; hosts only when non-empty, paths only with keys, the logger and level only for a truthy level |
| WasmExec.ExecuteOn | packages/tiles-playground/lib/wasm-executor.ts:71-83 | with no plugin the call fails with the null-access message; otherwise a returned buffer gives its text (or '') and no error, and a throw gives its message with empty output |
| WasmExec.WasmExecutor.constructor | packages/tiles-playground/lib/wasm-executor.ts:27-30 | the plugin starts null with initialisation pending, and the options are normalised |
| WasmExec.WasmExecutor.FinishInitialize | packages/tiles-playground/lib/wasm-executor.ts:68 | a created plugin is stored; a rejected creation leaves the field as it was |
| WasmExec.WasmExecutor.Execute | packages/tiles-playground/lib/wasm-executor.ts:71-83 | the result is the execution on the plugin field as it is now |
| WasmExec.WasmExecutor.Free | packages/tiles-playground/lib/wasm-executor.ts:85-90 | afterwards there is no plugin; freeing twice changes nothing |
| WasmExec.ExecuteWithoutPluginFails | packages/tiles-playground/lib/wasm-executor.ts:71-83 | executing before initialisation completes or after free reports an error instead of throwing |
| WasmExec.ExecuteNeverThrows | packages/tiles-playground/lib/wasm-executor.ts:71-83 | for every plugin, an error is reported exactly when the call threw, and always with empty output |
| McpRegistry.Without | packages/tiles-playground/lib/mcp-connection-manager.ts:15-19 | removing a slug keeps every other slug and keeps them distinct |
| McpRegistry.ClosableSlugsExactly | packages/tiles-playground/lib/mcp-connection-manager.ts:32-45 | closing all closes exactly the stored clients that have a close function, each once |
| McpRegistry.Listings | packages/tiles-playground/lib/mcp-connection-manager.ts:25-30 | one listing per slug in insertion order, connected exactly when the stored client is truthy |
| McpRegistry.McpConnectionManager.constructor | packages/tiles-playground/lib/mcp-connection-manager.ts:5 | the registry starts empty |
| McpRegistry.McpConnectionManager.SetConnection | packages/tiles-playground/lib/mcp-connection-manager.ts:7-9 | stores the client; a new slug goes to the end of the order and an existing one keeps its place |
| McpRegistry.McpConnectionManager.GetConnection | packages/tiles-playground/lib/mcp-connection-manager.ts:11-13 | the stored client, present exactly when the slug is stored |
| McpRegistry.McpConnectionManager.RemoveConnection | packages/tiles-playground/lib/mcp-connection-manager.ts:15-19 | removes the slug from the map and the order, returning what was stored |
| McpRegistry.McpConnectionManager.HasConnection | packages/tiles-playground/lib/mcp-connection-manager.ts:21-23 | true exactly when the slug is stored |
| McpRegistry.McpConnectionManager.GetAllConnections | packages/tiles-playground/lib/mcp-connection-manager.ts:25-30 | one listing per stored slug, in insertion order, no slug twice, connected exactly when the client is truthy |
| McpRegistry.McpConnectionManager.CloseAllConnections | packages/tiles-playground/lib/mcp-connection-manager.ts:32-45 | closes the closable clients in insertion order and leaves the registry empty |
| McpRegistry.SetThenGet | packages/tiles-playground/lib/mcp-connection-manager.ts:7-19 | a set is seen by the next get and leaves other slugs alone; a remove makes the slug absent |
| McpConnectRoute.Dispatch | packages/tiles-playground/pages/api/mcp-connect.ts:22-178 | non-POST is 405; a missing action, a connect without config, a disconnect or get-tools without id, and an unknown action are 400; each of the five actions is dispatched exactly when its inputs are present |
| McpConnectRoute.UnknownActionRefused | packages/tiles-playground/pages/api/mcp-connect.ts:173-178 | any other action is refused with its own name in the message |
| McpConnectRoute.SerialisedTable | packages/tiles-playground/pages/api/mcp-connect.ts:92-102 | the listing has the same ids as the table, each entry without its client |
| McpConnectRoute.SerialiseConnections | packages/tiles-playground/pages/api/mcp-connect.ts:92-102 | the `forEach` copy is the serialised table |
| McpConnectRoute.ListingsAgree | packages/tiles-playground/pages/api/mcp-connect.ts:86-171 | each listed entry keeps status, tools, connect time and error message, whatever client the entry had |
| McpConnectRoute.Handle | packages/tiles-playground/pages/api/mcp-connect.ts:18-187 | the reply is the one for the table before the request; only connect and disconnect change the table, by their manager operations |
| McpConnectRoute.ActionsSucceed | packages/tiles-playground/pages/api/mcp-connect.ts:47-133 | connect answers 200 even when the transport failed, carrying the 'error' state; get-tools on an unknown id answers no tools; every dispatched action answers 200 |
| McpExecuteRoute.RouteRequest | packages/tiles-playground/pages/api/mcp-execute.ts:34-201 | non-POST is 405; a missing type or tool name is 400; the remote branch runs exactly when the type is 'remote-mcp' with a server id, the local one exactly when it is 'local-wasm' with a content address, with 'call' and '' as the defaults |
| McpExecuteRoute.UnsupportedTypeRejected | packages/tiles-playground/pages/api/mcp-execute.ts:197-201 | any other type is refused with its own name in the message |
| McpExecuteRoute.Pieces | packages/tiles-playground/pages/api/mcp-execute.ts:95-103 | one output line per block, in order, by the block's kind |
| McpExecuteRoute.FlattenKeepsBlocks | packages/tiles-playground/pages/api/mcp-execute.ts:95-104 | splitting the joined output on newlines gives each block's line back, when no line holds a newline |
| McpExecuteRoute.RemoteReplies | packages/tiles-playground/pages/api/mcp-execute.ts:76-110 | a server still not connected is a 400 naming its status ('unknown' when absent), whatever the tool would do; a flagged result is a 500 whose error is the first block's text when it is a non-empty text block and 'Remote tool execution failed' otherwise, with the raw result; an unflagged one is a 200 with the blocks' texts joined and the raw result; a rejected call is a 500 with its message |
| McpExecuteRoute.RejectedCallReply | packages/tiles-playground/pages/api/mcp-execute.ts:76-110 | a connected server whose tool call fails answers 500 with 'Error executing <tool>: <message>', 'Unknown error' standing in for a missing message |
| McpExecuteRoute.LocalOptionsMerge | packages/tiles-playground/pages/api/mcp-execute.ts:142-157 | each caller option overrides its default, each default stands otherwise, and `allowedHosts` survives exactly when given with a truthy `runInWorker` |
| McpExecuteRoute.LocalWorkerNeedsRequest | packages/tiles-playground/pages/api/mcp-execute.ts:142-157 | a local run uses a worker, or a host list, only when the caller asked for it |
| McpExecuteRoute.Handle | packages/tiles-playground/pages/api/mcp-execute.ts:30-209 | the reply is the one for the table before the request; only an auto-connect changes the table; an executor is made exactly when a local run fetched its module |
| McpExecuteRoute.ConnectOnlyWhenNeeded | packages/tiles-playground/pages/api/mcp-execute.ts:61-74 | the table changes only when the stored state is not 'connected' and a configuration was sent |
| McpExecuteRoute.RemoteWithoutConfigRefused | packages/tiles-playground/pages/api/mcp-execute.ts:61-80 | without a configuration a server that is not connected is refused with a 400 naming its stored status |
| WasmExecuteRoute.FetchWasmContent | packages/tiles-playground/pages/api/wasm-execute.ts:98-110 | the module bytes exactly when the fetch answered ok; a non-ok answer fails with 'Failed to fetch WASM content: <status text>'; a thrown fetch error is rethrown unchanged |
| WasmExecuteRoute.ResultReply | packages/tiles-playground/pages/api/wasm-execute.ts:77-87 | a truthy execution error is a 500 carrying it; otherwise a 200 carrying the output |
| WasmExecuteRoute.RunLocal | packages/tiles-playground/pages/api/wasm-execute.ts:62-75 | creates a fresh executor, executes once on the plugin it holds at that moment, and frees it |
| WasmExecuteRoute.ServerOptions | packages/tiles-playground/pages/api/wasm-execute.ts:48-59 | every key the caller gives wins, and a host list is always present |
| WasmExecuteRoute.ServerDefaultsStand | packages/tiles-playground/pages/api/wasm-execute.ts:48-59 | each default stands when the caller leaves its key out, and no keys beyond the defaults and the caller's appear |
| WasmExecuteRoute.DefaultPluginOptions | packages/tiles-playground/pages/api/wasm-execute.ts:48-59 | with no caller options the plugin gets WASI, the debug logger, `/tmp` and `/data`, every host and no worker |
| WasmExecuteRoute.Validate | packages/tiles-playground/pages/api/wasm-execute.ts:23-40 | a non-POST is 405; a POST missing the content address or the function name is 400 'contentAddress and functionName are required'; nothing else is refused |
| WasmExecuteRoute.Handle | packages/tiles-playground/pages/api/wasm-execute.ts:19-95 | the reply is the route's reply for this run; an executor is made, and freed, exactly when validation passed and the module was fetched |
| WasmExecuteRoute.RejectionIgnoresRun | packages/tiles-playground/pages/api/wasm-execute.ts:23-40 | a refused request is answered 405 or 400 before anything is fetched or run |
| WasmExecuteRoute.FailedFetchIs500 | packages/tiles-playground/pages/api/wasm-execute.ts:89-104 | a non-ok fetch is a 500 carrying the fetch's message |
| Conversation.InfoFor | packages/wasm-runner/pages/api/conversation.ts:92 | the servlet found has the tool's slug; none is found only when no servlet has it |
| Conversation.Descriptors | packages/wasm-runner/pages/api/conversation.ts:90-109 | one descriptor per servlet tool, in order |
| Conversation.DescriptorsFollowTools | packages/wasm-runner/pages/api/conversation.ts:90-109 | each descriptor has the tool's name; its description is the schema's, else the tool's, else 'Execute the <name> function'; without a schema nothing is required and only the servlet-description extra can appear; every other property comes from the schema |
| Conversation.FirstMatchingServletWins | packages/wasm-runner/pages/api/conversation.ts:92 | the schema consulted is the first servlet's with the tool's slug |
| Conversation.InstanceOptionsFields | packages/wasm-runner/pages/api/conversation.ts:148-165 | WASI is always on, config defaults to an empty object, hosts only when non-empty, paths only with keys, the level only when truthy, runInWorker as given, and no other key |
| Conversation.Instance | packages/wasm-runner/pages/api/conversation.ts:133-174 | a servlet without a content address fails with 'Content address is required'; a created instance has the servlet's address, its function name or 'call', and fetched bytes |
| Conversation.Instantiated | packages/wasm-runner/pages/api/conversation.ts:131-180 | what creating each servlet's instance gives, one per servlet |
| Conversation.CreateInstance | packages/wasm-runner/pages/api/conversation.ts:132-179 | one iteration of the instance loop gives that servlet's instance or its failure |
| Conversation.BuildInstances | packages/wasm-runner/pages/api/conversation.ts:131-180 | the loop's table, or its first failure, is the instance table of all servlets |
| Conversation.FailureSticks | packages/wasm-runner/pages/api/conversation.ts:176-179 | once a servlet fails, no later servlet changes the outcome |
| Conversation.MissingAddressAborts | packages/wasm-runner/pages/api/conversation.ts:135-179 | a servlet without a content address fails the whole request instead of being skipped |
| Conversation.FailedCreationAborts | packages/wasm-runner/pages/api/conversation.ts:176-179 | any failed servlet fails the whole table |
| Conversation.FillKeys | packages/wasm-runner/pages/api/conversation.ts:170-174 | a complete table has exactly one entry per servlet slug |
| Conversation.FillLastWins | packages/wasm-runner/pages/api/conversation.ts:170-174 | a slug's entry is the instance of the last servlet with that slug |
| Conversation.InstancesCoverSlugs | packages/wasm-runner/pages/api/conversation.ts:131-180 | every slug is in the table, holding the address and the function name (or 'call') of its last servlet |
| Conversation.ParseGuard | packages/wasm-runner/pages/api/conversation.ts:273-285 | output is parsed as JSON only when it starts with '{' and ends with '}' and parses; otherwise the raw text is kept |
| Conversation.RunTool | packages/wasm-runner/pages/api/conversation.ts:244-285 | a name no tool carries fails with 'Tool <name> not found' |
| Conversation.RunToolOutcomes | packages/wasm-runner/pages/api/conversation.ts:244-285 | the first tool carrying the name decides: without an executor for its slug the call fails with 'No plugin instance found for <slug>'; an executor error is passed on as the failure; otherwise the guarded parse of the output; the executor gets the JSON text of the servlet input |
| Conversation.ServletInput | packages/wasm-runner/pages/api/conversation.ts:257-262 | an object with only 'params', itself an object with only 'name' (the tool name) and 'arguments' (the tool input) |
| Conversation.SystemPromptNamesTools | packages/wasm-runner/pages/api/conversation.ts:114-121 | the system prompt of every request starts with the fixed opening, the number of servlet tools and ' tool(s): ', and names every tool |
| Conversation.ToolUses | packages/wasm-runner/pages/api/conversation.ts:234-238 | only tool-use blocks are answered, never more than there are blocks |
| Conversation.ToolUsesAreFiltered | packages/wasm-runner/pages/api/conversation.ts:234-238 | the blocks answered are exactly the reply's tool-use blocks, in reply order: a block is among them exactly when it is a tool use in the reply |
| Conversation.ToolUsesAppend | packages/wasm-runner/pages/api/conversation.ts:234-238 | the tool uses of two runs of blocks are those of the first followed by those of the second; a single block is kept exactly when it is a tool use |
| Conversation.OneResultPerToolUse | packages/wasm-runner/pages/api/conversation.ts:234-330 | every tool-use block gets exactly one tool result and one history entry, in block order, carrying its id and its tool name; other blocks get nothing |
| Conversation.ResultsAppend | packages/wasm-runner/pages/api/conversation.ts:234-330 | blocks are answered independently: a failing block does not stop later ones |
| Conversation.ToolFailuresReported | packages/wasm-runner/pages/api/conversation.ts:306-317 | a failed tool run is sent to the model as an error result 'Error: <message>' |
| Conversation.ProcessBlocks | packages/wasm-runner/pages/api/conversation.ts:231-330 | the inner loop's results, history entries and tool-use count are those of the specification |
| Conversation.AgenticLoop | packages/wasm-runner/pages/api/conversation.ts:183-350 | the do-while loop gives the conversation outcome that starts from the prompt alone |
| Conversation.ContinuingPrefix | packages/wasm-runner/pages/api/conversation.ts:332-342 | counts the leading replies that keep the loop going: each stops for tool_use, or ends its turn after using a tool; the next one does not |
| Conversation.ContinuingRound | packages/wasm-runner/pages/api/conversation.ts:201-336 | a continuing round sends the messages so far, and the loop goes on with the reply and its tool results appended |
| Conversation.LoopStopsAtFirstFinalReply | packages/wasm-runner/pages/api/conversation.ts:332-348 | the loop stops at the first reply that does not continue, with it as the final message, the history of every reply up to it, and one model request per reply |
| Conversation.FinalRound | packages/wasm-runner/pages/api/conversation.ts:344-348 | a reply that does not continue ends the loop with that reply and its history |
| Conversation.TranscriptPrefix | packages/wasm-runner/pages/api/conversation.ts:220-328 | a transcript of n+1 replies is the first reply's round followed by the next n |
| Conversation.LoopFailsAtApiError | packages/wasm-runner/pages/api/conversation.ts:201-378 | a failing model call after the continuing replies ends the loop with that call's error |
| Conversation.LoopExhausts | packages/wasm-runner/pages/api/conversation.ts:201-350 | after replies that all continue, the history holds every one of their rounds |
| Conversation.RequestsGrow | packages/wasm-runner/pages/api/conversation.ts:209-341 | the second request is the first request's messages plus the reply and its tool results |
| Conversation.SentKeepsPrefix | packages/wasm-runner/pages/api/conversation.ts:203-212 | requests already sent are kept, and the next one sends the current messages |
| Conversation.Validate | packages/wasm-runner/pages/api/conversation.ts:65-82 | a non-POST is 405; a missing prompt is 400 'Prompt is required'; missing tools or servlet list is 400 'Required data is missing'; nothing else is refused |
| Conversation.FreeAll | packages/wasm-runner/pages/api/conversation.ts:354-366 | every slug of the instance table is recorded as freed (executors are identified by their slug) |
| Conversation.Handle | packages/wasm-runner/pages/api/conversation.ts:61-379 | the reply is the route's reply for this request and these model replies; a refused request sends nothing to the model |
| Conversation.CompletedConversation | packages/wasm-runner/pages/api/conversation.ts:183-373 | a completed conversation's history starts with the prompt, ends on a reply that does not continue, reports that reply's stop reason, and freed one executor per slug |
| Conversation.RejectionIgnoresEffects | packages/wasm-runner/pages/api/conversation.ts:65-82 | a refused request is answered before any servlet is fetched or the model is called |
| RunnerPage.StrictAgreesWithLenient | packages/wasm-runner/pages/index.tsx:523-629 | the run's strict path parsing succeeds exactly when every entry has a host and a guest part, and then builds what the prompt's lenient parsing builds |
| RunnerPage.StrictNamesFirstMalformed | packages/wasm-runner/pages/index.tsx:529-531 | a strict failure names the first malformed entry, with the expected format |
| RunnerPage.LenientKeys | packages/wasm-runner/pages/index.tsx:621-629 | a host is allowed exactly when some well-formed entry names it; malformed entries are skipped |
| RunnerPage.LenientLastWins | packages/wasm-runner/pages/index.tsx:625-627 | a host maps to the guest path of its last well-formed entry |
| RunnerPage.StrictFailureSticks | packages/wasm-runner/pages/index.tsx:525-532 | once an entry has thrown, later entries cannot change the outcome |
| RunnerPage.ParsePathsStrict | packages/wasm-runner/pages/index.tsx:523-533 | the strict loop's table or error is the strict parse |
| RunnerPage.ParsePathsLenient | packages/wasm-runner/pages/index.tsx:621-629 | the lenient loop's table is the lenient parse |
| RunnerPage.TrimAll | packages/wasm-runner/pages/index.tsx:518 | one trimmed host per comma-separated entry, in order |
| RunnerPage.AllowedHosts | packages/wasm-runner/pages/index.tsx:518 | no host list for a blank field; otherwise the trimmed comma-separated entries |
| RunnerPage.HostsRoundTrip | packages/wasm-runner/pages/index.tsx:518 | trimmed hosts without commas, joined with commas, are read back unchanged |
| RunnerPage.LastSegment | packages/wasm-runner/pages/index.tsx:588-594 | the part of a name after its last '/': it holds no '/', ends the name, is preceded in the name by a '/' when shorter, and is the whole name when it has no '/' |
| RunnerPage.ToolsFromMetadata | packages/wasm-runner/pages/index.tsx:584-602 | metadata tools keep their order, schema and description, are tagged with the selected slug and named by their last '/' segment (the full name when it is empty); with no metadata tools there is one tool named by the last segment of the metadata name or the slug, with an empty object schema and the metadata description or 'Execute <slug> servlet' |
| RunnerPage.ContentAddressOf | packages/wasm-runner/pages/index.tsx:605-606 | the last content address when it is non-empty, else the binding's |
| RunnerPage.FunctionNameOf | packages/wasm-runner/pages/index.tsx:610 | the interface function, else the selected function, else 'call'; never empty |
| RunnerPage.Texts | packages/wasm-runner/pages/index.tsx:662-665 | only text blocks are shown, never more than there are blocks |
| RunnerPage.TextsOfTextBlocks | packages/wasm-runner/pages/index.tsx:662-665 | the texts shown are those of the reply's text blocks, one per text block, in reply order |
| RunnerPage.TextsAppend | packages/wasm-runner/pages/index.tsx:662-665 | the texts of two runs of blocks are those of the first followed by those of the second |
| RunnerPage.FinalTextKeepsBlocks | packages/wasm-runner/pages/index.tsx:662-665 | the shown text splits back into the text blocks, in order, when none holds a line break |
| RunnerPage.ArtifactFor | packages/wasm-runner/pages/index.tsx:671-683 | no artifact exactly when the history has no tool-results entry; otherwise the artifact of the first such entry |
| RunnerPage.ClassifyCases | packages/wasm-runner/pages/index.tsx:126-204 | results are shown by the first check that applies: falsy, an error field, an object or array, an HTML string, a braced string that parses, any other string, anything else |
| RunnerPage.ErrorArtifactShownAsText | packages/wasm-runner/pages/index.tsx:678-682 | a failed tool's message is flagged as an error yet shown as text, never in the error container |
| RunnerPage.MalformedPathStopsRun | packages/wasm-runner/pages/index.tsx:523-549 | the first malformed path entry stops the run before an executor exists, and the page shows that entry's error |
| RunnerPage.RunWithoutPluginShowsError | packages/wasm-runner/pages/index.tsx:536-549 | with no plugin in place when the run executes, the page shows the executor's error |
| RunnerPage.PageRequestsAreAccepted | packages/wasm-runner/pages/index.tsx:636-653 | a request the page builds passes the conversation route's checks |
| RunnerPage.PageToolsDescribedByThemselves | packages/wasm-runner/pages/index.tsx:636-640 | the route describes each tool the page sends by its own description, with no extra properties and nothing required |
| RunnerPage.PageSendsNoSchema | packages/wasm-runner/pages/index.tsx:636-640 | the servlet info the page sends has no schema and no metadata description |
| RunnerPage.SettledOutcomes | packages/wasm-runner/pages/index.tsx:655-691 | a submitted prompt always ends with loading off; a request that throws or a failed response shows an error, no artifact and only the prompt in the history |
| RunnerPage.PromptOutcomes | packages/wasm-runner/pages/index.tsx:556-573 | a refused prompt only replaces the message shown; what a submitted one leaves does not depend on the page's earlier state |
| RunnerPage.CreateExecutorFromFile | packages/tiles-playground/lib/wasm-executor.ts:94-100 | a fresh executor, holding a plugin only if initialisation finished and creation succeeded |
| RunnerPage.Page.constructor | packages/wasm-runner/pages/index.tsx:65-77 | the page starts with no result, not loading, no artifact and no history |
| RunnerPage.Page.RunWasm | packages/wasm-runner/pages/index.tsx:503-553 | without a file only the message changes; otherwise the page shows the run's text with loading off; an executor exists exactly when the options were built, and it is freed only after a successful run |
| RunnerPage.Page.Settle | packages/wasm-runner/pages/index.tsx:567-691 | the page ends in the settled state for this request and response |
| RunnerPage.Page.ProcessPrompt | packages/wasm-runner/pages/index.tsx:556-692 | the page ends in the state the prompt specification gives from the state before |
| ArtifactNodes.DomAttributes | packages/tiles-playground/nodes/ArtifactNode.ts:110-158 | the content type and content are always written; the title and description exactly when non-empty; no other attribute |
| ArtifactNodes.NonEmpty | packages/tiles-playground/nodes/ArtifactNode.ts:48 | an attribute value is kept only when non-empty |
| ArtifactNodes.ConvertArtifactElement | packages/tiles-playground/nodes/ArtifactNode.ts:40-57 | a node exactly when the content type and content attributes are non-empty, carrying them; metadata exactly when the title or description is non-empty, an empty one left undefined |
| ArtifactNodes.DomRoundTrip | packages/tiles-playground/nodes/ArtifactNode.ts:40-158 | exporting to the DOM and importing back keeps the content type, the content and the non-empty metadata when the first two are non-empty, and imports nothing otherwise |
| ArtifactNodes.DomVisibleIsStable | packages/tiles-playground/nodes/ArtifactNode.ts:40-158 | data already in the form the DOM keeps round-trips exactly |
| ArtifactNodes.ContentTypeUnchecked | packages/tiles-playground/nodes/ArtifactNode.ts:47-53 | any non-empty content type is imported, declared or not |
| ArtifactNodes.UndeclaredTypeImported | packages/tiles-playground/nodes/ArtifactNode.ts:23-53 | 'text/plain', which is not a declared type, is imported from the DOM |
| ArtifactNodes.Element.constructor | packages/tiles-playground/nodes/ArtifactNode.ts:111 | a new element has its tag, no display style and no attributes |
| ArtifactNodes.Element.SetAttribute | packages/tiles-playground/nodes/ArtifactNode.ts:114-121 | sets one attribute and changes nothing else |
| ArtifactNodes.ArtifactNode.constructor | packages/tiles-playground/nodes/ArtifactNode.ts:84-97 | the node holds the content type, content, metadata and key it was given |
| ArtifactNodes.ArtifactNode.ExportJSON | packages/tiles-playground/nodes/ArtifactNode.ts:99-107 | type 'artifact', version 1, and what import reads back is the node's data |
| ArtifactNodes.ArtifactNode.Clone | packages/tiles-playground/nodes/ArtifactNode.ts:71-73 | a new node with the same data and the same key |
| ArtifactNodes.ArtifactNode.ImportJSON | packages/tiles-playground/nodes/ArtifactNode.ts:75-82 | a new node holding the serialised content type, content and metadata |
| ArtifactNodes.ArtifactNode.CreateDOM | packages/tiles-playground/nodes/ArtifactNode.ts:110-123 | a new div displayed as 'contents' carrying the node's attributes |
| ArtifactNodes.ArtifactNode.ExportDOM | packages/tiles-playground/nodes/ArtifactNode.ts:146-158 | a new plain div carrying the same attributes |
| ArtifactNodes.ArtifactNode.WriteAttributes | packages/tiles-playground/nodes/ArtifactNode.ts:114-155 | the element ends with exactly the node's attributes |
| ArtifactNodes.ArtifactNode.GetTextContent | packages/tiles-playground/nodes/ArtifactNode.ts:160-166 | '[Artifact: <title>]' when the title is non-empty, otherwise '[Artifact: <content type>]' |
| ArtifactNodes.CreateArtifactNode | packages/tiles-playground/nodes/ArtifactNode.ts:187-196 | a new node with the given data |
| ArtifactNodes.ConvertElement | packages/tiles-playground/nodes/ArtifactNode.ts:40-57 | a node exactly when the element's attributes convert, holding the converted data |
| ClaudeRoute.Texts | packages/tiles-playground/app/api/claude/route.ts:14 | one text per system message's content, in order, as join writes it |
| ClaudeRoute.SystemPrompt | packages/tiles-playground/app/api/claude/route.ts:13-15 | no system prompt exactly when no message has the system role |
| ClaudeRoute.Forward | packages/tiles-playground/app/api/claude/route.ts:28-31 | each forwarded message keeps only its role and content, in order |
| ClaudeRoute.SplitKeepsOrder | packages/tiles-playground/app/api/claude/route.ts:9-10 | every message goes to exactly one of the two lists, and each list keeps the posted order |
| ClaudeRoute.SystemPromptsConcatenate | packages/tiles-playground/app/api/claude/route.ts:13-15 | two conversations in a row give their system prompts joined by a blank line |
| ClaudeRoute.OneSystemMessage | packages/tiles-playground/app/api/claude/route.ts:13-15 | a single system message's content is the whole system prompt |
| ClaudeRoute.ForwardedMessages | packages/tiles-playground/app/api/claude/route.ts:25-34 | no system message is forwarded; with none posted, every message is forwarded in order; the model, token limit and tools are as given |
| ClaudeRoute.ReplyStatuses | packages/tiles-playground/app/api/claude/route.ts:37-50 | a non-ok upstream status comes back with the upstream text as the error; a bad request body, a failed fetch or an ok answer whose body is not JSON is a 500 'Internal server error'; an ok JSON answer comes back as it is |
| Middleware.PrefixesExclusive | packages/tiles-playground/middleware.ts:11-63 | no path starts with two of the three prefixes, so the order of the tests does not matter |
| Middleware.TargetPath | packages/tiles-playground/middleware.ts:11-93 | exactly the paths under one of the three prefixes are forwarded |
| Middleware.TargetPaths | packages/tiles-playground/middleware.ts:11-66 | '/api/proxy<rest>' goes to '/api<rest>', servlet paths are kept, '/api/wasm/<rest>' goes to '/api/c/<rest>' |
| Middleware.ProxyExample | packages/tiles-playground/middleware.ts:11-93 | three sample paths and their targets |
| Middleware.ForwardHeaders | packages/tiles-playground/middleware.ts:16-73 | the host is forced to www.mcp.run; the proxy and servlets routes default the content type to JSON; every other incoming header is kept |
| Middleware.MiddlewareOutcomes | packages/tiles-playground/middleware.ts:11-93 | other paths go on to the app; forwarded requests keep the method and go to the target origin; only the wasm route drops the body; a failure is a 500 with body `{"error":"Proxy request failed"}` and a JSON content type; otherwise the upstream answer is relayed unchanged |
| Middleware.MatchedPathsForwarded | packages/tiles-playground/middleware.ts:97-99 | every configured path except '/api/wasm' itself is forwarded |
| Middleware.BareWasmPathPassesThrough | packages/tiles-playground/middleware.ts:63-99 | '/api/wasm' is configured but fails the '/api/wasm/' test and goes on to the app |
| Waitlist.ValidEmailIsPattern | packages/tiles-playground/app/api/waitlist/route.ts:8-13 | the computed check accepts exactly what the email regular expression matches |
| Waitlist.AcceptedExamples | packages/tiles-playground/app/api/waitlist/route.ts:8-13 | sample addresses the pattern accepts |
| Waitlist.RefusedExamples | packages/tiles-playground/app/api/waitlist/route.ts:8-13 | an empty local part, a '.' right after the '@' or at the end, a second '@' and whitespace are each refused |
| Waitlist.WaitlistOutcomes | packages/tiles-playground/app/api/waitlist/route.ts:8-35 | a refused email is a 400 before the database is touched; only a matching email is inserted; 200 `{success: true}` exactly on a successful insert; 409 'Email already registered' exactly on Postgres code 23505; 500 'Failed to join waitlist' on any other insert failure and on an unreadable body; a missing email is 400 |
| ServletCache.ValidateOutcomes | packages/tiles-playground/contexts/McpContext.tsx:64-91 | a request yields a list exactly when it is answered ok with a non-empty text that parses to an array, and the list is that array; a non-ok status, an empty body, a parse failure and a non-array each fail with their own message |
| ServletCache.CacheAfter | packages/tiles-playground/contexts/McpContext.tsx:55-87 | a filled cache stays as it is; otherwise it is filled exactly when the request validates, with the validated list |
| ServletCache.ServletCache.constructor | packages/tiles-playground/contexts/McpContext.tsx:50-51 | nothing is cached, no request is pending, none has been sent |
| ServletCache.ServletCache.Request | packages/lexical-playground/src/plugins/MentionsPlugin/index.tsx:45-88 | a cached list is returned as it is; a pending request is shared; only with neither is a request started, and it is counted |
| ServletCache.ServletCache.Complete | packages/tiles-playground/contexts/McpContext.tsx:63-95 | the result is the validation of the outcome; only a validated list is cached; the pending request is cleared in every case |
| ServletCache.ServletCache.Fetch | packages/tiles-playground/contexts/McpContext.tsx:54-98 | an awaited fetch returns the cached list or the validated outcome, leaves nothing pending, and sends a request only when nothing was cached or pending |
| ServletCache.Results | packages/tiles-playground/contexts/McpContext.tsx:54-98 | one result per fetch in a sequence of fetches |
| ServletCache.CacheNeverInvalidated | packages/tiles-playground/contexts/McpContext.tsx:55-87 | once a list is cached, every later fetch yields it whatever the network answers |
| ServletCache.FirstSuccessSticks | packages/tiles-playground/contexts/McpContext.tsx:54-98 | from an empty cache, each fetch before the first success reports its own outcome; that success and every later fetch yield its list |
| ServletCache.Refreshed | packages/tiles-playground/contexts/McpContext.tsx:121-133 | after a load nothing is loading; a list replaces the old one and clears the error; a failure records its message and keeps the old list |
| ServletCache.ServletList.constructor | packages/tiles-playground/contexts/McpContext.tsx:117-119 | no servlets, not loading, no error |
| ServletCache.ServletList.BeginLoad | packages/tiles-playground/contexts/McpContext.tsx:122-123 | loading starts with the error cleared and the list kept |
| ServletCache.ServletList.EndLoad | packages/tiles-playground/contexts/McpContext.tsx:124-132 | the list or the error message is recorded and loading stops |
| ServletCache.ServletList.Refresh | packages/lexical-playground/src/plugins/MentionsPlugin/index.tsx:234-251 | the list state after a refresh is the load of the fetch result, and the cache is as a fetch leaves it |
| ServletCache.RefreshWithCache | packages/tiles-playground/contexts/McpContext.tsx:55-133 | a refresh with a filled cache shows the cached list and no error and keeps the cache |
| ServletCache.FetchWasmContent | packages/tiles-playground/contexts/McpContext.tsx:101-113 | an ok answer yields its bytes; a non-ok one fails with 'Failed to fetch WASM content: <status text> (Status: <status>)'; a failed fetch's error is passed on |
| ServletCache.WasmFetchMessage | packages/tiles-playground/contexts/McpContext.tsx:105 | the refusal message starts with the fixed text and the status text and ends with the status written in decimal digits that read back as the status |
| ServletCache.WasmContentIsForwarded | packages/tiles-playground/contexts/McpContext.tsx:103 | the path asked for takes the middleware's wasm route and reaches '/api/c/<address>' on the target |
| Suggestions.Slugs | packages/tiles-playground/plugins/MentionsPlugin/index.tsx:289 | one option per servlet, carrying its slug, in order |
| Suggestions.OptionsProperties | packages/tiles-playground/plugins/MentionsPlugin/index.tsx:275-291 | at most five options, each the slug of a servlet the lower-cased query matches, as many as there are matches up to five, the i-th option being the slug of the i-th match in list order; none before the menu opens, while loading, on an error or for a list that is not an array |
| Suggestions.EmptyQueryShowsFirstFive | packages/tiles-playground/plugins/MCPServerletListPlugin/index.tsx:285-301 | an empty query matches every slug, so the first five servlets are offered |
| Suggestions.EarlierMatchesWin | packages/lexical-playground/src/plugins/MentionsPlugin/index.tsx:260-277 | once the leading servlets match five times, what follows them is never offered |
| Suggestions.LoadingWins | packages/tiles-playground/plugins/MCPServerletListPlugin/index.tsx:329-342 | while loading only the loading entry is shown; an error alone shows only 'Error: <error>'; otherwise the options |
| Suggestions.TopLevelDescriptionOnlyInSome | packages/tiles-playground/plugins/MentionsPlugin/index.tsx:285-287 | a servlet that the query finds only through its top-level description is offered by the lexical menu, and by the server list's menu when that menu is given a list, but never by this menu |
| Suggestions.ContainerFilter | packages/tiles-playground/plugins/MentionsPlugin/index.tsx:197-206 | a blank search keeps the whole list; otherwise a servlet is kept exactly when the lower-cased search matches it |
| Suggestions.ServletEntries | packages/tiles-playground/plugins/MentionsPlugin/index.tsx:236-251 | one entry per servlet, in order, each the servlet's heading and description |
| Suggestions.ServerEntries | packages/tiles-playground/plugins/MCPServerletListPlugin/index.tsx:237-257 | one entry per server, in order, each the server's heading and description |
| Suggestions.ServletsContainerEntries | packages/tiles-playground/plugins/MentionsPlugin/index.tsx:222-255 | without loading or an error, there are entries exactly when the filter keeps servlets, one per kept servlet; each heading starts with '@' and each description is at most 103 characters, the placeholder without a description, else the description or a cut of it |
| Suggestions.ContainerNotices | packages/tiles-playground/plugins/MentionsPlugin/index.tsx:222-229 | loading hides an error and the list, and an error hides the list, in the servlets container; in the server list's container too, given a list or a blank search |
| Suggestions.ServerListAsWired | packages/tiles-playground/plugins/MCPServerletListPlugin/index.tsx:276-291 | with the `allServers` the context really provides (none), the server menu offers nothing, and its container throws exactly when the search is not blank or neither loading nor an error hides the list |
| Suggestions.ServersContainerEntries | packages/tiles-playground/plugins/MCPServerletListPlugin/index.tsx:197-257 | given a list, the server container never throws; without loading or an error it has entries exactly when the filter keeps servers, one per kept server, each headed by '@' and described by the top-level description when there is one |
| TableOfContents.GetHeadingType | packages/tiles-playground/plugins/TableOfContentsPlugin/index.tsx:27-51 | a recognised heading tag is kept; a kind other than h1 comes only from a heading tag or an object's node type |
| TableOfContents.HeadingTypeDefaults | packages/tiles-playground/plugins/TableOfContentsPlugin/index.tsx:27-51 | 'h4', a bare 'list' string and any other value are h1; an object's tag wins over its node type |
| TableOfContents.IndentDistinct | packages/tiles-playground/plugins/TableOfContentsPlugin/index.tsx:53-72 | every kind has a non-empty class name and no two kinds share one |
| TableOfContents.PositionBands | packages/tiles-playground/plugins/TableOfContentsPlugin/index.tsx:74-88 | every position is above, at the top or below; above excludes both others; at the top and below share only y = 633 |
| TableOfContents.WalkUpPasses | packages/tiles-playground/plugins/TableOfContentsPlugin/index.tsx:131-147 | every heading the upward walk steps over is below the top, and the one it stops on, if it moved, is above the viewport or below the top |
| TableOfContents.WalkDownPasses | packages/tiles-playground/plugins/TableOfContentsPlugin/index.tsx:152-168 | every heading the downward walk steps over is above the viewport, and the one it stops on, if it moved, is at the top or above the viewport |
| TableOfContents.AfterScroll | packages/tiles-playground/plugins/TableOfContentsPlugin/index.tsx:120-176 | an empty outline or a selection on the last entry resets the index to 0; otherwise the index stays within the outline |
| TableOfContents.ScrollDirections | packages/tiles-playground/plugins/TableOfContentsPlugin/index.tsx:128-171 | the selection moves up only when the selected heading is below the top, down only when it is above the viewport, and selects the key of the entry it lands on; otherwise nothing changes |
| TableOfContents.TocList.constructor | packages/tiles-playground/plugins/TableOfContentsPlugin/index.tsx:95-96 | no selected key, index 0 |
| TableOfContents.TocList.ScrollToNode | packages/tiles-playground/plugins/TableOfContentsPlugin/index.tsx:108-117 | the key and the index are selected exactly when the editor has an element for the key |
| TableOfContents.TocList.ScrollCallback | packages/tiles-playground/plugins/TableOfContentsPlugin/index.tsx:120-176 | the two loops leave the state the scroll function describes |
| TableOfContents.RenderedEntries | packages/tiles-playground/plugins/TableOfContentsPlugin/index.tsx:205-253 | the first label is cut at 20 characters and later ones at 27, with '...' after a cut; a short text is shown as it is; only a later entry is marked selected, exactly when its key is selected |
| Common.IntToString | packages/tiles-playground/contexts/McpContext.tsx:67 | a non-empty text, all digits for a non-negative number |
| Common.IntToStringValue | packages/tiles-playground/contexts/McpContext.tsx:67 | a non-negative number is written in decimal digits that read back as the number, with no leading zero when positive; a negative one is '-' and its magnitude |
| Common.TruncateText | packages/tiles-playground/plugins/MentionsPlugin/index.tsx:191-194 | at most the limit plus three characters; a short text is unchanged |
| Common.FilterInOrder | packages/tiles-playground/plugins/MentionsPlugin/index.tsx:283-288 | `filter` keeps the k-th satisfying element at the k-th satisfying position of the list; those positions increase and none is skipped |
| Common.TruncateProperties | packages/tiles-playground/plugins/MentionsPlugin/index.tsx:191-194 | a long text keeps its first characters up to the limit and ends with '...'; truncating twice is truncating once |

## Left out

- Network, storage and foreign libraries: fetch, the language-model API, the MCP client transports and OAuth handler, Postgres, extism `createPlugin` and `plugin.call`. Each is a parameter carrying its outcome, so nothing about them is proved.
- `JSON.parse` and `JSON.stringify` are parameters (`parse`, `stringify`, `show`). Only the guards around them are modelled, such as the '{'…'}' test and the fallback to raw text, not the JSON grammar.
- The 30-second `Promise.race` timeouts of the two execute routes are not modelled: the model has no clock.
- `Date.now()`, `lastConnected` and `executionTime` are timestamps and are passed in or left out of replies: the model has no clock.
- Console logging and the debugging effects are not modelled: they change no state the routes return.
- The debounce timers of the menus and of the outline are not modelled, and a scroll or query update is handled at once: there is no time in the model.
- `MCPClientManager.getInstance` is not modelled: the routes take the manager as an object. Whether two routes share one instance is not captured.
- `Map` aliasing is not modelled. `getAllConnections` returns a fresh copy in the model, as it does in the code, and the entries are values, so mutation through a returned entry is not captured.
- The unawaited `initialize` of `WasmExecutor` is an explicit `FinishInitialize` call, and the request handlers take a flag saying whether it finished before `execute`. Real interleavings are not explored.
- A JavaScript `null` and `undefined` are both `None` wherever the code tests them the same way.
- Common.TruncateText: lengths are counted in characters (code points), where the code's `.length` and `substring` count UTF-16 code units. Text with characters outside the Basic Multilingual Plane is therefore cut at a different place (eleven emoji are 22 units, so a 20-unit cut keeps ten of them, where the model keeps all eleven), and a cut that splits a surrogate pair cannot be represented. The same holds for the outline labels (TableOfContents.RenderedEntries) and the container descriptions (Suggestions.ServletsContainerEntries) built on it.
- McpRegistry.McpConnectionManager.GetConnection: a slug stored with the client `undefined` gives `Some(Falsy)` in the model, where the code's `Map.get` returns `undefined` exactly as for an absent slug; only `hasConnection` tells the two apart in the code.
- A destructuring default (`config = {}`, `executorOptions = {}`, `fieldName = 'content'` and the like) applies only to `undefined`; the model applies it to an absent field, so a `null` sent in its place, which JavaScript keeps, is not captured.
- A truthy `servletInfoList` that is not an array is not modelled in the conversation route: the model reads it as a list, where the code lets it through the guard and fails later when it is searched.
- A truthy `serverConfig` that is not an object is not modelled in `/api/mcp-connect`: the model reads it as a configuration record.
- WasmExecuteRoute.Handle: a missing `input` is passed to the executor as the empty text, where the code passes `undefined` on to `plugin.call`.
- Catch blocks that no input can reach are left out: `connectServer` never throws, so the routes' 'Failed to connect' catches are dead; `WasmExecutor`'s constructor never throws, so 'Failed to create WASM executor' is dead.
- ServletCache.ServletList.Refresh: the 'Failed to fetch servlets' fallback for a thrown value that is not an `Error` is not modelled, because every failure the cache raises is an `Error` with a message.
- In the conversation route, the `messages.pop()` after the final reply is not modelled: nothing the route returns depends on the messages after the loop. The temperature of each request (0.7) is a float and is not modelled.
- The Anthropic API key from the environment is not modelled: it selects no behaviour of the route.
- The conversation's model is a finite script of replies. `ScriptExhausted` is a modelling outcome for running out of script; the route itself loops until the model stops.
- Executors are modelled by the WebAssembly module and options they were created with, and the plugin each holds. Freeing on the routes' error paths after creation is modelled only where the code does it.
- Object prototype keys (`__proto__` and the like) in records filled from request data are not modelled: maps here have no prototype.
- `checkForAtSignMentions` and `getPossibleQueryMatch` are not modelled: the menus use `useBasicTypeaheadTriggerMatch` instead, so the regular expressions are dead code.
- `formatTextContent`, the literal HTML template of the artifact page and its scripts are not modelled: they are text formatting without decisions. The classification that picks between them is modelled by `RunnerPage.ArtifactFor`.
- The middleware keeps header names lower-case, as `Object.fromEntries(request.headers)` yields them. The explicit 'Content-Type' key the code adds beside a lower-case one is merged into that one key, and header case-folding is not modelled.
- URL resolution by `new URL(path, origin)` is string concatenation in the model: every path here starts with '/'.
- The waitlist route's email is a string or absent in the model. The regular-expression test of a non-string value, which JavaScript first converts to text, is not modelled.
- Reading the module file in `createWasmExecutorFromFile` is a parameter: file I/O is outside the model.
- The artifact node's `decorate`, `updateDOM`, `isInline`, `importDOM` priority and `$isArtifactNode` are not modelled: they are editor plumbing without decisions about the node's data.
- In the servlet cache, sharing of the pending promise between callers is modelled as a `JoinedPending` step followed by one completion. Concurrent awaiting is not modelled.
- The outline's positions are integers; `getClientRects` returns floats. Which heading is on screen is a parameter.
- The outline treats 'h4' to 'h6' as 'h1', as `getHeadingType` does.
- The server list's type and status badges, the tools count, editor updates by `insertMention` and `onSelectOption`, the toggle button and all other rendering are not modelled: they are UI.
- `toLowerCase` and `trim` are ASCII only in the model: Unicode case mapping and Unicode spaces are not captured.
- ServletCache.Validate: a parsed array is read as servlet records without checking its elements, as the code does: element shapes are not modelled.
- The `bodyParser` size limits of the routes' configuration are not modelled: they are enforced by the framework before the handlers run.
- The UI, storage plugins, collaboration, the documents route, the og route and the configuration files are outside the modelled core.

## Findings

| source | as written | input that shows it | evidently intended | confidence | as-written member | corrected member |
|---|---|---|---|---|---|---|
| packages/tiles-playground/plugins/MCPServerletListPlugin/index.tsx:276 | the plugin takes `allServers` from the MCP context, whose value (packages/tiles-playground/contexts/McpContext.tsx:141-147) has no such field, so it is `undefined`: the menu's array test always yields no options, and the container's filter or `.length` throws | any state with loaded servlets and no error: the menu for query '' offers nothing, and opening the list throws | the list of servers the context holds, its `servlets` | medium, not executed | Suggestions.ServerListAsWired | Suggestions.ServersContainerEntries |
