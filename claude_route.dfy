/** The `/api/claude` route (packages/tiles-playground/app/api/claude/route.ts):
    system messages become one system prompt, the others are forwarded
    with only their role and content, and the upstream answer or error is
    passed back. The upstream call is a function parameter. */
module ClaudeRoute {
  import opened Common

  /** A message as posted: role, content, and whatever else it carries. */
  datatype ChatMessage = ChatMessage(role: string, content: Json, extra: Object)

  /** What is forwarded of a message. */
  datatype Forwarded = Forwarded(role: string, content: Json)

  datatype ClaudeBody = ClaudeBody(messages: seq<ChatMessage>, tools: Option<Json>)

  /** The body sent upstream. */
  datatype UpstreamRequest = UpstreamRequest(
    model: string, maxTokens: int, messages: seq<Forwarded>, system: Option<string>, tools: Option<Json>)

  /** What the upstream fetch gives: a status, its text, and its body as
      JSON when it is JSON; or a thrown error. */
  datatype UpstreamOutcome =
    | Responded(status: int, text: string, json: Option<Json>)
    | FetchThrew

  datatype ClaudeReply = ClaudeReply(status: int, body: Json)

  function IsSystem(m: ChatMessage): bool { m.role == "system" }

  function NotSystem(m: ChatMessage): bool { m.role != "system" }

  /** How `Array.prototype.join` writes a content: a string as itself,
      null as nothing, anything else by the given conversion. */
  function ContentText(j: Json, show: Json -> string): string
  {
    match j
    case JStr(s) => s
    case JNull => ""
    case _ => show(j)
  }

  function Texts(ms: seq<ChatMessage>, show: Json -> string): (r: seq<string>)
    ensures |r| == |ms|
    ensures forall i :: 0 <= i < |r| ==> r[i] == ContentText(ms[i].content, show)
  {
    seq(|ms|, i requires 0 <= i < |ms| => ContentText(ms[i].content, show))
  }

  /** The system prompt: the system contents joined by a blank line, or
      undefined when there are none. */
  function SystemPrompt(ms: seq<ChatMessage>, show: Json -> string): (r: Option<string>)
    ensures r.None? <==> forall i :: 0 <= i < |ms| ==> !IsSystem(ms[i])
  {
    FilterMembers(ms, IsSystem);
    var system := Filter(ms, IsSystem);
    if |system| > 0 then
      assert system[0] in system;
      Some(Join(Texts(system, show), "\n\n"))
    else
      assert forall i :: 0 <= i < |ms| ==> ms[i] in ms;
      None
  }

  function Forward(ms: seq<ChatMessage>): (r: seq<Forwarded>)
    ensures |r| == |ms|
    ensures forall i :: 0 <= i < |r| ==> r[i].role == ms[i].role && r[i].content == ms[i].content
  {
    seq(|ms|, i requires 0 <= i < |ms| => Forwarded(ms[i].role, ms[i].content))
  }

  function Upstream(body: ClaudeBody, show: Json -> string): UpstreamRequest
  {
    UpstreamRequest("claude-3-haiku-20240307", 4096, Forward(Filter(body.messages, NotSystem)),
                    SystemPrompt(body.messages, show), body.tools)
  }

  function ErrorBody(message: string): Json
  {
    JObj(map["error" := JStr(message)])
  }

  /** The route. `None` stands for a body that is not JSON or has no
      message array, on which the code throws. */
  function ClaudeReplyFor(body: Option<ClaudeBody>, show: Json -> string,
                          upstream: UpstreamRequest -> UpstreamOutcome): ClaudeReply
  {
    if body.None? then ClaudeReply(500, ErrorBody("Internal server error"))
    else
      match upstream(Upstream(body.value, show))
      case FetchThrew => ClaudeReply(500, ErrorBody("Internal server error"))
      case Responded(status, text, json) =>
        if !(200 <= status < 300) then ClaudeReply(status, ErrorBody(text))
        else if json.None? then ClaudeReply(500, ErrorBody("Internal server error"))
        else ClaudeReply(200, json.value)
  }

  /** Every message goes to exactly one side, and each side keeps the
      order of the posted messages. */
  lemma SplitKeepsOrder(xs: seq<ChatMessage>, ys: seq<ChatMessage>)
    ensures Filter(xs + ys, IsSystem) == Filter(xs, IsSystem) + Filter(ys, IsSystem)
    ensures Filter(xs + ys, NotSystem) == Filter(xs, NotSystem) + Filter(ys, NotSystem)
    ensures multiset(Filter(xs, IsSystem)) + multiset(Filter(xs, NotSystem)) == multiset(xs)
  {
    FilterAppend(xs, ys, IsSystem);
    FilterAppend(xs, ys, NotSystem);
    FilterPartition(xs, IsSystem, NotSystem);
  }

  /** Two conversations put one after the other give the two system
      prompts joined by a blank line. */
  lemma SystemPromptsConcatenate(xs: seq<ChatMessage>, ys: seq<ChatMessage>, show: Json -> string)
    requires SystemPrompt(xs, show).Some? && SystemPrompt(ys, show).Some?
    ensures SystemPrompt(xs + ys, show) == Some(SystemPrompt(xs, show).value + "\n\n" + SystemPrompt(ys, show).value)
  {
    FilterAppend(xs, ys, IsSystem);
    var a := Filter(xs, IsSystem);
    var b := Filter(ys, IsSystem);
    assert Texts(a + b, show) == Texts(a, show) + Texts(b, show);
    JoinAppend(Texts(a, show), Texts(b, show), "\n\n");
  }

  /** A single system message's text is the whole prompt. */
  lemma OneSystemMessage(m: ChatMessage, rest: seq<ChatMessage>, show: Json -> string)
    requires IsSystem(m) && forall i :: 0 <= i < |rest| ==> !IsSystem(rest[i])
    ensures SystemPrompt([m] + rest, show) == Some(ContentText(m.content, show))
  {
    FilterNone(rest, IsSystem);
    assert ([m] + rest)[1..] == rest;
  }

  /** No system message is forwarded, and with none posted every message
      is forwarded in order; tools pass through unchanged. */
  lemma ForwardedMessages(body: ClaudeBody, show: Json -> string)
    ensures var up := Upstream(body, show);
      (forall i :: 0 <= i < |up.messages| ==> up.messages[i].role != "system")
      && up.tools == body.tools && up.model == "claude-3-haiku-20240307" && up.maxTokens == 4096
      && ((forall i :: 0 <= i < |body.messages| ==> !IsSystem(body.messages[i])) ==> up.messages == Forward(body.messages))
  {
    var kept := Filter(body.messages, NotSystem);
    FilterMembers(body.messages, NotSystem);
    assert forall i :: 0 <= i < |kept| ==> kept[i] in kept;
    if forall i :: 0 <= i < |body.messages| ==> !IsSystem(body.messages[i]) {
      FilterAll(body.messages, NotSystem);
    }
  }

  /** A non-ok upstream status comes back with the upstream text as the
      error; every failure to get an answer, an ok answer whose body is
      not JSON included, is a 500 with one message; an ok JSON answer
      comes back as it is. */
  lemma ReplyStatuses(body: Option<ClaudeBody>, show: Json -> string, upstream: UpstreamRequest -> UpstreamOutcome)
    ensures var r := ClaudeReplyFor(body, show, upstream);
      (body.None? ==> r == ClaudeReply(500, ErrorBody("Internal server error")))
      && (body.Some? ==> match upstream(Upstream(body.value, show))
            case FetchThrew => r == ClaudeReply(500, ErrorBody("Internal server error"))
            case Responded(s, t, j) =>
              (!(200 <= s < 300) ==> r.status == s && r.body == ErrorBody(t))
              && (200 <= s < 300 && j.Some? ==> r == ClaudeReply(200, j.value))
              && (200 <= s < 300 && j.None? ==> r == ClaudeReply(500, ErrorBody("Internal server error"))))
  {
  }
}
