/** The servlet list the editor suggests from
    (packages/tiles-playground/contexts/McpContext.tsx, and the same cache
    in packages/lexical-playground/src/plugins/MentionsPlugin/index.tsx):
    a module-level cache filled by the first validated answer of
    `/api/servlets` and never cleared, a guard that lets only one request
    be in flight, and the loading/error state a component keeps around
    it. Promises are modelled sequentially: a request is started, and
    later completed with the outcome of the fetch, which is a parameter. */
module ServletCache {
  import opened Common
  import Middleware

  datatype ServletMeta = ServletMeta(lastContentAddress: Option<string>, description: Option<string>)

  /** `McpServlet`, the fields the suggestions read. */
  datatype Servlet = Servlet(slug: string, name: Option<string>, description: Option<string>, meta: Option<ServletMeta>)

  /** What `fetch('/api/servlets')` answers: its `ok`, status, status
      text and body text; or the error it rejects with. */
  datatype Response = Response(ok: bool, status: int, statusText: string, text: string)

  datatype FetchOutcome = Answered(response: Response) | NetworkError(message: string)

  /** What `JSON.parse` makes of a text it accepts: an array, read as
      servlet records, or any other value. */
  datatype Parsed = ServletArray(items: seq<Servlet>) | NotArray(value: Json)

  /** `typeof` of a parsed value. */
  function TypeOf(j: Json): string
  {
    match j
    case JBool(_) => "boolean"
    case JNum(_) => "number"
    case JStr(_) => "string"
    case _ => "object"
  }

  const ApiErrorPrefix := "MCP API error: "
  const EmptyResponse := "Empty response received from server"
  const InvalidJson := "Invalid JSON response from server"
  const NotArrayPrefix := "Expected array of servlets but received: "

  function ApiError(r: Response): string
  {
    ApiErrorPrefix + r.statusText + " (Status: " + IntToString(r.status) + ")"
  }

  /** The checks of one completed request, in their order: the status,
      an empty body, the JSON parse (a `None` from `parse` is a throw),
      and that the value is an array. */
  function Validate(outcome: FetchOutcome, parse: string -> Option<Parsed>): Result<seq<Servlet>, string>
  {
    match outcome
    case NetworkError(message) => Failure(message)
    case Answered(r) =>
      if !r.ok then Failure(ApiError(r))
      else if r.text == "" then Failure(EmptyResponse)
      else match parse(r.text)
        case None => Failure(InvalidJson)
        case Some(NotArray(v)) => Failure(NotArrayPrefix + TypeOf(v))
        case Some(ServletArray(items)) => Ok(items)
  }

  /** A request succeeds exactly when it is answered with an ok status and
      a non-empty text that parses to an array, and it then yields that
      array; each failed check has its own message. */
  lemma ValidateOutcomes(outcome: FetchOutcome, parse: string -> Option<Parsed>)
    ensures Validate(outcome, parse).Ok? <==>
      outcome.Answered? && outcome.response.ok && outcome.response.text != ""
      && parse(outcome.response.text).Some? && parse(outcome.response.text).value.ServletArray?
    ensures Validate(outcome, parse).Ok? ==>
      Validate(outcome, parse).value == parse(outcome.response.text).value.items
    ensures outcome.Answered? && !outcome.response.ok ==>
      Validate(outcome, parse) == Failure(ApiError(outcome.response))
      && StartsWith(ApiError(outcome.response), ApiErrorPrefix)
    ensures outcome.Answered? && outcome.response.ok && outcome.response.text == "" ==>
      Validate(outcome, parse) == Failure(EmptyResponse)
    ensures (outcome.Answered? && outcome.response.ok && outcome.response.text != ""
             && parse(outcome.response.text).None?) ==> Validate(outcome, parse) == Failure(InvalidJson)
    ensures (outcome.Answered? && outcome.response.ok && outcome.response.text != ""
             && parse(outcome.response.text).Some? && parse(outcome.response.text).value.NotArray?) ==>
      Validate(outcome, parse).Failure? && StartsWith(Validate(outcome, parse).error, NotArrayPrefix)
  {
    if outcome.Answered? {
      var r := outcome.response;
      assert (ApiErrorPrefix + (r.statusText + " (Status: " + IntToString(r.status) + ")"))[..|ApiErrorPrefix|]
        == ApiErrorPrefix;
      if r.ok && r.text != "" && parse(r.text).Some? && parse(r.text).value.NotArray? {
        var v := parse(r.text).value.value;
        assert (NotArrayPrefix + TypeOf(v))[..|NotArrayPrefix|] == NotArrayPrefix;
      }
    }
  }

  /** What a call of `fetchServlets` returns. */
  datatype Step = FromCache(items: seq<Servlet>) | JoinedPending | Started

  /** The fetch result a caller awaits, from the cache as it was when it
      called: the cached list, or the outcome of the request. */
  function FetchResult(cache: Option<seq<Servlet>>, outcome: FetchOutcome, parse: string -> Option<Parsed>)
    : Result<seq<Servlet>, string>
  {
    if cache.Some? then Ok(cache.value) else Validate(outcome, parse)
  }

  /** The cache after that call has settled. */
  function CacheAfter(cache: Option<seq<Servlet>>, outcome: FetchOutcome, parse: string -> Option<Parsed>)
    : (c: Option<seq<Servlet>>)
    ensures cache.Some? ==> c == cache
    ensures c.Some? <==> FetchResult(cache, outcome, parse).Ok?
    ensures c.Some? ==> c.value == FetchResult(cache, outcome, parse).value
  {
    if cache.Some? then cache
    else
      match Validate(outcome, parse)
      case Ok(items) => Some(items)
      case Failure(_) => None
  }

  /** The module-level `servletCache` and `servletFetchPromise`;
      `requests` counts the requests sent. */
  class ServletCache {
    var cache: Option<seq<Servlet>>
    var pending: bool
    var requests: nat

    /** A request is in flight only while nothing is cached. */
    ghost predicate Valid()
      reads this
    {
      pending ==> cache.None?
    }

    constructor ()
      ensures Valid() && cache.None? && !pending && requests == 0
    {
      cache := None;
      pending := false;
      requests := 0;
    }

    /** The synchronous part of `fetchServlets`: a cached list comes back
        as it is, a pending request is shared, and only otherwise is a
        request sent. */
    method Request() returns (step: Step)
      requires Valid()
      modifies this
      ensures Valid()
      ensures old(cache).Some? ==> step == FromCache(old(cache).value)
      ensures old(cache).None? && old(pending) ==> step == JoinedPending
      ensures step != Started ==> cache == old(cache) && pending == old(pending) && requests == old(requests)
      ensures old(cache).None? && !old(pending) ==>
        step == Started && cache.None? && pending && requests == old(requests) + 1
    {
      if cache.Some? {
        return FromCache(cache.value);
      }
      if pending {
        return JoinedPending;
      }
      pending := true;
      requests := requests + 1;
      return Started;
    }

    /** The request settles: the checks run, only a validated array is
        cached, and in every case the pending handle is cleared so that a
        failed fetch can be retried. */
    method Complete(outcome: FetchOutcome, parse: string -> Option<Parsed>) returns (r: Result<seq<Servlet>, string>)
      requires Valid() && pending
      modifies this
      ensures Valid() && !pending && requests == old(requests)
      ensures r == Validate(outcome, parse)
      ensures cache == CacheAfter(old(cache), outcome, parse)
    {
      r := Validate(outcome, parse);
      if r.Ok? {
        cache := Some(r.value);
      }
      pending := false;
    }

    /** An awaited `fetchServlets` in a sequential run: the request, then
        the completion of whatever request is pending. */
    method Fetch(outcome: FetchOutcome, parse: string -> Option<Parsed>) returns (r: Result<seq<Servlet>, string>)
      requires Valid()
      modifies this
      ensures Valid() && !pending
      ensures r == FetchResult(old(cache), outcome, parse)
      ensures cache == CacheAfter(old(cache), outcome, parse)
      ensures requests == old(requests) + (if old(cache).None? && !old(pending) then 1 else 0)
    {
      var step := Request();
      if step.FromCache? {
        r := Ok(step.items);
      } else {
        r := Complete(outcome, parse);
      }
    }
  }

  /** The results of fetches one after another, and the cache after them. */
  function Results(cache: Option<seq<Servlet>>, outcomes: seq<FetchOutcome>, parse: string -> Option<Parsed>)
    : (rs: seq<Result<seq<Servlet>, string>>)
    ensures |rs| == |outcomes|
    decreases |outcomes|
  {
    if outcomes == [] then []
    else [FetchResult(cache, outcomes[0], parse)] + Results(CacheAfter(cache, outcomes[0], parse), outcomes[1..], parse)
  }

  /** Nothing clears the cache: once it holds a list, every later fetch
      yields that list whatever the network does. */
  lemma {:induction false} CacheNeverInvalidated(list: seq<Servlet>, outcomes: seq<FetchOutcome>, parse: string -> Option<Parsed>)
    ensures forall i :: 0 <= i < |outcomes| ==> Results(Some(list), outcomes, parse)[i] == Ok(list)
    decreases |outcomes|
  {
    if outcomes != [] {
      CacheNeverInvalidated(list, outcomes[1..], parse);
    }
  }

  /** From an empty cache, every fetch up to the first successful one
      makes its own request and reports its own failure; that success
      and everything after it yield the same list. */
  lemma {:induction false} FirstSuccessSticks(outcomes: seq<FetchOutcome>, parse: string -> Option<Parsed>, k: nat)
    requires k < |outcomes| && Validate(outcomes[k], parse).Ok?
    requires forall j :: 0 <= j < k ==> Validate(outcomes[j], parse).Failure?
    ensures forall j :: 0 <= j < k ==> Results(None, outcomes, parse)[j] == Validate(outcomes[j], parse)
    ensures forall j :: k <= j < |outcomes| ==>
      Results(None, outcomes, parse)[j] == Ok(Validate(outcomes[k], parse).value)
    decreases k
  {
    var rs := Results(None, outcomes, parse);
    if k == 0 {
      var list := Validate(outcomes[0], parse).value;
      CacheNeverInvalidated(list, outcomes[1..], parse);
      assert forall j :: 1 <= j < |outcomes| ==> rs[j] == Results(Some(list), outcomes[1..], parse)[j - 1];
    } else {
      FirstSuccessSticks(outcomes[1..], parse, k - 1);
      assert forall j :: 1 <= j < |outcomes| ==> rs[j] == Results(None, outcomes[1..], parse)[j - 1];
    }
  }

  /** The state a component keeps about the list. */
  datatype ListState = ListState(servlets: seq<Servlet>, isLoading: bool, error: Option<string>)

  /** The state once a load has finished with result `r`: a list replaces
      the old one, an error is recorded and the old list kept. */
  function Loaded(s: ListState, r: Result<seq<Servlet>, string>): (t: ListState)
    ensures !t.isLoading
    ensures r.Ok? ==> t.servlets == r.value && t.error == s.error
    ensures r.Failure? ==> t.servlets == s.servlets && t.error == Some(r.error)
  {
    match r
    case Ok(items) => ListState(items, false, s.error)
    case Failure(message) => ListState(s.servlets, false, Some(message))
  }

  /** The state a whole load leaves: it starts loading with the error
      cleared, then records the result, so afterwards the list or the
      error is shown, never both. */
  function Refreshed(s: ListState, r: Result<seq<Servlet>, string>): (t: ListState)
    ensures !t.isLoading
    ensures r.Ok? ==> t == ListState(r.value, false, None)
    ensures r.Failure? ==> t == ListState(s.servlets, false, Some(r.error))
  {
    Loaded(ListState(s.servlets, true, None), r)
  }

  /** The `servlets`, `isLoading` and `error` state of `McpProvider`, and
      the same three of the lexical mentions plugin. */
  class ServletList {
    var servlets: seq<Servlet>
    var isLoading: bool
    var error: Option<string>

    constructor ()
      ensures State() == ListState([], false, None)
    {
      servlets := [];
      isLoading := false;
      error := None;
    }

    function State(): ListState
      reads this
    {
      ListState(servlets, isLoading, error)
    }

    /** Before the fetch: loading, with no error, the list as it was. */
    method BeginLoad()
      modifies this
      ensures State() == ListState(old(servlets), true, None)
    {
      isLoading := true;
      error := None;
    }

    /** After the fetch: the list or the error message, no longer loading. */
    method EndLoad(r: Result<seq<Servlet>, string>)
      modifies this
      ensures State() == Loaded(old(State()), r)
    {
      match r {
        case Ok(items) => servlets := items;
        case Failure(message) => error := Some(message);
      }
      isLoading := false;
    }

    /** `refreshServlets`, and the mount-time load of both components. */
    method Refresh(c: ServletCache, outcome: FetchOutcome, parse: string -> Option<Parsed>)
      requires c.Valid()
      modifies this, c
      ensures c.Valid() && !c.pending && c.cache == CacheAfter(old(c.cache), outcome, parse)
      ensures State() == Refreshed(old(State()), FetchResult(old(c.cache), outcome, parse))
    {
      BeginLoad();
      var r := c.Fetch(outcome, parse);
      EndLoad(r);
    }
  }

  /** A refresh with the cache filled shows the cached list and no error,
      whatever the network answers, and keeps the cache. */
  lemma RefreshWithCache(s: ListState, list: seq<Servlet>, outcome: FetchOutcome, parse: string -> Option<Parsed>)
    ensures Refreshed(s, FetchResult(Some(list), outcome, parse)) == ListState(list, false, None)
    ensures CacheAfter(Some(list), outcome, parse) == Some(list)
  {
  }

  /** What `fetch('/api/wasm/<address>')` answers. */
  datatype WasmResponse = WasmResponse(ok: bool, status: int, statusText: string, bytes: seq<bv8>)

  function WasmContentPath(contentAddress: string): string
  {
    Middleware.WasmPrefix + contentAddress
  }

  /** `fetchWasmContent`: the bytes, or an error naming the status. */
  function FetchWasmContent(contentAddress: string, fetch: string -> Result<WasmResponse, string>)
    : (r: Result<seq<bv8>, string>)
    ensures fetch(WasmContentPath(contentAddress)).Ok? && fetch(WasmContentPath(contentAddress)).value.ok ==>
      r == Ok(fetch(WasmContentPath(contentAddress)).value.bytes)
    ensures fetch(WasmContentPath(contentAddress)).Ok? && !fetch(WasmContentPath(contentAddress)).value.ok ==>
      var resp := fetch(WasmContentPath(contentAddress)).value;
      r == Failure("Failed to fetch WASM content: " + resp.statusText + " (Status: " + IntToString(resp.status) + ")")
    ensures fetch(WasmContentPath(contentAddress)).Failure? ==> r == Failure(fetch(WasmContentPath(contentAddress)).error)
  {
    match fetch(WasmContentPath(contentAddress))
    case Failure(message) => Failure(message)
    case Ok(resp) =>
      if resp.ok then Ok(resp.bytes)
      else Failure("Failed to fetch WASM content: " + resp.statusText + " (Status: " + IntToString(resp.status) + ")")
  }

  /** A refused fetch's message starts with the fixed text and the status
      text, and ends with the status in decimal. */
  lemma WasmFetchMessage(statusText: string, status: nat)
    ensures var m := "Failed to fetch WASM content: " + statusText + " (Status: " + IntToString(status) + ")";
      StartsWith(m, "Failed to fetch WASM content: " + statusText)
      && EndsWith(m, IntToString(status) + ")")
      && DecimalValue(IntToString(status)) == status
  {
    IntToStringValue(status);
    var head := "Failed to fetch WASM content: " + statusText;
    var digits := IntToString(status) + ")";
    var m := head + " (Status: " + digits;
    assert m == "Failed to fetch WASM content: " + statusText + " (Status: " + IntToString(status) + ")";
    assert m[..|head|] == head;
    assert m[|m| - |digits|..] == digits;
  }

  /** The path `fetchWasmContent` asks for is one the middleware forwards,
      to `/api/c/<address>` on the target. */
  lemma WasmContentIsForwarded(contentAddress: string)
    ensures Middleware.RouteOf(WasmContentPath(contentAddress)) == Middleware.WasmRoute
    ensures Middleware.TargetPath(WasmContentPath(contentAddress)) == Some("/api/c/" + contentAddress)
  {
    var path := WasmContentPath(contentAddress);
    assert path[..|Middleware.WasmPrefix|] == Middleware.WasmPrefix;
    assert path[5] == 'w';
    Middleware.TargetPaths(path);
    assert path[|Middleware.WasmPrefix|..] == contentAddress;
  }
}
