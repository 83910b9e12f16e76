/**
 * The Model Context Protocol client: the request and response envelopes,
 * the construction of a response from an HTTP reply (with its defaults),
 * the client whose `call` is retried three times with a doubling delay,
 * the three convenience wrappers, and the cache of clients keyed by URL
 * and token.
 *
 * The server is an oracle: `server(post, k)` is the reply to the k-th POST
 * of a call, and `ids(k)` the request id the k-th attempt generates.
 */
module Mcp {
  import opened Python
  import opened AwsServiceLayer

  /** An MCP request; `context` and `parameters` are dicts in normal use. */
  datatype McpRequest = McpRequest(operation: string, context: Value, parameters: Value, requestId: string)

  /** `asdict(request)`, the JSON body of the POST. */
  function RequestToDict(q: McpRequest): (d: Value)
    ensures d.JObj? && d.fields.Keys == {"operation", "context", "parameters", "request_id"}
    ensures d.fields["operation"] == JStr(q.operation) && d.fields["request_id"] == JStr(q.requestId)
  {
    JObj(map["operation" := JStr(q.operation), "context" := q.context,
             "parameters" := q.parameters, "request_id" := JStr(q.requestId)])
  }

  /** An MCP response; its fields hold whatever the server sent, and are not type-checked. */
  datatype McpResponse = McpResponse(status: Value, data: Value, errors: Value, requestId: Value) {
    /** The `success` property. */
    predicate Success() {
      status == JStr("success")
    }
  }

  /** The reply to a POST: a transport failure, or a status code with a body that is JSON (`Some`) or not (`None`). */
  datatype Reply = TransportFailure(reason: string) | HttpReply(statusCode: int, body: Option<Value>)

  /** A POST as it leaves the client. */
  datatype HttpPost = HttpPost(url: string, headers: map<string, string>, body: Value)

  /** The default status of a reply without one. */
  const DefaultStatus: Value := JStr("error")

  /** `raise_for_status()`: client and server errors raise. */
  predicate IsErrorStatus(code: int) {
    400 <= code < 600
  }

  /**
   * The body of `call` after the POST: raise for an error status, parse the JSON,
   * and build the response with the defaults `status="error"`, `data={}`,
   * `errors=[]` and the request's own id.
   */
  function DecodeReply(reply: Reply, requestId: string): (r: Result<McpResponse, Exception>)
    ensures reply.TransportFailure? ==> r == Err(TransportError(reply.reason))
    ensures reply.HttpReply? && IsErrorStatus(reply.statusCode) ==> r == Err(HttpError(reply.statusCode))
    ensures reply.HttpReply? && !IsErrorStatus(reply.statusCode) && reply.body.None? ==> r == Err(JsonDecodeError)
    ensures r.Ok? <==> reply.HttpReply? && !IsErrorStatus(reply.statusCode) && reply.body.Some? && reply.body.value.JObj?
    ensures r.Err? && r.error.AttributeError? ==> reply.HttpReply? && reply.body.Some? && !reply.body.value.JObj?
    ensures reply.HttpReply? && !IsErrorStatus(reply.statusCode) && reply.body.Some? && !reply.body.value.JObj? ==>
              r.Err? && r.error.AttributeError?
    ensures r.Ok? ==>
      var f := reply.body.value.fields;
      && ("status" in f ==> r.value.status == f["status"]) && ("status" !in f ==> r.value.status == DefaultStatus)
      && ("data" in f ==> r.value.data == f["data"]) && ("data" !in f ==> r.value.data == EmptyObject)
      && ("errors" in f ==> r.value.errors == f["errors"]) && ("errors" !in f ==> r.value.errors == JArr([]))
      && ("request_id" in f ==> r.value.requestId == f["request_id"]) && ("request_id" !in f ==> r.value.requestId == JStr(requestId))
  {
    match reply
    case TransportFailure(reason) => Err(TransportError(reason))
    case HttpReply(code, body) =>
      if IsErrorStatus(code) then Err(HttpError(code))
      else if body.None? then Err(JsonDecodeError)
      else if !body.value.JObj? then Err(AttributeError("object has no attribute 'get'"))
      else
        var f := body.value.fields;
        Ok(McpResponse(Get(f, "status", DefaultStatus), Get(f, "data", EmptyObject),
                       Get(f, "errors", JArr([])), Get(f, "request_id", JStr(requestId))))
  }

  /** The JSON a server sends for a response. */
  function ResponseToDict(resp: McpResponse): Value {
    JObj(map["status" := resp.status, "data" := resp.data, "errors" := resp.errors, "request_id" := resp.requestId])
  }

  /** A successful reply carrying a response's dict is decoded to that response, whatever the request id. */
  lemma ResponseRoundTrip(resp: McpResponse, code: int, requestId: string)
    requires !IsErrorStatus(code)
    ensures DecodeReply(HttpReply(code, Some(ResponseToDict(resp))), requestId) == Ok(resp)
  {
    var f := ResponseToDict(resp).fields;
    assert "status" in f && "data" in f && "errors" in f && "request_id" in f;
  }

  /** A reply with an empty dict is a well-formed failed response that echoes the request id. */
  lemma EmptyReplyIsFailure(code: int, requestId: string)
    requires !IsErrorStatus(code)
    ensures var r := DecodeReply(HttpReply(code, Some(EmptyObject)), requestId);
            r == Ok(McpResponse(DefaultStatus, EmptyObject, JArr([]), JStr(requestId))) && !r.value.Success()
  {
  }

  /** The headers of a client: always the content type, and a bearer token exactly when the token is truthy. */
  function HeadersFor(authToken: Option<string>): (h: map<string, string>)
    ensures "Content-Type" in h && h["Content-Type"] == "application/json"
    ensures "Authorization" in h <==> TruthyText(authToken)
    ensures "Authorization" in h ==> h["Authorization"] == "Bearer " + authToken.value
    ensures h.Keys <= {"Content-Type", "Authorization"}
  {
    var h := map["Content-Type" := "application/json"];
    if TruthyText(authToken) then h["Authorization" := "Bearer " + authToken.value] else h
  }

  /** The number of attempts and the delay of the `@retry(max_attempts=3)` on `call`. */
  const CallAttempts: int := 3
  const CallBaseDelay: real := 0.1

  /** A client bound to one server URL, without trailing slashes, and one set of headers. */
  class McpClient {
    const baseUrl: string
    const headers: map<string, string>

    constructor (baseUrl: string, authToken: Option<string>)
      ensures this.baseUrl == RStrip(baseUrl, '/') && this.headers == HeadersFor(authToken)
    {
      this.baseUrl := RStrip(baseUrl, '/');
      this.headers := HeadersFor(authToken);
    }

    /** The request of the k-th attempt: each attempt builds a new request, with a new id. */
    function RequestAt(operation: string, context: Option<Value>, parameters: Option<Value>,
                       ids: nat -> string, k: nat): (q: McpRequest)
      ensures q.operation == operation && q.requestId == ids(k)
      ensures Truthy(q.context) ==> context == Some(q.context)
      ensures Truthy(q.parameters) ==> parameters == Some(q.parameters)
      ensures q.context == OrEmpty(context) && q.parameters == OrEmpty(parameters)
    {
      McpRequest(operation, OrEmpty(context), OrEmpty(parameters), ids(k))
    }

    /** The POST of a request to the `/invoke` endpoint. */
    function PostFor(q: McpRequest): (p: HttpPost)
      ensures p.url == baseUrl + "/invoke" && p.headers == headers && p.body == RequestToDict(q)
    {
      HttpPost(baseUrl + "/invoke", headers, RequestToDict(q))
    }

    /** The outcome of the k-th attempt of a call. */
    function Attempts(operation: string, context: Option<Value>, parameters: Option<Value>,
                      ids: nat -> string, server: (HttpPost, nat) -> Reply): nat -> Result<McpResponse, Exception>
    {
      (k: nat) => DecodeReply(server(PostFor(RequestAt(operation, context, parameters, ids, k)), k), ids(k))
    }

    /** What the retried `call` returns or raises. */
    function CallOutcome(operation: string, context: Option<Value>, parameters: Option<Value>,
                         ids: nat -> string, server: (HttpPost, nat) -> Reply): Result<McpResponse, Exception>
    {
      RetryResult(Attempts(operation, context, parameters, ids, server), CallAttempts)
    }

    /**
     * `call`, with its retry: the posts sent, one per attempt, and the sleeps between
     * them, which double from 0.1 seconds.
     */
    method Call(operation: string, context: Option<Value>, parameters: Option<Value>,
                ids: nat -> string, server: (HttpPost, nat) -> Reply)
      returns (r: Result<McpResponse, Exception>, posts: seq<HttpPost>, sleeps: seq<real>)
      ensures r == CallOutcome(operation, context, parameters, ids, server)
      ensures 1 <= |posts| == RetryCalls(Attempts(operation, context, parameters, ids, server), CallAttempts) <= 3
      ensures forall k :: 0 <= k < |posts| ==> posts[k] == PostFor(RequestAt(operation, context, parameters, ids, k))
      ensures |sleeps| == |posts| - 1
      ensures forall k :: 0 <= k < |sleeps| ==> sleeps[k] == CallBaseDelay * (Pow2(k) as real)
    {
      var attempt := Attempts(operation, context, parameters, ids, server);
      var calls: nat;
      r, calls, sleeps := Retry(CallAttempts, CallBaseDelay, true, attempt);
      CallCountsAgree(attempt);
      posts := seq(calls, (k: int) requires 0 <= k => PostFor(RequestAt(operation, context, parameters, ids, k)));
    }

    /** `get_capabilities` */
    method GetCapabilities(ids: nat -> string, server: (HttpPost, nat) -> Reply) returns (r: Result<Value, Exception>)
      ensures r == CapabilitiesOf(CallOutcome("get_capabilities", None, None, ids, server))
    {
      var response, posts, sleeps := Call("get_capabilities", None, None, ids, server);
      r := CapabilitiesOf(response);
    }

    /** `expand_context` */
    method ExpandContext(query: string, context: Option<Value>, ids: nat -> string, server: (HttpPost, nat) -> Reply)
      returns (r: Result<Value, Exception>)
      ensures r == ExpandedContextOf(CallOutcome("expand_context", Some(OrEmpty(context)), Some(QueryParameters(query)), ids, server))
    {
      var response, posts, sleeps := Call("expand_context", Some(OrEmpty(context)), Some(QueryParameters(query)), ids, server);
      r := ExpandedContextOf(response);
    }

    /** `run_tool` */
    method RunTool(toolName: string, parameters: Value, ids: nat -> string, server: (HttpPost, nat) -> Reply)
      returns (r: Result<Value, Exception>)
      ensures r == ToolResultOf(CallOutcome("run_tool", None, Some(ToolParameters(toolName, parameters)), ids, server))
    {
      var response, posts, sleeps := Call("run_tool", None, Some(ToolParameters(toolName, parameters)), ids, server);
      r := ToolResultOf(response);
    }
  }

  /** With three attempts, a call makes one to three posts and sleeps once fewer. */
  lemma CallCountsAgree(attempt: nat -> Result<McpResponse, Exception>)
    ensures 1 <= RetryCalls(attempt, CallAttempts) <= 3
    ensures SleepCount(attempt, CallAttempts) == RetryCalls(attempt, CallAttempts) - 1
  {
  }

  /** The parameters of `expand_context`. */
  function QueryParameters(query: string): (p: Value)
    ensures p.JObj? && p.fields == map["query" := JStr(query)]
  {
    JObj(map["query" := JStr(query)])
  }

  /** The parameters of `run_tool`. */
  function ToolParameters(toolName: string, parameters: Value): (p: Value)
    ensures p.JObj? && p.fields.Keys == {"tool_name", "parameters"}
    ensures p.fields["tool_name"] == JStr(toolName) && p.fields["parameters"] == parameters
  {
    JObj(map["tool_name" := JStr(toolName), "parameters" := parameters])
  }

  /** `data.get(key, default)`, which raises when a successful response's data is not a dict. */
  function DataField(resp: McpResponse, key: string, default: Value): (r: Result<Value, Exception>)
    ensures r.Ok? <==> resp.data.JObj?
    ensures resp.data.JObj? && key in resp.data.fields ==> r == Ok(resp.data.fields[key])
    ensures resp.data.JObj? && key !in resp.data.fields ==> r == Ok(default)
  {
    if resp.data.JObj? then Ok(Get(resp.data.fields, key, default))
    else Err(AttributeError("object has no attribute 'get'"))
  }

  /** What `get_capabilities` makes of the call: the listed capabilities, or `[]` on a failed response. */
  function CapabilitiesOf(call: Result<McpResponse, Exception>): (r: Result<Value, Exception>)
    ensures call.Err? ==> r == Err(call.error)
    ensures call.Ok? && !call.value.Success() ==> r == Ok(JArr([]))
    ensures call.Ok? && call.value.Success() ==> r == DataField(call.value, "capabilities", JArr([]))
  {
    match call
    case Err(e) => Err(e)
    case Ok(resp) => if resp.Success() then DataField(resp, "capabilities", JArr([])) else Ok(JArr([]))
  }

  /** What `expand_context` makes of the call: the expanded context, or `{}` on a failed response. */
  function ExpandedContextOf(call: Result<McpResponse, Exception>): (r: Result<Value, Exception>)
    ensures call.Err? ==> r == Err(call.error)
    ensures call.Ok? && !call.value.Success() ==> r == Ok(EmptyObject)
    ensures call.Ok? && call.value.Success() ==> r == DataField(call.value, "expanded_context", EmptyObject)
  {
    match call
    case Err(e) => Err(e)
    case Ok(resp) => if resp.Success() then DataField(resp, "expanded_context", EmptyObject) else Ok(EmptyObject)
  }

  /** What `run_tool` makes of the call: the data, or `{"error": errors}` on a failed response. */
  function ToolResultOf(call: Result<McpResponse, Exception>): (r: Result<Value, Exception>)
    ensures call.Err? ==> r == Err(call.error)
    ensures call.Ok? && call.value.Success() ==> r == Ok(call.value.data)
    ensures call.Ok? && !call.value.Success() ==> r == Ok(JObj(map["error" := call.value.errors]))
  {
    match call
    case Err(e) => Err(e)
    case Ok(resp) => if resp.Success() then Ok(resp.data) else Ok(JObj(map["error" := resp.errors]))
  }

  /**
   * A well-formed reply to the first attempt raises nothing, so the call returns it
   * after one post and no sleep; if its status is not `success`, the wrappers fall
   * back to `[]`, `{}` and `{"error": errors}`.
   */
  lemma FirstReplyNotRetried(client: McpClient, operation: string, context: Option<Value>, parameters: Option<Value>,
                             ids: nat -> string, server: (HttpPost, nat) -> Reply, code: int, f: map<string, Value>)
    requires server(client.PostFor(client.RequestAt(operation, context, parameters, ids, 0)), 0) == HttpReply(code, Some(JObj(f)))
    requires !IsErrorStatus(code)
    ensures var attempt := client.Attempts(operation, context, parameters, ids, server);
            RetryCalls(attempt, CallAttempts) == 1 && SleepCount(attempt, CallAttempts) == 0
    ensures var r := client.CallOutcome(operation, context, parameters, ids, server);
            r.Ok? && (r.value.Success() <==> "status" in f && f["status"] == JStr("success"))
    ensures var r := client.CallOutcome(operation, context, parameters, ids, server);
            !r.value.Success() ==>
              CapabilitiesOf(r) == Ok(JArr([])) && ExpandedContextOf(r) == Ok(EmptyObject) &&
              ToolResultOf(r) == Ok(JObj(map["error" := Get(f, "errors", JArr([]))]))
  {
    var attempt := client.Attempts(operation, context, parameters, ids, server);
    assert attempt(0).Ok?;
    RetrySucceedsAt(attempt, CallAttempts, 0);
  }

  /** A successful reply on the first attempt that lists capabilities makes get_capabilities return that list. */
  lemma CapabilitiesReported(client: McpClient, ids: nat -> string, server: (HttpPost, nat) -> Reply, capabilities: seq<string>)
    requires server(client.PostFor(client.RequestAt("get_capabilities", None, None, ids, 0)), 0) ==
             HttpReply(200, Some(JObj(map["status" := JStr("success"),
                                          "data" := JObj(map["capabilities" := JArr(seq(|capabilities|, i requires 0 <= i < |capabilities| => JStr(capabilities[i])))])])))
    ensures CapabilitiesOf(client.CallOutcome("get_capabilities", None, None, ids, server)) ==
            Ok(JArr(seq(|capabilities|, i requires 0 <= i < |capabilities| => JStr(capabilities[i]))))
  {
    var attempt := client.Attempts("get_capabilities", None, None, ids, server);
    assert attempt(0).Ok?;
    RetrySucceedsAt(attempt, CallAttempts, 0);
  }

  /** When every attempt fails at the transport, the call raises the third failure after three posts. */
  lemma UnreachableServer(client: McpClient, operation: string, context: Option<Value>, parameters: Option<Value>,
                          ids: nat -> string, server: (HttpPost, nat) -> Reply)
    requires forall p: HttpPost, k: nat :: server(p, k).TransportFailure?
    ensures var attempt := client.Attempts(operation, context, parameters, ids, server);
            var last := server(client.PostFor(client.RequestAt(operation, context, parameters, ids, 2)), 2);
            client.CallOutcome(operation, context, parameters, ids, server) == Err(TransportError(last.reason)) &&
            RetryCalls(attempt, CallAttempts) == 3 && SleepCount(attempt, CallAttempts) == 2
  {
    var attempt := client.Attempts(operation, context, parameters, ids, server);
    forall k | 0 <= k < CallAttempts ensures attempt(k).Err? {
      assert server(client.PostFor(client.RequestAt(operation, context, parameters, ids, k)), k).TransportFailure?;
    }
    RetryExhausted(attempt, CallAttempts);
  }

  // ---------------------------------------------------------------------------
  // get_mcp_client: @lru_cache(maxsize=32)
  // ---------------------------------------------------------------------------

  const CacheSize: nat := 32

  /** The arguments the cache is keyed by. */
  datatype CacheKey = CacheKey(baseUrl: string, authToken: Option<string>)

  predicate Distinct(s: seq<CacheKey>) {
    forall i, j :: 0 <= i < j < |s| ==> s[i] != s[j]
  }

  /** The cached clients, with their keys from least to most recently used. */
  class McpClientCache {
    var entries: map<CacheKey, McpClient>
    var recency: seq<CacheKey>

    ghost predicate Valid()
      reads this
    {
      && Distinct(recency)
      && (forall k :: k in entries <==> k in recency)
      && |recency| <= CacheSize
    }

    constructor ()
      ensures Valid() && entries == map[] && recency == []
    {
      entries, recency := map[], [];
    }

    /**
     * `get_mcp_client(base_url, auth_token)`: the cached client for the key, or a new
     * one, which may evict the least recently used key when 32 are cached.
     */
    method Get(baseUrl: string, authToken: Option<string>) returns (c: McpClient)
      requires Valid()
      modifies this
      ensures Valid()
      ensures entries.Keys <= old(entries.Keys) + {CacheKey(baseUrl, authToken)}
      ensures CacheKey(baseUrl, authToken) in entries && entries[CacheKey(baseUrl, authToken)] == c
      ensures recency[|recency| - 1] == CacheKey(baseUrl, authToken)
      ensures CacheKey(baseUrl, authToken) in old(entries) ==>
                c == old(entries[CacheKey(baseUrl, authToken)]) && entries == old(entries)
      ensures CacheKey(baseUrl, authToken) !in old(entries) ==>
                fresh(c) && c.baseUrl == RStrip(baseUrl, '/') && c.headers == HeadersFor(authToken)
      ensures forall k :: k in old(entries) && k in entries ==> entries[k] == old(entries[k])
      ensures forall k :: k in old(entries) && k !in entries ==>
                |old(recency)| == CacheSize && k == old(recency[0]) && CacheKey(baseUrl, authToken) !in old(entries)
      ensures CacheKey(baseUrl, authToken) in old(entries) ==>
                exists i :: 0 <= i < |old(recency)| && old(recency)[i] == CacheKey(baseUrl, authToken) &&
                            recency == old(recency)[..i] + old(recency)[i + 1..] + [CacheKey(baseUrl, authToken)]
      ensures CacheKey(baseUrl, authToken) !in old(entries) ==>
                recency == (if |old(recency)| == CacheSize then old(recency)[1..] else old(recency)) + [CacheKey(baseUrl, authToken)]
    {
      var key := CacheKey(baseUrl, authToken);
      if key in entries {
        c := entries[key];
        var i :| 0 <= i < |recency| && recency[i] == key;
        MoveToBack(recency, i);
        recency := recency[..i] + recency[i + 1..] + [key];
        return;
      }
      c := new McpClient(baseUrl, authToken);
      if |recency| == CacheSize {
        DropOldest(recency);
        entries := entries - {recency[0]};
        recency := recency[1..];
      }
      Append(recency, key);
      entries := entries[key := c];
      recency := recency + [key];
    }
  }

  /** Moving the key at position i to the back keeps the keys distinct and the same. */
  lemma MoveToBack(s: seq<CacheKey>, i: nat)
    requires Distinct(s) && i < |s|
    ensures var t := s[..i] + s[i + 1..] + [s[i]];
      Distinct(t) && |t| == |s| && (forall k :: k in t <==> k in s)
  {
    var t := s[..i] + s[i + 1..] + [s[i]];
    forall a, b | 0 <= a < b < |t| ensures t[a] != t[b] {
      var a' := if a < i then a else a + 1;
      var b' := if b == |t| - 1 then i else if b < i then b else b + 1;
      assert t[a] == s[a'] && t[b] == s[b'] && a' != b';
    }
    forall k | k in s ensures k in t {
      var j :| 0 <= j < |s| && s[j] == k;
      if j < i {
        assert t[j] == k;
      } else if j > i {
        assert t[j - 1] == k;
      }
    }
  }

  /** Dropping the oldest key keeps the rest distinct and loses only that key. */
  lemma DropOldest(s: seq<CacheKey>)
    requires Distinct(s) && s != []
    ensures Distinct(s[1..]) && (forall k :: k in s[1..] <==> k in s && k != s[0])
  {
    forall k | k in s && k != s[0] ensures k in s[1..] {
      var j :| 0 <= j < |s| && s[j] == k;
      assert s[1..][j - 1] == k;
    }
  }

  /** Appending a key not yet present keeps the keys distinct. */
  lemma Append(s: seq<CacheKey>, key: CacheKey)
    requires Distinct(s) && key !in s
    ensures Distinct(s + [key]) && (forall k :: k in s + [key] <==> k in s || k == key)
  {
  }

  /** A distinct sequence has as many elements as its set. */
  lemma {:induction false} DistinctCardinality(s: seq<CacheKey>)
    requires Distinct(s)
    ensures |set k | k in s| == |s|
  {
    if s != [] {
      DistinctCardinality(s[1..]);
      assert (set k | k in s) == {s[0]} + (set k | k in s[1..]);
    }
  }

  /** No more than 32 clients are ever cached. */
  lemma CacheBounded(cache: McpClientCache)
    requires cache.Valid()
    ensures |cache.entries| <= CacheSize
  {
    DistinctCardinality(cache.recency);
    assert cache.entries.Keys == set k | k in cache.recency;
  }

  /** Two lookups of the same key in a row give the same client. */
  method SameKeySameClient(cache: McpClientCache, baseUrl: string, authToken: Option<string>)
    returns (first: McpClient, second: McpClient)
    requires cache.Valid()
    modifies cache
    ensures first == second
  {
    first := cache.Get(baseUrl, authToken);
    second := cache.Get(baseUrl, authToken);
  }
}
