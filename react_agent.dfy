/**
 * The stateful parts of the ReAct agent handler: the module-level tool
 * registry filled by the `register_tool` decorator, the agent's list of
 * tools, its capabilities and registry card, the fallbacks of state loading,
 * the chat-history window kept by `process`, and the early returns of the
 * Lambda handler.
 *
 * The language model is an oracle: `process` is given what the chain's
 * `invoke` returns or raises.
 */
module ReactAgent {
  import opened Python
  import opened AwsServiceLayer
  import opened AgentCards
  import opened A2A
  import opened Mcp

  // ---------------------------------------------------------------------------
  // Tool registry
  // ---------------------------------------------------------------------------

  /** A Python function, known only by its identity. */
  datatype ToolFunc = ToolFunc(id: nat)

  /** An entry of `_tools_registry`. */
  datatype ToolInfo = ToolInfo(name: string, description: string, func: ToolFunc)

  predicate DistinctNames(s: seq<string>) {
    forall i, j :: 0 <= i < j < |s| ==> s[i] != s[j]
  }

  /** `_tools_registry`: a dict, whose keys iterate in first-insertion order. */
  class ToolRegistry {
    var entries: map<string, ToolInfo>
    var order: seq<string>

    ghost predicate Valid()
      reads this
    {
      DistinctNames(order) && (forall n :: n in entries <==> n in order)
    }

    constructor ()
      ensures Valid() && entries == map[] && order == []
    {
      entries, order := map[], [];
    }

    /**
     * `register_tool(name, description)(func)`: records the tool under its name,
     * replacing an earlier entry in place, and hands the function back unchanged.
     */
    method RegisterTool(name: string, description: string, func: ToolFunc) returns (f: ToolFunc)
      requires Valid()
      modifies this
      ensures Valid()
      ensures f == func
      ensures entries == old(entries)[name := ToolInfo(name, description, func)]
      ensures order == if name in old(entries) then old(order) else old(order) + [name]
    {
      if name !in entries {
        order := order + [name];
      }
      entries := entries[name := ToolInfo(name, description, func)];
      f := func;
    }

    /** `_get_capabilities()`: the registered names, each once, in iteration order. */
    function Capabilities(): (caps: seq<string>)
      requires Valid()
      reads this
      ensures DistinctNames(caps)
      ensures forall n :: n in caps <==> n in entries
      ensures caps == order
    {
      order
    }
  }

  /** Registering two names lists them in registration order; re-registering keeps a name's place. */
  method RegistrationOrder(a: string, b: string, f: ToolFunc, g: ToolFunc)
    returns (caps: seq<string>, again: seq<string>, kept: ToolInfo)
    requires a != b
    ensures caps == [a, b] && again == [a, b]
    ensures kept == ToolInfo(a, "second", g)
  {
    var registry := new ToolRegistry();
    var _ := registry.RegisterTool(a, "first", f);
    var _ := registry.RegisterTool(b, "first", f);
    caps := registry.Capabilities();
    var h := registry.RegisterTool(a, "second", g);
    again := registry.Capabilities();
    kept := registry.entries[a];
  }

  // ---------------------------------------------------------------------------
  // State
  // ---------------------------------------------------------------------------

  /** One entry of the chat history: a message object built by `process`, or an entry loaded as JSON. */
  datatype ChatEntry = Human(content: string) | Ai(content: string) | Stored(value: Value)

  /** A value of the agent's state: loaded JSON, or the history `process` keeps. */
  datatype StateValue = Json(json: Value) | History(entries: seq<ChatEntry>)

  /** The key of an agent's saved state. */
  function StateKey(agentId: string): string {
    "agents/" + agentId + "/state.json"
  }

  /**
   * `_load_state()`: the stored state, or `{}` when the bucket is not configured, the
   * object is absent or falsy, or the fetch raises.
   */
  function LoadState(bucketName: Option<string>, bucket: Bucket, agentId: string, fault: Option<Exception>): (r: Value)
    reads bucket
    ensures !TruthyText(bucketName) || fault.Some? ==> r == EmptyObject
    ensures r != EmptyObject ==> StateKey(agentId) in bucket.objects && r == bucket.objects[StateKey(agentId)]
    ensures (TruthyText(bucketName) && fault.None? && StateKey(agentId) in bucket.objects &&
             Truthy(bucket.objects[StateKey(agentId)])) ==> r == bucket.objects[StateKey(agentId)]
    ensures !Truthy(r) ==> r == EmptyObject
  {
    if !TruthyText(bucketName) then EmptyObject
    else
      match bucket.GetObject(StateKey(agentId), fault)
      case Err(_) => EmptyObject
      case Ok(state) => OrEmpty(state)
  }

  /** The loaded state as the agent holds it; a state that is not a dict makes `self.state.get` raise. */
  function AgentStateOf(loaded: Value): (r: Result<map<string, StateValue>, Exception>)
    ensures r.Ok? <==> loaded.JObj?
    ensures r.Ok? ==> r.value.Keys == loaded.fields.Keys &&
                      forall k :: k in r.value ==> r.value[k] == Json(loaded.fields[k])
  {
    if loaded.JObj? then Ok(map k | k in loaded.fields :: Json(loaded.fields[k]))
    else Err(AttributeError("object has no attribute 'get'"))
  }

  /** `state.get(key, default)` for a field of the card; the model holds only string names, descriptions and versions. */
  function StateText(state: map<string, StateValue>, key: string, default: string): (r: Option<string>)
    ensures key !in state ==> r == Some(default)
    ensures key in state ==> (r.Some? <==> state[key].Json? && state[key].json.JStr?)
    ensures key in state && r.Some? ==> state[key] == Json(JStr(r.value))
  {
    if key !in state then Some(default)
    else if state[key].Json? && state[key].json.JStr? then Some(state[key].json.s)
    else None
  }

  /** The card `_register_agent` builds from the state and the registered tools. */
  function CardFor(agentId: string, state: map<string, StateValue>, capabilities: seq<string>): (r: Option<AgentCard>)
    ensures r.Some? ==> r.value.agentId == agentId && r.value.capabilities == capabilities
    ensures r.Some? ==> !r.value.authRequired && r.value.rateLimit.None? &&
                        r.value.inputSchema == map[] && r.value.outputSchema == map[] && r.value.metadata == map[]
    ensures r.Some? ==> Some(r.value.name) == StateText(state, "name", "Agent-" + agentId) &&
                        Some(r.value.description) == StateText(state, "description", "A ReAct agent") &&
                        Some(r.value.version) == StateText(state, "version", "1.0.0")
    ensures r.None? <==> StateText(state, "name", "Agent-" + agentId).None? ||
                         StateText(state, "description", "A ReAct agent").None? ||
                         StateText(state, "version", "1.0.0").None?
  {
    var name := StateText(state, "name", "Agent-" + agentId);
    var description := StateText(state, "description", "A ReAct agent");
    var version := StateText(state, "version", "1.0.0");
    if name.None? || description.None? || version.None? then None
    else Some(AgentCard(agentId, name.value, description.value, version.value, capabilities,
                        map[], map[], false, None, map[]))
  }

  // ---------------------------------------------------------------------------
  // The chat-history window
  // ---------------------------------------------------------------------------

  const KeptEntries: nat := 10
  const HistoryCap: nat := 12

  /** The last n elements of s, or all of s when it is shorter. */
  function LastN<T>(s: seq<T>, n: nat): (r: seq<T>)
    ensures |r| == if |s| <= n then |s| else n
    ensures r == s[|s| - |r|..]
  {
    if |s| <= n then s else s[|s| - n..]
  }

  /**
   * The window of `process`: more than ten entries are cut to the last ten, then the
   * human and AI messages of the turn are appended. The result is exactly the last
   * twelve entries of the history followed by the turn.
   */
  function WindowHistory(h: seq<ChatEntry>, input: string, output: string): (r: seq<ChatEntry>)
    ensures r == LastN(h + [Human(input), Ai(output)], HistoryCap)
    ensures |r| <= HistoryCap && |r| >= 2 && r[|r| - 2..] == [Human(input), Ai(output)]
  {
    var kept := if |h| > KeptEntries then h[|h| - KeptEntries..] else h;
    var r := kept + [Human(input), Ai(output)];
    assert r[|r| - 2..] == [Human(input), Ai(output)];
    r
  }

  /** The two entries a turn adds, for a sequence of (input, output) turns. */
  function Pairs(turns: seq<(string, string)>): (p: seq<ChatEntry>)
    ensures |p| == 2 * |turns|
  {
    if turns == [] then [] else [Human(turns[0].0), Ai(turns[0].1)] + Pairs(turns[1..])
  }

  /** The history after processing the turns in order, starting from h. */
  function Replay(h: seq<ChatEntry>, turns: seq<(string, string)>): seq<ChatEntry>
    decreases |turns|
  {
    if turns == [] then h else Replay(WindowHistory(h, turns[0].0, turns[0].1), turns[1..])
  }

  /** Keeping the last n after appending to the last n is keeping the last n of the whole. */
  lemma LastNOfLastN<T>(x: seq<T>, y: seq<T>, n: nat)
    ensures LastN(LastN(x, n) + y, n) == LastN(x + y, n)
  {
    if |x| > n {
      var a := LastN(x, n) + y;
      var b := x + y;
      assert a == b[|x| - n..];
      assert LastN(a, n) == a[|a| - |LastN(a, n)|..];
    }
  }

  /**
   * However many turns are processed (at least one), the history is the last twelve
   * entries of the start followed by all the turns.
   */
  lemma {:induction false} ReplayKeepsLastTwelve(h: seq<ChatEntry>, turns: seq<(string, string)>)
    requires turns != []
    ensures Replay(h, turns) == LastN(h + Pairs(turns), HistoryCap)
    decreases |turns|
  {
    var x := h + [Human(turns[0].0), Ai(turns[0].1)];
    ReplayFirst(h, turns);
    if turns[1..] == [] {
      assert Replay(LastN(x, HistoryCap), turns[1..]) == LastN(x, HistoryCap);
    } else {
      ReplayKeepsLastTwelve(LastN(x, HistoryCap), turns[1..]);
      LastNOfLastN(x, Pairs(turns[1..]), HistoryCap);
    }
  }

  /** Processing the first turn windows the history; the turn's entries lead the turns' entries. */
  lemma ReplayFirst(h: seq<ChatEntry>, turns: seq<(string, string)>)
    requires turns != []
    ensures Replay(h, turns) == Replay(LastN(h + [Human(turns[0].0), Ai(turns[0].1)], HistoryCap), turns[1..])
    ensures h + Pairs(turns) == h + [Human(turns[0].0), Ai(turns[0].1)] + Pairs(turns[1..])
  {
    var p := [Human(turns[0].0), Ai(turns[0].1)];
    assert Pairs(turns) == p + Pairs(turns[1..]);
    assert h + (p + Pairs(turns[1..])) == h + p + Pairs(turns[1..]);
  }

  /** After at least six turns exactly the last six turns are remembered, whatever came before. */
  lemma LastSixTurns(h: seq<ChatEntry>, turns: seq<(string, string)>)
    requires |turns| >= 6
    ensures Replay(h, turns) == Pairs(turns[|turns| - 6..])
  {
    ReplayKeepsLastTwelve(h, turns);
    PairsSplit(turns[..|turns| - 6], turns[|turns| - 6..]);
    assert turns[..|turns| - 6] + turns[|turns| - 6..] == turns;
    var x := h + Pairs(turns[..|turns| - 6]);
    assert h + Pairs(turns) == x + Pairs(turns[|turns| - 6..]);
  }

  lemma {:induction false} PairsSplit(a: seq<(string, string)>, b: seq<(string, string)>)
    ensures Pairs(a + b) == Pairs(a) + Pairs(b)
    decreases |a|
  {
    if a == [] {
      assert a + b == b;
    } else {
      var ab := a + b;
      assert ab[0] == a[0] && ab[1..] == a[1..] + b;
      PairsSplit(a[1..], b);
      calc {
        Pairs(ab);
        [Human(a[0].0), Ai(a[0].1)] + Pairs(a[1..] + b);
        [Human(a[0].0), Ai(a[0].1)] + (Pairs(a[1..]) + Pairs(b));
        ([Human(a[0].0), Ai(a[0].1)] + Pairs(a[1..])) + Pairs(b);
      }
    }
  }

  /**
   * `state.get("chat_history", [])` followed by the window's `len`, slice and `append`:
   * missing history is empty, a loaded JSON list is kept, and any other value raises
   * (`len` of a number or None, slicing a long dict, appending to a string or dict).
   */
  function HistoryOf(state: map<string, StateValue>): (r: Result<seq<ChatEntry>, Exception>)
    ensures "chat_history" !in state ==> r == Ok([])
    ensures "chat_history" in state && state["chat_history"].History? ==> r == Ok(state["chat_history"].entries)
    ensures r.Ok? ==> "chat_history" !in state || state["chat_history"].History? ||
                      (state["chat_history"].json.JArr? && |r.value| == |state["chat_history"].json.items|)
    ensures "chat_history" in state && state["chat_history"].Json? && state["chat_history"].json.JArr? ==>
              r.Ok? && |r.value| == |state["chat_history"].json.items| &&
              forall i :: 0 <= i < |r.value| ==> r.value[i] == Stored(state["chat_history"].json.items[i])
    ensures "chat_history" in state && state["chat_history"].Json? && !state["chat_history"].json.JArr? ==> r.Err?
  {
    if "chat_history" !in state then Ok([])
    else match state["chat_history"]
      case History(entries) => Ok(entries)
      case Json(v) =>
        match v
        case JArr(items) => Ok(seq(|items|, i requires 0 <= i < |items| => Stored(items[i])))
        case JStr(_) => Err(AttributeError("'str' object has no attribute 'append'"))
        case JObj(f) =>
          if |f| > KeptEntries then Err(TypeError("unhashable type: 'slice'"))
          else Err(AttributeError("'dict' object has no attribute 'append'"))
        case _ => Err(TypeError("object has no len()"))
  }

  // ---------------------------------------------------------------------------
  // The agent
  // ---------------------------------------------------------------------------

  /** A tool of the agent: a registered function, or a remote tool run through an MCP client. */
  datatype Tool = LocalTool(name: string, description: string, func: ToolFunc)
                | RemoteTool(name: string, description: string, client: McpClient)

  /** One intermediate step of the chain: the tool called, its input and its observation. */
  datatype ToolStep = ToolStep(tool: string, toolInput: Value, observation: Value)

  /** What the chain's `invoke` returns. */
  datatype ChainResult = ChainResult(output: string, steps: seq<ToolStep>)

  const DefaultSystemPrompt: string := "You're a helpful AI assistant."

  /** The `intermediate_steps` list of the reply: one dict per step, in order. */
  function StepsToValue(steps: seq<ToolStep>): (v: Value)
    ensures v.JArr? && |v.items| == |steps|
    ensures forall i :: 0 <= i < |steps| ==>
              v.items[i] == JObj(map["tool" := JStr(steps[i].tool), "input" := steps[i].toolInput,
                                     "output" := steps[i].observation])
  {
    JArr(seq(|steps|, i requires 0 <= i < |steps| =>
      JObj(map["tool" := JStr(steps[i].tool), "input" := steps[i].toolInput, "output" := steps[i].observation])))
  }

  /** The dict `process` returns. */
  function ProcessReply(agentId: string, result: ChainResult, context: Option<Value>): (v: Value)
    ensures v.JObj? && v.fields.Keys == {"agent_id", "output", "intermediate_steps", "context"}
    ensures v.fields["output"] == JStr(result.output)
    ensures v.fields["agent_id"] == JStr(agentId) && v.fields["intermediate_steps"] == StepsToValue(result.steps)
    ensures v.fields["context"] == if context.Some? then context.value else JNull
  {
    JObj(map["agent_id" := JStr(agentId), "output" := JStr(result.output),
             "intermediate_steps" := StepsToValue(result.steps),
             "context" := if context.Some? then context.value else JNull])
  }

  class ReActAgent {
    const agentId: string
    const systemPrompt: string
    const toolRegistry: ToolRegistry
    var tools: seq<Tool>
    var state: map<string, StateValue>

    /**
     * `ReActAgent(agent_id, system_prompt)` given its loaded state: it starts with no
     * tools and registers its card, whose capabilities are the registered tool names;
     * a failed registration is ignored.
     */
    constructor (agentId: string, systemPrompt: Option<string>, state: map<string, StateValue>,
                 toolRegistry: ToolRegistry, registry: AgentRegistry, registryFault: Option<Exception>)
      requires toolRegistry.Valid() && registry.Valid()
      modifies registry.table
      ensures this.agentId == agentId && this.toolRegistry == toolRegistry && this.state == state && tools == []
      ensures this.systemPrompt == if TruthyText(systemPrompt) then systemPrompt.value else DefaultSystemPrompt
      ensures var card := CardFor(agentId, state, toolRegistry.order);
              registry.table.items ==
                if card.Some? && registryFault.None? then old(registry.table.items)[agentId := CardToDict(card.value)]
                else old(registry.table.items)
    {
      this.agentId := agentId;
      this.systemPrompt := if TruthyText(systemPrompt) then systemPrompt.value else DefaultSystemPrompt;
      this.toolRegistry := toolRegistry;
      this.tools := [];
      this.state := state;
      new;
      var card := CardFor(agentId, state, toolRegistry.Capabilities());
      if card.Some? {
        var _ := registry.RegisterAgent(card.value, registryFault);
      }
    }

    /** `add_tool(name)`: appends the registered tool of that name, and does nothing for an unknown name. */
    method AddTool(name: string)
      modifies this
      ensures state == old(state)
      ensures tools == if name in toolRegistry.entries
                       then old(tools) + [LocalTool(name, toolRegistry.entries[name].description, toolRegistry.entries[name].func)]
                       else old(tools)
    {
      if name in toolRegistry.entries {
        var info := toolRegistry.entries[name];
        tools := tools + [LocalTool(name, info.description, info.func)];
      }
    }

    /** The handler's `for tool_name in event.get("tools", [])` loop: one `add_tool` per listed name. */
    method AddTools(names: seq<string>)
      modifies this
      ensures state == old(state)
      ensures tools == old(tools) + LocalToolsFor(toolRegistry.entries, names)
    {
      ghost var entries := toolRegistry.entries;
      var i := 0;
      while i < |names|
        invariant 0 <= i <= |names|
        invariant state == old(state) && toolRegistry.entries == entries
        invariant tools == old(tools) + LocalToolsFor(entries, names[..i])
      {
        ghost var done := LocalToolsFor(entries, names[..i]);
        LocalToolsSnoc(entries, names[..i], names[i]);
        assert names[..i + 1] == names[..i] + [names[i]];
        AddTool(names[i]);
        ghost var added := if names[i] in entries then [LocalTool(names[i], entries[names[i]].description, entries[names[i]].func)] else [];
        assert tools == old(tools) + done + added;
        assert old(tools) + done + added == old(tools) + (done + added);
        i := i + 1;
      }
      assert names[..i] == names;
    }

    /** `add_mcp_tool(url, tool_name, description, auth_token)`: appends a remote tool over the cached client. */
    method AddMcpTool(cache: McpClientCache, mcpUrl: string, toolName: string, description: string, authToken: Option<string>)
      requires cache.Valid()
      modifies this, cache
      ensures cache.Valid() && state == old(state)
      ensures CacheKey(mcpUrl, authToken) in cache.entries
      ensures tools == old(tools) + [RemoteTool(toolName, description, cache.entries[CacheKey(mcpUrl, authToken)])]
    {
      var client := cache.Get(mcpUrl, authToken);
      tools := tools + [RemoteTool(toolName, description, client)];
    }

    /**
     * `process(input_text, context)`, given what the chain returned or raised: on
     * success the history becomes the window of the old one and the turn, and nothing
     * else in the state changes; on an exception the state is unchanged.
     */
    method Process(inputText: string, context: Option<Value>, chain: Result<ChainResult, Exception>)
      returns (r: Result<Value, Exception>)
      modifies this
      ensures tools == old(tools)
      ensures chain.Err? ==> r == Err(chain.error) && state == old(state)
      ensures chain.Ok? && HistoryOf(old(state)).Err? ==> r == Err(HistoryOf(old(state)).error) && state == old(state)
      ensures chain.Ok? && HistoryOf(old(state)).Ok? ==>
                r == Ok(ProcessReply(agentId, chain.value, context)) &&
                state == old(state)["chat_history" := History(WindowHistory(HistoryOf(old(state)).value, inputText, chain.value.output))]
    {
      if chain.Err? {
        return Err(chain.error);
      }
      var history := HistoryOf(state);
      if history.Err? {
        return Err(history.error);
      }
      var h := history.value;
      if |h| > KeptEntries {
        h := h[|h| - KeptEntries..];
      }
      h := h + [Human(inputText)];
      h := h + [Ai(chain.value.output)];
      assert h == WindowHistory(history.value, inputText, chain.value.output);
      state := state["chat_history" := History(h)];
      r := Ok(ProcessReply(agentId, chain.value, context));
    }
  }

  /** The tools `add_tool` appends for a list of names, skipping unknown ones. */
  function LocalToolsFor(entries: map<string, ToolInfo>, names: seq<string>): (ts: seq<Tool>)
    ensures |ts| <= |names|
    ensures forall t :: t in ts ==> t.LocalTool? && t.name in entries &&
                                    t == LocalTool(t.name, entries[t.name].description, entries[t.name].func)
  {
    if names == [] then []
    else
      var rest := LocalToolsFor(entries, names[1..]);
      if names[0] in entries then [LocalTool(names[0], entries[names[0]].description, entries[names[0]].func)] + rest
      else rest
  }

  lemma {:induction false} LocalToolsSnoc(entries: map<string, ToolInfo>, names: seq<string>, name: string)
    ensures LocalToolsFor(entries, names + [name]) ==
            LocalToolsFor(entries, names) + (if name in entries then [LocalTool(name, entries[name].description, entries[name].func)] else [])
    decreases |names|
  {
    if names == [] {
      assert names + [name] == [name];
    } else {
      LocalToolsSnoc(entries, names[1..], name);
      assert (names + [name])[1..] == names[1..] + [name];
    }
  }

  /** A remote tool runs `run_tool` on its client with the keyword arguments as parameters. */
  method RunRemoteTool(tool: Tool, kwargs: map<string, Value>, ids: nat -> string, server: (HttpPost, nat) -> Reply)
    returns (r: Result<Value, Exception>)
    requires tool.RemoteTool?
    ensures r == ToolResultOf(tool.client.CallOutcome("run_tool", None, Some(ToolParameters(tool.name, JObj(kwargs))), ids, server))
  {
    r := tool.client.RunTool(tool.name, JObj(kwargs), ids, server);
  }

  // ---------------------------------------------------------------------------
  // handler(event, context)
  // ---------------------------------------------------------------------------

  const MissingAgentId: Value := JObj(map["error" := JStr("Missing agent_id")])
  const MissingInput: Value := JObj(map["error" := JStr("Missing input")])

  /** The handler's early returns, checked before any other work: `Some` is the reply it returns at once. */
  function HandlerPrecheck(event: map<string, Value>): (r: Option<Value>)
    ensures r == Some(MissingAgentId) <==> !("agent_id" in event && Truthy(event["agent_id"]))
    ensures r == Some(MissingInput) <==>
              "agent_id" in event && Truthy(event["agent_id"]) && !("input" in event && Truthy(event["input"]))
    ensures r.None? <==> "agent_id" in event && Truthy(event["agent_id"]) && "input" in event && Truthy(event["input"])
  {
    assert MissingAgentId.fields["error"] != MissingInput.fields["error"];
    if !Truthy(Get(event, "agent_id", JNull)) then Some(MissingAgentId)
    else if !Truthy(Get(event, "input", JNull)) then Some(MissingInput)
    else None
  }
}
