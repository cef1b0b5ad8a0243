/** The tool-calling agent of mcp-notion-email/groq_agent.py: flattening the
    MCP servers' tool lists into function schemas, routing a model-chosen
    function name back to (server, tool), executing one batch of tool calls
    and the conversation-history protocol of one `process_message` call.

    The MCP manager, the Groq completion endpoint and the tools themselves
    are parameters: `listing` is what `list_all_tools` produced, `complete`
    answers a completion request from the history snapshot and the offered
    schemas, and `callTool` answers a tool invocation. */
module GroqAgent {
  import opened PyText

  /** One tool as an MCP server lists it; `inputSchema` is kept as opaque JSON text. */
  datatype Tool = Tool(name: string, description: string, inputSchema: string)

  /** One entry of the server-to-tools dictionary, in its iteration order. */
  datatype ServerTools = ServerTools(server: string, tools: seq<Tool>)

  /** `{"type": …, "function": {"name": …, "description": …, "parameters": …}}` */
  datatype ToolSchema = ToolSchema(kind: string, name: string, description: string, parameters: string)

  /** The schema offered to the model for `tool` of `server`. */
  function ToolSchemaFor(server: string, tool: Tool): ToolSchema
  {
    ToolSchema("function", server + "_" + tool.name,
               tool.description + " (Server: " + server + ")", tool.inputSchema)
  }

  // ---------------------------------------------------------------------
  // _create_tool_schemas
  // ---------------------------------------------------------------------

  /** Reference definition: one schema per (server, tool) pair, servers in
      dictionary order and tools in list order. */
  function Schemas(all: seq<ServerTools>): seq<ToolSchema>
  {
    if all == [] then []
    else ServerSchemas(all[0].server, all[0].tools) + Schemas(all[1..])
  }

  function ServerSchemas(server: string, tools: seq<Tool>): (r: seq<ToolSchema>)
    ensures |r| == |tools|
    ensures forall j :: 0 <= j < |tools| ==> r[j] == ToolSchemaFor(server, tools[j])
  {
    if tools == [] then []
    else
      var n := |tools| - 1;
      assert forall j :: 0 <= j < n ==> tools[..n][j] == tools[j];
      ServerSchemas(server, tools[..n]) + [ToolSchemaFor(server, tools[n])]
  }

  /** Total number of tools over all servers. */
  function ToolCount(all: seq<ServerTools>): nat
  {
    if all == [] then 0 else |all[0].tools| + ToolCount(all[1..])
  }

  /** Number of tools of the servers before position i. */
  function Offset(all: seq<ServerTools>, i: nat): nat
    requires i <= |all|
  {
    if i == 0 then 0 else |all[0].tools| + Offset(all[1..], i - 1)
  }

  lemma {:induction false} SchemasAppend(a: seq<ServerTools>, b: seq<ServerTools>)
    ensures Schemas(a + b) == Schemas(a) + Schemas(b)
  {
    if a == [] {
      assert a + b == b;
    } else {
      var head := ServerSchemas(a[0].server, a[0].tools);
      calc {
        Schemas(a + b);
        { assert (a + b)[0] == a[0]; assert (a + b)[1..] == a[1..] + b; }
        head + Schemas(a[1..] + b);
        { SchemasAppend(a[1..], b); }
        head + (Schemas(a[1..]) + Schemas(b));
        (head + Schemas(a[1..])) + Schemas(b);
      }
    }
  }

  /** Exactly one schema per (server, tool) pair. */
  lemma {:induction false} SchemaCount(all: seq<ServerTools>)
    ensures |Schemas(all)| == ToolCount(all)
  {
    if all != [] {
      SchemaCount(all[1..]);
    }
  }

  /** The schema of tool j of server i sits at position Offset(all, i) + j,
      so the schemas follow dictionary-then-list order. */
  lemma {:induction false} SchemaAt(all: seq<ServerTools>, i: nat, j: nat)
    requires i < |all| && j < |all[i].tools|
    ensures Offset(all, i) + j < |Schemas(all)|
    ensures Schemas(all)[Offset(all, i) + j] == ToolSchemaFor(all[i].server, all[i].tools[j])
  {
    SchemaCount(all[1..]);
    if i > 0 {
      SchemaAt(all[1..], i - 1, j);
    }
  }

  /** One turn of the inner loop: the next tool's schema is appended. */
  lemma ToolStep(before: seq<ToolSchema>, server: string, tools: seq<Tool>, j: nat)
    requires j < |tools|
    ensures before + ServerSchemas(server, tools[..j]) + [ToolSchemaFor(server, tools[j])] ==
            before + ServerSchemas(server, tools[..j + 1])
  {
    var prefix := tools[..j + 1];
    assert prefix[..j] == tools[..j] && prefix[j] == tools[j];
  }

  /** One turn of the outer loop: the next server's schemas are appended. */
  lemma ServerStep(all: seq<ServerTools>, i: nat)
    requires i < |all|
    ensures Schemas(all[..i]) + ServerSchemas(all[i].server, all[i].tools[..|all[i].tools|]) == Schemas(all[..i + 1])
  {
    var entry := all[i];
    assert entry.tools[..|entry.tools|] == entry.tools;
    SchemasAppend(all[..i], [entry]);
    assert [entry][1..] == [];
    assert Schemas([entry]) == ServerSchemas(entry.server, entry.tools) + [];
    assert all[..i + 1] == all[..i] + [entry];
  }

  /** `_create_tool_schemas`: nested loops appending to `tool_schemas`. */
  method CreateToolSchemas(all: seq<ServerTools>) returns (schemas: seq<ToolSchema>)
    ensures schemas == Schemas(all)
    ensures |schemas| == ToolCount(all)
  {
    schemas := [];
    var i := 0;
    while i < |all|
      invariant 0 <= i <= |all|
      invariant schemas == Schemas(all[..i])
    {
      var entry := all[i];
      ghost var before := schemas;
      var j := 0;
      while j < |entry.tools|
        invariant 0 <= j <= |entry.tools|
        invariant schemas == before + ServerSchemas(entry.server, entry.tools[..j])
      {
        ToolStep(before, entry.server, entry.tools, j);
        schemas := schemas + [ToolSchemaFor(entry.server, entry.tools[j])];
        j := j + 1;
      }
      ServerStep(all, i);
      i := i + 1;
    }
    assert all[..i] == all;
    SchemaCount(all);
  }

  // ---------------------------------------------------------------------
  // Routing a function name back to (server, tool)
  // ---------------------------------------------------------------------

  datatype Route = Route(server: string, tool: string)

  predicate HasTool(tools: seq<Tool>, name: string)
  {
    exists t :: t in tools && t.name == name
  }

  /** The first server, in dictionary order, that lists a tool `name`. */
  function FirstServerWith(all: seq<ServerTools>, name: string): Option<string>
  {
    if all == [] then None
    else if HasTool(all[0].tools, name) then Some(all[0].server)
    else FirstServerWith(all[1..], name)
  }

  /** Server i is the first one listing `name`. */
  ghost predicate FirstProvider(all: seq<ServerTools>, name: string, i: int)
  {
    0 <= i < |all| && HasTool(all[i].tools, name) &&
    forall k :: 0 <= k < i ==> !HasTool(all[k].tools, name)
  }

  /** The routing inside `process_message`: a name with `_` splits at the
      first `_`; a name without one goes to the first server listing it. An
      empty or absent server name means "Could not find server". */
  function Resolve(name: string, all: seq<ServerTools>): (r: Option<Route>)
    ensures r.Some? ==> r.value.server != ""
  {
    var k := IndexOf(name, '_');
    if k < |name| then
      if k == 0 then None else Some(Route(name[..k], name[k + 1..]))
    else
      match FirstServerWith(all, name)
      case None => None
      case Some(s) => if s == "" then None else Some(Route(s, name))
  }

  /** A name `p + "_" + t` whose prefix has no `_` splits into (p, t), whatever
      `t` contains; an empty prefix is not a server. */
  lemma SplitAtFirstUnderscore(p: string, t: string, all: seq<ServerTools>)
    requires '_' !in p
    ensures Resolve(p + "_" + t, all) == if p == "" then None else Some(Route(p, t))
  {
    var name := p + "_" + t;
    var k := IndexOf(name, '_');
    assert name[|p|] == '_';
    assert name[..|p|] == p;
    assert k == |p|;
    assert name[k + 1..] == t;
  }

  /** Name round trip: the generated schema name of tool `t` of `server`
      routes back to (server, t.name) exactly when the server name is
      non-empty and contains no `_`. */
  lemma SchemaNameRoundTrip(server: string, t: Tool, all: seq<ServerTools>)
    ensures Resolve(ToolSchemaFor(server, t).name, all) == Some(Route(server, t.name))
        <==> server != "" && '_' !in server
  {
    var name := server + "_" + t.name;
    if '_' in server {
      var k := IndexOf(name, '_');
      var m := IndexOf(server, '_');
      assert name[m] == '_';
      assert name[..k] == server[..k];
      assert k < |server|;
    } else {
      SplitAtFirstUnderscore(server, t.name, all);
    }
  }

  /** A bare name (no `_`) routes to the first server listing it, provided
      that server's name is non-empty; otherwise it is not found. */
  lemma {:induction false} BareNameRoutesToFirstProvider(name: string, all: seq<ServerTools>)
    requires '_' !in name
    ensures Resolve(name, all).Some? <==> exists i :: FirstProvider(all, name, i) && all[i].server != ""
    ensures forall i :: FirstProvider(all, name, i) && all[i].server != "" ==>
              Resolve(name, all) == Some(Route(all[i].server, name))
  {
    FirstServerWithIsFirstProvider(name, all);
  }

  lemma {:induction false} FirstServerWithIsFirstProvider(name: string, all: seq<ServerTools>)
    ensures FirstServerWith(all, name).None? <==> forall i :: 0 <= i < |all| ==> !HasTool(all[i].tools, name)
    ensures forall i :: FirstProvider(all, name, i) ==> FirstServerWith(all, name) == Some(all[i].server)
    ensures FirstServerWith(all, name).Some? ==> exists i :: FirstProvider(all, name, i)
  {
    if all != [] {
      FirstServerWithIsFirstProvider(name, all[1..]);
      if HasTool(all[0].tools, name) {
        assert FirstProvider(all, name, 0);
        assert forall i :: FirstProvider(all, name, i) ==> i == 0;
      } else {
        forall i | FirstProvider(all, name, i)
          ensures i > 0 && FirstProvider(all[1..], name, i - 1)
        {
          forall k | 0 <= k < i - 1 ensures !HasTool(all[1..][k].tools, name) {
            assert !HasTool(all[k + 1].tools, name);
          }
        }
        if FirstServerWith(all, name).Some? {
          var i :| FirstProvider(all[1..], name, i);
          assert FirstProvider(all, name, i + 1) by {
            forall k | 0 <= k < i + 1 ensures !HasTool(all[k].tools, name) {
              if k > 0 { assert all[k] == all[1..][k - 1]; }
            }
          }
        }
        forall i | 0 <= i < |all| && HasTool(all[i].tools, name)
          ensures FirstServerWith(all[1..], name).Some?
        {
          assert i > 0 && all[1..][i - 1] == all[i];
        }
      }
    }
  }

  /** A name containing `_` never falls back to the dictionary scan: it is
      routed by its prefix alone, even when some server lists the full name. */
  lemma UnderscoreNameIgnoresListing(name: string, a: seq<ServerTools>, b: seq<ServerTools>)
    requires '_' in name
    ensures Resolve(name, a) == Resolve(name, b)
  {
    var k := IndexOf(name, '_');
    assert k < |name|;
  }

  // ---------------------------------------------------------------------
  // One batch of tool calls
  // ---------------------------------------------------------------------

  /** A tool call as the model emits it; `arguments` is the JSON text. */
  datatype ToolCall = ToolCall(id: string, name: string, arguments: string)

  /** What `mcp_manager.call_tool(server, tool, args)` is asked to do. */
  datatype Invocation = Invocation(server: string, tool: string, arguments: string)

  /** An entry of `tool_results`. */
  datatype ToolResult = ToolResult(toolCallId: string, output: string)

  /** The executor: the outcome of the invocation made for the call at the
      given position of the batch. */
  type Executor = (nat, Invocation) -> Outcome<string>

  /** The result recorded for the call at batch position `pos`. */
  function ResultFor(pos: nat, call: ToolCall, all: seq<ServerTools>, callTool: Executor): (r: ToolResult)
    ensures r.toolCallId == call.id
  {
    match Resolve(call.name, all)
    case None => ToolResult(call.id, "Could not find server for tool: " + call.name)
    case Some(route) =>
      match callTool(pos, Invocation(route.server, route.tool, call.arguments))
      case Returned(out) => ToolResult(call.id, out)
      case Raised(e) => ToolResult(call.id, "Error calling " + route.server + "." + route.tool + ": " + e)
  }

  /** The invocations the batch makes, in order: one per routable call. */
  function Invocations(calls: seq<ToolCall>, all: seq<ServerTools>): seq<Invocation>
  {
    if calls == [] then []
    else
      var last := calls[|calls| - 1];
      Invocations(calls[..|calls| - 1], all) +
        match Resolve(last.name, all)
        case None => []
        case Some(route) => [Invocation(route.server, route.tool, last.arguments)]
  }

  /** One more call adds its invocation exactly when it resolves. */
  lemma InvocationsStep(calls: seq<ToolCall>, all: seq<ServerTools>, k: nat)
    requires k < |calls|
    ensures Invocations(calls[..k + 1], all) == Invocations(calls[..k], all) +
              match Resolve(calls[k].name, all)
              case None => []
              case Some(route) => [Invocation(route.server, route.tool, calls[k].arguments)]
  {
    var prefix := calls[..k + 1];
    assert prefix[..k] == calls[..k] && prefix[k] == calls[k];
  }

  /** The loop body for one call: its result, and the invocation made if
      its name resolves. */
  method RunToolCall(pos: nat, call: ToolCall, all: seq<ServerTools>, callTool: Executor)
    returns (result: ToolResult, made: seq<Invocation>)
    ensures result == ResultFor(pos, call, all, callTool)
    ensures made == match Resolve(call.name, all)
                    case None => []
                    case Some(route) => [Invocation(route.server, route.tool, call.arguments)]
  {
    match Resolve(call.name, all) {
      case None =>
        result := ToolResult(call.id, "Could not find server for tool: " + call.name);
        made := [];
      case Some(route) =>
        var inv := Invocation(route.server, route.tool, call.arguments);
        made := [inv];
        match callTool(pos, inv) {
          case Returned(out) =>
            result := ToolResult(call.id, out);
          case Raised(e) =>
            result := ToolResult(call.id, "Error calling " + route.server + "." + route.tool + ": " + e);
        }
    }
  }

  /** The per-call loop of `process_message` (lines 96-143): one result per
      call, in call order, carrying the call's id whether the call was
      unroutable, succeeded or raised. `invoked` lists the invocations made. */
  method RunToolCalls(calls: seq<ToolCall>, all: seq<ServerTools>, callTool: Executor)
    returns (results: seq<ToolResult>, invoked: seq<Invocation>)
    ensures |results| == |calls|
    ensures forall k :: 0 <= k < |calls| ==> results[k] == ResultFor(k, calls[k], all, callTool)
    ensures forall k :: 0 <= k < |calls| ==> results[k].toolCallId == calls[k].id
    ensures invoked == Invocations(calls, all)
  {
    results, invoked := [], [];
    var k := 0;
    while k < |calls|
      invariant 0 <= k <= |calls|
      invariant |results| == k
      invariant forall m :: 0 <= m < k ==> results[m] == ResultFor(m, calls[m], all, callTool)
      invariant invoked == Invocations(calls[..k], all)
    {
      InvocationsStep(calls, all, k);
      var result, made := RunToolCall(k, calls[k], all, callTool);
      invoked := invoked + made;
      results := results + [result];
      k := k + 1;
    }
    assert calls[..k] == calls;
  }

  /** Reference definition of the results of a batch. */
  function BatchResults(calls: seq<ToolCall>, all: seq<ServerTools>, callTool: Executor): seq<ToolResult>
  {
    seq(|calls|, k requires 0 <= k < |calls| => ResultFor(k, calls[k], all, callTool))
  }

  /** An unroutable call is never executed: the batch makes exactly one
      invocation per call whose name resolves. */
  lemma {:induction false} InvocationCount(calls: seq<ToolCall>, all: seq<ServerTools>)
    ensures |Invocations(calls, all)| == |set k | 0 <= k < |calls| && Resolve(calls[k].name, all).Some?|
  {
    if calls != [] {
      var n := |calls| - 1;
      var prefix := calls[..n];
      InvocationCount(prefix, all);
      RoutableIndicesSnoc(calls, all);
    }
  }

  /** Adding a call adds its index to the routable ones exactly when it resolves. */
  lemma RoutableIndicesSnoc(calls: seq<ToolCall>, all: seq<ServerTools>)
    requires calls != []
    ensures var n := |calls| - 1;
            |set k | 0 <= k < |calls| && Resolve(calls[k].name, all).Some?| ==
              |set k | 0 <= k < n && Resolve(calls[..n][k].name, all).Some?| +
              (if Resolve(calls[n].name, all).Some? then 1 else 0)
  {
    var n := |calls| - 1;
    var routable := k => 0 <= k < |calls| && Resolve(calls[k].name, all).Some?;
    IndexSetSnoc(routable, n);
    assert (set k | 0 <= k < n + 1 && routable(k)) == set k | 0 <= k < |calls| && Resolve(calls[k].name, all).Some?;
    assert (set k | 0 <= k < n && routable(k)) == set k | 0 <= k < n && Resolve(calls[..n][k].name, all).Some?;
  }

  /** The indices below n + 1 that satisfy p: those below n, and n if it does. */
  lemma IndexSetSnoc(p: int -> bool, n: nat)
    ensures |set k | 0 <= k < n + 1 && p(k)| == |set k | 0 <= k < n && p(k)| + (if p(n) then 1 else 0)
  {
    var before := set k | 0 <= k < n && p(k);
    var now := set k | 0 <= k < n + 1 && p(k);
    assert n !in before;
    if p(n) {
      assert now == before + {n};
    } else {
      assert now == before;
    }
  }

  // ---------------------------------------------------------------------
  // Conversation history and process_message
  // ---------------------------------------------------------------------

  /** The model's message: its text and the tool calls it requests. */
  datatype ModelResponse = ModelResponse(content: string, toolCalls: seq<ToolCall>)

  /** An entry of `conversation_history`. `Response` is the raw response
      message object appended at line 92. */
  datatype Message =
    | User(content: string)
    | Response(message: ModelResponse)
    | ToolMessage(toolCallId: string, content: string)
    | Assistant(content: string)

  /** A completion request: the history snapshot and the tools offered
      (None for the follow-up call, which is made without tools). */
  type Completion = (seq<Message>, Option<seq<ToolSchema>>) -> Outcome<ModelResponse>

  function ToolMessages(results: seq<ToolResult>): seq<Message>
  {
    seq(|results|, k requires 0 <= k < |results| => ToolMessage(results[k].toolCallId, results[k].output))
  }

  const ErrorPrefix := "Error processing message: "

  /** The reply of one `process_message` call and the history it leaves. */
  datatype Turn = Turn(reply: string, history: seq<Message>)

  /** Reference definition of `process_message` (lines 73-171). An exception
      from listing the tools or from either completion ends the call with
      the error reply; what was appended before it stays appended. */
  function Transcript(history: seq<Message>, user: string, listing: Outcome<seq<ServerTools>>,
                      complete: Completion, callTool: Executor): Turn
  {
    match listing
    case Raised(e) => Turn(ErrorPrefix + e, history)
    case Returned(all) =>
      var h1 := history + [User(user)];
      match complete(h1, Some(Schemas(all)))
      case Raised(e) => Turn(ErrorPrefix + e, h1)
      case Returned(resp) =>
        var h2 := h1 + [Response(resp)];
        if resp.toolCalls == [] then
          Turn(resp.content, h2 + [Assistant(resp.content)])
        else
          var h3 := h2 + ToolMessages(BatchResults(resp.toolCalls, all, callTool));
          match complete(h3, None)
          case Raised(e) => Turn(ErrorPrefix + e, h3)
          case Returned(fin) => Turn(fin.content, h3 + [Assistant(fin.content)])
  }

  /** No-tool path: the history grows by exactly the user message, the raw
      response and an assistant message with the same content, which is
      also the reply. */
  lemma NoToolPath(history: seq<Message>, user: string, all: seq<ServerTools>,
                   complete: Completion, callTool: Executor)
    requires complete(history + [User(user)], Some(Schemas(all))).Returned?
    requires complete(history + [User(user)], Some(Schemas(all))).value.toolCalls == []
    ensures var resp := complete(history + [User(user)], Some(Schemas(all))).value;
            var t := Transcript(history, user, Returned(all), complete, callTool);
            t.reply == resp.content &&
            t.history == history + [User(user), Response(resp), Assistant(resp.content)]
  {
  }

  /** Tool path: the history grows by the user message, the raw response,
      one tool message per call in call order carrying that call's id, and
      the final assistant message from a second completion made without
      tools over exactly that history. */
  lemma ToolPath(history: seq<Message>, user: string, all: seq<ServerTools>,
                 complete: Completion, callTool: Executor)
    requires complete(history + [User(user)], Some(Schemas(all))).Returned?
    requires complete(history + [User(user)], Some(Schemas(all))).value.toolCalls != []
    ensures var resp := complete(history + [User(user)], Some(Schemas(all))).value;
            var calls := resp.toolCalls;
            var n := |history|;
            var t := Transcript(history, user, Returned(all), complete, callTool);
            var before := history + [User(user), Response(resp)] + ToolMessages(BatchResults(calls, all, callTool));
            (forall k :: 0 <= k < |calls| ==>
               before[n + 2 + k].ToolMessage? && before[n + 2 + k].toolCallId == calls[k].id) &&
            match complete(before, None)
            case Returned(fin) =>
              t.reply == fin.content && |t.history| == n + 3 + |calls| &&
              t.history == before + [Assistant(fin.content)]
            case Raised(e) =>
              t.reply == ErrorPrefix + e && |t.history| == n + 2 + |calls| && t.history == before
  {
    var resp := complete(history + [User(user)], Some(Schemas(all))).value;
    var calls := resp.toolCalls;
    var results := BatchResults(calls, all, callTool);
    var n := |history|;
    var before := history + [User(user), Response(resp)] + ToolMessages(results);
    assert history + [User(user)] + [Response(resp)] == history + [User(user), Response(resp)];
    forall k | 0 <= k < |calls|
      ensures before[n + 2 + k].ToolMessage? && before[n + 2 + k].toolCallId == calls[k].id
    {
      assert before[n + 2 + k] == ToolMessages(results)[k];
    }
  }

  /** Every path only appends: the history before the call is a prefix of
      the history after it, also when the call ends in the error reply. */
  lemma HistoryOnlyGrows(history: seq<Message>, user: string, listing: Outcome<seq<ServerTools>>,
                         complete: Completion, callTool: Executor)
    ensures var h := Transcript(history, user, listing, complete, callTool).history;
            |h| >= |history| && h[..|history|] == history
  {
    var h := Transcript(history, user, listing, complete, callTool).history;
    if listing.Returned? {
      var all := listing.value;
      var h1 := history + [User(user)];
      assert h1[..|history|] == history;
      match complete(h1, Some(Schemas(all))) {
        case Raised(_) =>
        case Returned(resp) =>
          var h2 := h1 + [Response(resp)];
          assert h2[..|history|] == history;
          if resp.toolCalls != [] {
            var h3 := h2 + ToolMessages(BatchResults(resp.toolCalls, all, callTool));
            assert h3[..|history|] == history;
            assert (h3 + [Assistant("")])[..|history|] == history;
            match complete(h3, None) {
              case Raised(_) =>
              case Returned(fin) =>
                assert (h3 + [Assistant(fin.content)])[..|history|] == history;
            }
          } else {
            assert (h2 + [Assistant(resp.content)])[..|history|] == history;
          }
      }
    }
  }

  /** The agent object: its only mutable state is the conversation history. */
  class GroqNotionEmailSystem {
    var conversationHistory: seq<Message>

    constructor ()
      ensures conversationHistory == []
    {
      conversationHistory := [];
    }

    /** `process_message`: never raises; any exception becomes the error reply. */
    method ProcessMessage(user: string, listing: Outcome<seq<ServerTools>>,
                          complete: Completion, callTool: Executor) returns (reply: string)
      modifies this
      ensures Turn(reply, conversationHistory) ==
              Transcript(old(conversationHistory), user, listing, complete, callTool)
    {
      if listing.Raised? {
        return ErrorPrefix + listing.message;
      }
      var all := listing.value;
      var schemas := CreateToolSchemas(all);
      conversationHistory := conversationHistory + [User(user)];
      var response := complete(conversationHistory, Some(schemas));
      if response.Raised? {
        return ErrorPrefix + response.message;
      }
      var message := response.value;
      conversationHistory := conversationHistory + [Response(message)];
      if message.toolCalls != [] {
        var results, _ := RunToolCalls(message.toolCalls, all, callTool);
        assert results == BatchResults(message.toolCalls, all, callTool);
        AppendToolMessages(results);
        var finalResponse := complete(conversationHistory, None);
        if finalResponse.Raised? {
          return ErrorPrefix + finalResponse.message;
        }
        var finalMessage := finalResponse.value.content;
        conversationHistory := conversationHistory + [Assistant(finalMessage)];
        return finalMessage;
      } else {
        conversationHistory := conversationHistory + [Assistant(message.content)];
        return message.content;
      }
    }

    /** The loop of lines 146-151: one `tool` message per result, in order. */
    method AppendToolMessages(results: seq<ToolResult>)
      modifies this
      ensures conversationHistory == old(conversationHistory) + ToolMessages(results)
    {
      var k := 0;
      while k < |results|
        invariant 0 <= k <= |results|
        invariant conversationHistory == old(conversationHistory) + ToolMessages(results[..k])
      {
        assert ToolMessages(results[..k + 1]) ==
               ToolMessages(results[..k]) + [ToolMessage(results[k].toolCallId, results[k].output)];
        conversationHistory := conversationHistory + [ToolMessage(results[k].toolCallId, results[k].output)];
        k := k + 1;
      }
      assert results[..k] == results;
    }

    /** `clear_conversation`. */
    method ClearConversation()
      modifies this
      ensures conversationHistory == []
    {
      conversationHistory := [];
    }
  }
}
