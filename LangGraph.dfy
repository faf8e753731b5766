/** The agent side of the chat (lib/langgraph.ts): the routing of the simple
    tool-calling graph, the fixed pipeline of the deep research graph, the
    bounded tool loop each researcher runs, the extraction of the research
    plan, the fan-out over research tasks and the findings text of the
    report. The language model, the tools and `JSON.parse` are parameters. */
module LangGraph {
  import opened Wrappers
  import opened JsText

  /** A message's `content`: a string, the one-block array `addCachingHeaders`
      wraps content in (the block's `text` being the previous content), or
      other structured content together with its JSON text. */
  datatype Content = Text(text: string) | CacheMarked(inner: Content) | Structured(json: string)

  predicate ContentTruthy(c: Content) {
    !c.Text? || c.text != ""
  }

  /** A tool call requested by the model; "" stands for a missing `id` or
      `name`, and `args` is the JSON text of the arguments. */
  datatype ToolCall = ToolCall(id: string, name: string, args: string)

  /** The LangChain message classes the graphs handle. */
  datatype Message =
    | HumanMessage(content: Content)
    | AiMessage(content: Content, toolCalls: seq<ToolCall>)
    | ToolMessage(content: Content, toolCallId: string, name: string)
    | SystemMessage(content: Content)

  /** `message.tool_calls ?? []`. */
  function ToolCallsOf(m: Message): seq<ToolCall> {
    if m.AiMessage? then m.toolCalls else []
  }

  // ---------------------------------------------------------------------
  // The two graphs.

  datatype Route = ToTools | ToAgent | ToEnd

  /** `shouldContinue`, the conditional edge out of the simple graph's agent
      node. The graph only calls it after the agent node has appended a
      response, so there is a last message. */
  function ShouldContinue(messages: seq<Message>): (r: Route)
    requires |messages| > 0
    ensures var last := messages[|messages| - 1];
      && (r == ToTools <==> |ToolCallsOf(last)| > 0)
      && (r == ToAgent <==> last.ToolMessage? && ContentTruthy(last.content))
      && (r == ToEnd <==> |ToolCallsOf(last)| == 0 && !(last.ToolMessage? && ContentTruthy(last.content)))
  {
    var last := messages[|messages| - 1];
    if |ToolCallsOf(last)| > 0 then ToTools
    else if ContentTruthy(last.content) && last.ToolMessage? then ToAgent
    else ToEnd
  }

  datatype Node =
    | Start | End
    | Agent | Tools
    | ClarifyAgent | ResearchBriefAgent | ParallelResearch | ReportAgent

  /** The edges of the simple graph: START to agent, agent by
      `shouldContinue`, tools back to agent. */
  function SimpleNext(node: Node, messages: seq<Message>): Option<Node>
    requires node == Agent ==> |messages| > 0
  {
    match node
    case Start => Some(Agent)
    case Agent =>
      Some(match ShouldContinue(messages)
        case ToTools => Tools
        case ToAgent => Agent
        case ToEnd => End)
    case Tools => Some(Agent)
    case _ => None
  }

  /** After the agent node, whose last message is the model's reply, the
      simple graph goes to the tools exactly when the reply asked for tools
      and otherwise ends: the "agent" outcome of `shouldContinue` cannot
      arise there. */
  lemma AgentReplyRoutesToToolsOrEnd(messages: seq<Message>, reply: Content, calls: seq<ToolCall>)
    ensures var ms := messages + [AiMessage(reply, calls)];
      SimpleNext(Agent, ms) == if |calls| > 0 then Some(Tools) else Some(End)
  {
  }

  /** The edges of the deep research graph: a fixed pipeline. */
  function DeepNext(node: Node): Option<Node> {
    match node
    case Start => Some(ClarifyAgent)
    case ClarifyAgent => Some(ResearchBriefAgent)
    case ResearchBriefAgent => Some(ParallelResearch)
    case ParallelResearch => Some(ReportAgent)
    case ReportAgent => Some(End)
    case _ => None
  }

  /** How many edges separate a deep research node from END. */
  function StepsToEnd(node: Node): nat {
    match node
    case Start => 5
    case ClarifyAgent => 4
    case ResearchBriefAgent => 3
    case ParallelResearch => 2
    case ReportAgent => 1
    case _ => 0
  }

  /** The nodes a deep research run visits from `node` on. */
  function DeepRun(node: Node): (path: seq<Node>)
    ensures |path| >= 1 && path[0] == node
    decreases StepsToEnd(node)
  {
    match DeepNext(node)
    case None => [node]
    case Some(next) =>
      assert StepsToEnd(next) < StepsToEnd(node) by { assert node != End; }
      [node] + DeepRun(next)
  }

  /** Every deep research run visits the five stages once each, in order. */
  lemma DeepRunIsThePipeline()
    ensures DeepRun(Start) == [Start, ClarifyAgent, ResearchBriefAgent, ParallelResearch, ReportAgent, End]
  {
  }

  datatype Workflow = SimpleWorkflow | DeepResearchWorkflow

  /** The choice `submitQuestion` makes: anything but "deep_research" gets the
      simple graph. */
  function SelectWorkflow(mode: string): (w: Workflow)
    ensures w == DeepResearchWorkflow <==> mode == "deep_research"
  {
    if mode == "deep_research" then DeepResearchWorkflow else SimpleWorkflow
  }

  // ---------------------------------------------------------------------
  // One researcher's tool loop (`executeResearchTask`).

  const MAX_ITERATIONS: nat := 10
  const TOOL_ERROR_PREFIX: string := "Tool execution error: "
  const TAVILY_NAME: string := "tavily_search"

  /** A value a tool returns: a string, or anything else with its JSON text. */
  datatype JsValue = JsString(s: string) | JsOther(json: string)

  datatype ToolOutcome = Returned(value: JsValue) | Threw(error: Thrown)

  datatype Tool = Tool(name: string, invoke: string -> ToolOutcome)

  /** `tools.find(t => t.name === name)`. */
  function FindTool(registry: seq<Tool>, name: string): (r: Option<Tool>)
    ensures r.Some? ==> r.value.name == name && r.value in registry
    ensures r.None? <==> forall k :: 0 <= k < |registry| ==> registry[k].name != name
    ensures r.Some? ==> exists k :: 0 <= k < |registry| && registry[k] == r.value
                                  && forall j :: 0 <= j < k ==> registry[j].name != name
  {
    if registry == [] then None
    else if registry[0].name == name then Some(registry[0])
    else
      var r := FindTool(registry[1..], name);
      assert forall k :: 1 <= k < |registry| ==> registry[k] == registry[1..][k - 1];
      r
  }

  /** The `content` of the tool message for an outcome. */
  function ToolOutputText(outcome: ToolOutcome): string {
    match outcome
    case Returned(JsString(s)) => s
    case Returned(JsOther(json)) => json
    case Threw(ErrorInstance(m)) => TOOL_ERROR_PREFIX + m
    case Threw(OtherThrown(r)) => TOOL_ERROR_PREFIX + r
  }

  /** A call that is answered: it has an id and a name, and the name is
      found in the lookup list. */
  predicate Dispatchable(call: ToolCall, registry: seq<Tool>) {
    call.id != "" && call.name != "" && FindTool(registry, call.name).Some?
  }

  function ToolResultFor(call: ToolCall, registry: seq<Tool>): Message
    requires Dispatchable(call, registry)
  {
    var tool := FindTool(registry, call.name).value;
    ToolMessage(Text(ToolOutputText(tool.invoke(call.args))), call.id, call.name)
  }

  /** The tool messages of one round, as the inner `for` loop collects them. */
  function ToolResults(calls: seq<ToolCall>, registry: seq<Tool>): (results: seq<Message>)
    ensures |results| <= |calls|
  {
    if calls == [] then []
    else
      var call := calls[|calls| - 1];
      ToolResults(calls[..|calls| - 1], registry)
      + (if Dispatchable(call, registry) then [ToolResultFor(call, registry)] else [])
  }

  /** The calls of a round that get an answer, in request order. */
  function DispatchableCalls(calls: seq<ToolCall>, registry: seq<Tool>): seq<ToolCall> {
    if calls == [] then []
    else
      var call := calls[|calls| - 1];
      DispatchableCalls(calls[..|calls| - 1], registry) + (if Dispatchable(call, registry) then [call] else [])
  }

  /** One tool message per answered call, in the order the calls were made,
      each carrying its call's id and name; skipped calls leave no trace. */
  lemma {:induction false} ToolResultsFollowCalls(calls: seq<ToolCall>, registry: seq<Tool>)
    ensures var d, results := DispatchableCalls(calls, registry), ToolResults(calls, registry);
      && |results| == |d|
      && forall k :: 0 <= k < |d| ==> Dispatchable(d[k], registry) && results[k] == ToolResultFor(d[k], registry)
  {
    if calls != [] {
      ToolResultsFollowCalls(calls[..|calls| - 1], registry);
    }
  }

  /** A tool that throws is reported to the model, not propagated. */
  lemma ThrowingToolIsReported(call: ToolCall, registry: seq<Tool>)
    requires Dispatchable(call, registry)
    requires FindTool(registry, call.name).value.invoke(call.args).Threw?
    ensures var m := ToolResultFor(call, registry);
      m.content.Text? && StartsWith(m.content.text, TOOL_ERROR_PREFIX)
  {
    var m := ToolResultFor(call, registry);
    assert m.content.text[..|TOOL_ERROR_PREFIX|] == TOOL_ERROR_PREFIX;
  }

  /** A researcher's conversation after the loop, the last response and the
      number of tool rounds run. */
  datatype ResearchRun = ResearchRun(conversation: seq<Message>, response: Message, rounds: nat)

  /** The `while` loop from a given state: while the response asks for tools
      and fewer than ten rounds have run, append the response and its tool
      results and ask the model again. */
  function Research(conversation: seq<Message>, response: Message, rounds: nat,
                    model: seq<Message> -> Message, registry: seq<Tool>): ResearchRun
    requires rounds <= MAX_ITERATIONS
    decreases MAX_ITERATIONS - rounds
  {
    var calls := ToolCallsOf(response);
    if |calls| > 0 && rounds < MAX_ITERATIONS then
      var next := conversation + [response] + ToolResults(calls, registry);
      Research(next, model(next), rounds + 1, model, registry)
    else ResearchRun(conversation, response, rounds)
  }

  /** At most ten rounds, hence at most eleven model calls, and a run that
      stops early stops at a response without tool calls. */
  lemma {:induction false} ResearchIsBounded(conversation: seq<Message>, response: Message, rounds: nat,
                                             model: seq<Message> -> Message, registry: seq<Tool>)
    requires rounds <= MAX_ITERATIONS
    ensures var run := Research(conversation, response, rounds, model, registry);
      && rounds <= run.rounds <= MAX_ITERATIONS
      && (run.rounds < MAX_ITERATIONS ==> ToolCallsOf(run.response) == [])
    decreases MAX_ITERATIONS - rounds
  {
    var calls := ToolCallsOf(response);
    if |calls| > 0 && rounds < MAX_ITERATIONS {
      var next := conversation + [response] + ToolResults(calls, registry);
      ResearchIsBounded(next, model(next), rounds + 1, model, registry);
    }
  }

  /** A model that always asks for tools is called exactly eleven times. */
  lemma {:induction false} ToolHungryModelRunsTenRounds(conversation: seq<Message>, response: Message, rounds: nat,
                                                       model: seq<Message> -> Message, registry: seq<Tool>)
    requires rounds <= MAX_ITERATIONS
    requires |ToolCallsOf(response)| > 0
    requires forall h :: |ToolCallsOf(model(h))| > 0
    ensures Research(conversation, response, rounds, model, registry).rounds == MAX_ITERATIONS
    decreases MAX_ITERATIONS - rounds
  {
    if rounds < MAX_ITERATIONS {
      var next := conversation + [response] + ToolResults(ToolCallsOf(response), registry);
      ToolHungryModelRunsTenRounds(next, model(next), rounds + 1, model, registry);
    }
  }

  /** The loop only appends: the conversation it starts from is a prefix of
      the one it ends with, and every round adds the response before its tool
      results. */
  lemma {:induction false} ResearchOnlyAppends(conversation: seq<Message>, response: Message, rounds: nat,
                                               model: seq<Message> -> Message, registry: seq<Tool>)
    requires rounds <= MAX_ITERATIONS
    ensures var run := Research(conversation, response, rounds, model, registry);
      |conversation| <= |run.conversation| && run.conversation[..|conversation|] == conversation
    ensures var run := Research(conversation, response, rounds, model, registry);
      run.rounds > rounds ==> |conversation| < |run.conversation| && run.conversation[|conversation|] == response
    decreases MAX_ITERATIONS - rounds
  {
    var calls := ToolCallsOf(response);
    if |calls| > 0 && rounds < MAX_ITERATIONS {
      var next := conversation + [response] + ToolResults(calls, registry);
      ResearchOnlyAppends(next, model(next), rounds + 1, model, registry);
      assert next[..|conversation|] == conversation;
    }
  }

  /** The fixed prose of a researcher's system message (not modelled). */
  datatype ResearcherPrompt = ResearcherPrompt(preamble: string, instructions: string)

  datatype ResearchTask = ResearchTask(id: string, question: string, tools: Option<seq<string>>,
                                       assignedTo: Option<int>, findings: Option<string>)

  /** `${task.tools?.join(", ")}`: "undefined" when the task names no tools. */
  function SuggestedTools(tools: Option<seq<string>>): string {
    if tools.Some? then JoinWith(tools.value, ", ") else "undefined"
  }

  /** The part of the researcher's system message that varies: the task's
      id, question and suggested tools, and the research brief. */
  function TaskBriefing(task: ResearchTask, researchBrief: string): string {
    "ID: " + task.id + "\nQuestion: " + task.question + "\nSuggested Tools: " + SuggestedTools(task.tools)
    + "\n\nResearch Context:\n" + researchBrief
  }

  /** What a researcher runs against: the model bound to all tools, the
      wxflows tools, the Tavily search, the shared system message, the
      researcher prose, and `JSON.stringify` for non-string content. */
  datatype ResearchEnv = ResearchEnv(
    model: seq<Message> -> Message,
    wxflowsTools: seq<Tool>,
    tavilySearch: string -> ToolOutcome,
    systemMessage: string,
    prompt: ResearcherPrompt,
    stringify: Content -> string)

  /** The list the loop looks tools up in, as written: the wxflows tools only,
      although the model is bound to these plus Tavily. */
  function LookupListAsWritten(env: ResearchEnv): seq<Tool> {
    env.wxflowsTools
  }

  /** The list the loop evidently means to look tools up in: every tool the
      model is bound to (`totalTools`). */
  function LookupList(env: ResearchEnv): (registry: seq<Tool>)
    ensures Tool(TAVILY_NAME, env.tavilySearch) in registry
  {
    env.wxflowsTools + [Tool(TAVILY_NAME, env.tavilySearch)]
  }

  /** A response whose tool calls, if any, all ask for `tavily_search`. */
  predicate OnlyAsksForTavily(m: Message) {
    forall c :: c in ToolCallsOf(m) ==> c.name == TAVILY_NAME
  }

  /** As written, no `tavily_search` call of a round is answered (unless a
      wxflows tool happens to share the name). */
  lemma {:induction false} TavilyCallsSkippedAsWritten(env: ResearchEnv, calls: seq<ToolCall>)
    requires forall c :: c in calls ==> c.name == TAVILY_NAME
    requires forall k :: 0 <= k < |env.wxflowsTools| ==> env.wxflowsTools[k].name != TAVILY_NAME
    ensures ToolResults(calls, LookupListAsWritten(env)) == []
  {
    if calls != [] {
      assert calls[|calls| - 1] in calls;
      TavilyCallsSkippedAsWritten(env, calls[..|calls| - 1]);
    }
  }

  /** With the lookup list corrected, every `tavily_search` call with an id
      is answered by Tavily, in order. */
  lemma {:induction false} TavilyCallsAnsweredWhenCorrected(env: ResearchEnv, calls: seq<ToolCall>)
    requires forall c :: c in calls ==> c.id != "" && c.name == TAVILY_NAME
    requires forall k :: 0 <= k < |env.wxflowsTools| ==> env.wxflowsTools[k].name != TAVILY_NAME
    ensures var results := ToolResults(calls, LookupList(env));
      && |results| == |calls|
      && forall k :: 0 <= k < |calls| ==>
           results[k] == ToolMessage(Text(ToolOutputText(env.tavilySearch(calls[k].args))), calls[k].id, TAVILY_NAME)
  {
    if calls != [] {
      var call, init := calls[|calls| - 1], calls[..|calls| - 1];
      assert call in calls;
      assert forall c :: c in init ==> c in calls;
      TavilyCallsAnsweredWhenCorrected(env, init);
      var registry, tavily := LookupList(env), Tool(TAVILY_NAME, env.tavilySearch);
      FindToolAfter(env.wxflowsTools, tavily);
      assert FindTool(registry, call.name) == Some(tavily);
      var earlier, m := ToolResults(init, registry), ToolResultFor(call, registry);
      assert m == ToolMessage(Text(ToolOutputText(env.tavilySearch(call.args))), call.id, TAVILY_NAME);
      assert ToolResults(calls, registry) == earlier + [m];
      forall k | 0 <= k < |calls|
        ensures (earlier + [m])[k] == ToolMessage(Text(ToolOutputText(env.tavilySearch(calls[k].args))), calls[k].id, TAVILY_NAME)
      {
        if k < |init| {
          assert calls[k] == init[k];
        }
      }
    }
  }

  /** As written, a researcher whose model only ever asks for `tavily_search`
      gets no tool message back: every round appends its response and
      nothing else, while the rounds still count towards the ten. */
  lemma {:induction false} TavilyOnlyRunGetsNoToolMessages(conversation: seq<Message>, response: Message,
                                                           rounds: nat, env: ResearchEnv)
    requires rounds <= MAX_ITERATIONS
    requires forall k :: 0 <= k < |env.wxflowsTools| ==> env.wxflowsTools[k].name != TAVILY_NAME
    requires OnlyAsksForTavily(response) && forall h :: OnlyAsksForTavily(env.model(h))
    ensures var run := Research(conversation, response, rounds, env.model, LookupListAsWritten(env));
      && |run.conversation| == |conversation| + (run.rounds - rounds)
      && forall k :: |conversation| <= k < |run.conversation| ==> !run.conversation[k].ToolMessage?
    decreases MAX_ITERATIONS - rounds
  {
    var calls := ToolCallsOf(response);
    if |calls| > 0 && rounds < MAX_ITERATIONS {
      TavilyCallsSkippedAsWritten(env, calls);
      var next := conversation + [response] + ToolResults(calls, LookupListAsWritten(env));
      assert next == conversation + [response];
      TavilyOnlyRunGetsNoToolMessages(next, env.model(next), rounds + 1, env);
      ResearchOnlyAppends(next, env.model(next), rounds + 1, env.model, LookupListAsWritten(env));
      var run := Research(next, env.model(next), rounds + 1, env.model, LookupListAsWritten(env));
      forall k | |conversation| <= k < |run.conversation|
        ensures !run.conversation[k].ToolMessage?
      {
        if k < |next| {
          assert run.conversation[k] == run.conversation[..|next|][k] == response;
        }
      }
    }
  }

  /** With the lookup list corrected, the same researcher's first round puts
      a tool message right after the response that asked for it. */
  lemma TavilyRunAnsweredWhenCorrected(conversation: seq<Message>, response: Message, rounds: nat, env: ResearchEnv)
    requires rounds < MAX_ITERATIONS
    requires forall k :: 0 <= k < |env.wxflowsTools| ==> env.wxflowsTools[k].name != TAVILY_NAME
    requires |ToolCallsOf(response)| > 0
    requires forall c :: c in ToolCallsOf(response) ==> c.id != "" && c.name == TAVILY_NAME
    ensures var run := Research(conversation, response, rounds, env.model, LookupList(env));
      && |conversation| + 1 < |run.conversation|
      && run.conversation[|conversation|] == response
      && run.conversation[|conversation| + 1].ToolMessage?
  {
    var calls, registry := ToolCallsOf(response), LookupList(env);
    TavilyCallsAnsweredWhenCorrected(env, calls);
    var results := ToolResults(calls, registry);
    var next := conversation + [response] + results;
    assert next[|conversation|] == response && next[|conversation| + 1] == results[0];
    ResearchOnlyAppends(next, env.model(next), rounds + 1, env.model, registry);
    var run := Research(next, env.model(next), rounds + 1, env.model, registry);
    var c := run.conversation;
    assert c[..|next|] == next;
    assert c[|conversation|] == c[..|next|][|conversation|];
    assert c[|conversation| + 1] == c[..|next|][|conversation| + 1];
  }

  lemma {:induction false} FindToolAfter(tools: seq<Tool>, tool: Tool)
    requires forall k :: 0 <= k < |tools| ==> tools[k].name != tool.name
    ensures FindTool(tools + [tool], tool.name) == Some(tool)
  {
    if tools != [] {
      assert (tools + [tool])[1..] == tools[1..] + [tool];
      FindToolAfter(tools[1..], tool);
    }
  }

  /** The conversation a researcher starts from: its system message, then
      the graph's messages. */
  function InitialConversation(task: ResearchTask, messages: seq<Message>, researchBrief: string,
                               env: ResearchEnv): seq<Message> {
    var text := env.systemMessage + env.prompt.preamble + TaskBriefing(task, researchBrief) + env.prompt.instructions;
    [SystemMessage(Text(text))] + messages
  }

  /** A researcher's run, looking tools up in `registry`. */
  function ResearchTaskRun(task: ResearchTask, messages: seq<Message>, researchBrief: string,
                           env: ResearchEnv, registry: seq<Tool>): ResearchRun {
    var start := InitialConversation(task, messages, researchBrief, env);
    Research(start, env.model(start), 0, env.model, registry)
  }

  /** `typeof content === "string" ? content : JSON.stringify(content)`. */
  function ContentString(c: Content, stringify: Content -> string): string {
    if c.Text? then c.text else stringify(c)
  }

  /** What `executeResearchTask` resolves to. */
  function ResearchFindings(task: ResearchTask, messages: seq<Message>, researchBrief: string,
                            env: ResearchEnv, registry: seq<Tool>): string {
    ContentString(ResearchTaskRun(task, messages, researchBrief, env, registry).response.content, env.stringify)
  }

  /** The inner `for` loop of one round. */
  method DispatchToolCalls(calls: seq<ToolCall>, registry: seq<Tool>) returns (results: seq<Message>)
    ensures results == ToolResults(calls, registry)
  {
    results := [];
    for k := 0 to |calls|
      invariant results == ToolResults(calls[..k], registry)
    {
      var call := calls[k];
      assert calls[..k + 1][..k] == calls[..k];
      if call.id == "" || call.name == "" {
        continue;
      }
      var tool := FindTool(registry, call.name);
      if tool.None? {
        continue;
      }
      var toolOutput := ToolOutputText(tool.value.invoke(call.args));
      results := results + [ToolMessage(Text(toolOutput), call.id, call.name)];
    }
    assert calls[..|calls|] == calls;
  }

  /** The body of `executeResearchTask` after the tools are set up: the
      findings, with the conversation it built and the number of tool rounds
      it ran (one model call more than that), looking tools up in `registry`. */
  method RunResearcher(task: ResearchTask, messages: seq<Message>, researchBrief: string, env: ResearchEnv,
                       registry: seq<Tool>)
    returns (findings: string, conversation: seq<Message>, rounds: nat)
    ensures var run := ResearchTaskRun(task, messages, researchBrief, env, registry);
      && findings == ResearchFindings(task, messages, researchBrief, env, registry)
      && conversation == run.conversation && rounds == run.rounds
  {
    conversation := InitialConversation(task, messages, researchBrief, env);
    var response := env.model(conversation);
    rounds := 0;
    while |ToolCallsOf(response)| > 0 && rounds < MAX_ITERATIONS
      invariant rounds <= MAX_ITERATIONS
      invariant Research(conversation, response, rounds, env.model, registry)
        == ResearchTaskRun(task, messages, researchBrief, env, registry)
      decreases MAX_ITERATIONS - rounds
    {
      conversation := conversation + [response];
      var toolResults := DispatchToolCalls(ToolCallsOf(response), registry);
      conversation := conversation + toolResults;
      response := env.model(conversation);
      rounds := rounds + 1;
    }
    findings := ContentString(response.content, env.stringify);
  }

  /** `executeResearchTask` as written: tools are looked up among the
      wxflows tools only. */
  method ExecuteResearchTask(task: ResearchTask, messages: seq<Message>, researchBrief: string, env: ResearchEnv)
    returns (findings: string, conversation: seq<Message>, rounds: nat)
    ensures var run := ResearchTaskRun(task, messages, researchBrief, env, LookupListAsWritten(env));
      && findings == ResearchFindings(task, messages, researchBrief, env, LookupListAsWritten(env))
      && conversation == run.conversation && rounds == run.rounds
  {
    findings, conversation, rounds := RunResearcher(task, messages, researchBrief, env, LookupListAsWritten(env));
  }

  /** `executeResearchTask` with the lookup list corrected to every tool the
      model is bound to. */
  method ExecuteResearchTaskCorrected(task: ResearchTask, messages: seq<Message>, researchBrief: string,
                                     env: ResearchEnv)
    returns (findings: string, conversation: seq<Message>, rounds: nat)
    ensures var run := ResearchTaskRun(task, messages, researchBrief, env, LookupList(env));
      && findings == ResearchFindings(task, messages, researchBrief, env, LookupList(env))
      && conversation == run.conversation && rounds == run.rounds
  {
    findings, conversation, rounds := RunResearcher(task, messages, researchBrief, env, LookupList(env));
  }

  // ---------------------------------------------------------------------
  // The research plan (`research_brief_agent`).

  const PLAN_START: string := "RESEARCH_PLAN_START"
  const PLAN_END: string := "RESEARCH_PLAN_END"

  /** The capture group of `/RESEARCH_PLAN_START\s*([\s\S]*?)\s*RESEARCH_PLAN_END/`:
      the text between the first start marker and the first end marker after
      it, without the whitespace around it. */
  function PlanBlock(brief: string): Option<string> {
    match FindFrom(brief, PLAN_START, 0)
    case None => None
    case Some(p) =>
      match FindFrom(brief, PLAN_END, p + |PLAN_START|)
      case None => None
      case Some(e) => Some(Trim(brief[p + |PLAN_START|..e]))
  }

  /** A plan block as the planner is asked to write it is read back: the
      JSON between the markers, trimmed, whatever comes before (without a
      start marker) or after. */
  lemma PlanBlockReadsBack(before: string, json: string, after: string)
    requires forall q: nat :: q < |before| ==> !OccursAt(before + PLAN_START, PLAN_START, q)
    requires forall q: nat :: q < |json| ==> !OccursAt(json + PLAN_END, PLAN_END, q)
    ensures PlanBlock(before + PLAN_START + json + PLAN_END + after) == Some(Trim(json))
  {
    var head, tail := before + PLAN_START, json + PLAN_END;
    var s := head + (tail + after);
    Regroup(before, PLAN_START, json, PLAN_END, after);
    StartMarkerFirstAt(head, tail + after, before);
    EndMarkerFirstAt(head, tail, after, json);
    MiddleSlice(head, json, PLAN_END, after);
    PlanBlockBetween(s, |before|, |head| + |json|, json);
  }

  lemma Regroup(a: string, b: string, c: string, d: string, e: string)
    ensures a + b + c + d + e == (a + b) + ((c + d) + e)
  {
  }

  lemma MiddleSlice(x: string, y: string, d: string, z: string)
    ensures (x + ((y + d) + z))[|x|..|x| + |y|] == y
  {
  }

  lemma StartMarkerFirstAt(head: string, rest: string, before: string)
    requires head == before + PLAN_START
    requires forall q: nat :: q < |before| ==> !OccursAt(head, PLAN_START, q)
    ensures OccursAt(head + rest, PLAN_START, |before|)
    ensures forall q: nat :: q < |before| ==> !OccursAt(head + rest, PLAN_START, q)
  {
    forall q: nat | q < |before|
      ensures !OccursAt(head + rest, PLAN_START, q)
    {
      OccursInPrefix(head, rest, PLAN_START, q);
    }
    OccursInPrefix(head, rest, PLAN_START, |before|);
    assert head[|before|..] == PLAN_START;
  }

  lemma EndMarkerFirstAt(head: string, tail: string, after: string, json: string)
    requires tail == json + PLAN_END
    requires forall q: nat :: q < |json| ==> !OccursAt(tail, PLAN_END, q)
    ensures OccursAt(head + (tail + after), PLAN_END, |head| + |json|)
    ensures forall q: nat :: |head| <= q < |head| + |json| ==> !OccursAt(head + (tail + after), PLAN_END, q)
  {
    forall q: nat | |head| <= q < |head| + |json|
      ensures !OccursAt(head + (tail + after), PLAN_END, q)
    {
      OccursShifted(head, tail + after, PLAN_END, q - |head|);
      OccursInPrefix(tail, after, PLAN_END, q - |head|);
    }
    OccursShifted(head, tail + after, PLAN_END, |json|);
    OccursInPrefix(tail, after, PLAN_END, |json|);
    assert tail[|json|..] == PLAN_END;
  }

  /** The capture group when the first start marker is at `p` and the first
      end marker after it at `e`. */
  lemma PlanBlockBetween(s: string, p: nat, e: nat, inner: string)
    requires OccursAt(s, PLAN_START, p) && forall q: nat :: q < p ==> !OccursAt(s, PLAN_START, q)
    requires OccursAt(s, PLAN_END, e) && forall q: nat :: p + |PLAN_START| <= q < e ==> !OccursAt(s, PLAN_END, q)
    requires p + |PLAN_START| <= e && s[p + |PLAN_START|..e] == inner
    ensures PlanBlock(s) == Some(Trim(inner))
  {
    FindFromFirst(s, PLAN_START, 0, p);
    FindFromFirst(s, PLAN_END, p + |PLAN_START|, e);
  }

  lemma FindFromFirst(s: string, pattern: string, from: nat, v: nat)
    requires |pattern| > 0 && from <= v && OccursAt(s, pattern, v)
    requires forall q: nat :: from <= q < v ==> !OccursAt(s, pattern, q)
    ensures FindFrom(s, pattern, from) == Some(v)
    decreases v - from
  {
    if from < v {
      FindFromFirst(s, pattern, from + 1, v);
    }
  }

  lemma OccursInPrefix(x: string, y: string, pattern: string, q: nat)
    requires q + |pattern| <= |x|
    ensures OccursAt(x + y, pattern, q) <==> OccursAt(x, pattern, q)
  {
    assert (x + y)[q..q + |pattern|] == x[q..q + |pattern|];
  }

  lemma OccursShifted(x: string, y: string, pattern: string, r: nat)
    ensures OccursAt(x + y, pattern, |x| + r) <==> OccursAt(y, pattern, r)
  {
    if r + |pattern| <= |y| {
      assert (x + y)[|x| + r..|x| + r + |pattern|] == y[r..r + |pattern|];
    }
  }

  /** What `JSON.parse` makes of the captured text, as far as `.tasks` goes:
      a syntax error, `null` (whose `.tasks` throws), or a value whose `tasks`
      property is missing, a list of tasks, or something else. */
  datatype TasksField = TasksMissing | TaskList(tasks: seq<ResearchTask>) | TasksOther
  datatype PlanJson = NotJson | JsonNull | JsonValue(tasks: TasksField)

  /** `researchTasks` after the brief node: a task array, or a non-array
      (`undefined` or another value) on which the next node throws. */
  datatype PlanTasks = TaskArray(tasks: seq<ResearchTask>) | NotAnArray

  const FALLBACK_TASK: ResearchTask :=
    ResearchTask("task_1", "Comprehensive research on the topic", Some([]), None, None)

  /** The `try`/`catch` around the plan: no block leaves the list empty, an
      exception gives the single fallback task, otherwise `planJson.tasks`. */
  function ExtractPlan(brief: string, parse: string -> PlanJson): (r: PlanTasks)
    ensures PlanBlock(brief).None? ==> r == TaskArray([])
    ensures PlanBlock(brief).Some? && parse(PlanBlock(brief).value) in {NotJson, JsonNull} ==> r == TaskArray([FALLBACK_TASK])
    ensures PlanBlock(brief).Some? && parse(PlanBlock(brief).value).JsonValue? ==>
      (r.TaskArray? <==> parse(PlanBlock(brief).value).tasks.TaskList?)
    ensures r.TaskArray? && PlanBlock(brief).Some? && parse(PlanBlock(brief).value).JsonValue? ==>
      r.tasks == parse(PlanBlock(brief).value).tasks.tasks
  {
    match PlanBlock(brief)
    case None => TaskArray([])
    case Some(block) =>
      match parse(block)
      case NotJson => TaskArray([FALLBACK_TASK])
      case JsonNull => TaskArray([FALLBACK_TASK])
      case JsonValue(TaskList(tasks)) => TaskArray(tasks)
      case JsonValue(_) => NotAnArray
  }

  /** A brief without a start marker yields no tasks and no fallback. */
  lemma NoMarkerNoTasks(brief: string, parse: string -> PlanJson)
    requires forall q :: !OccursAt(brief, PLAN_START, q)
    ensures ExtractPlan(brief, parse) == TaskArray([])
  {
  }

  // ---------------------------------------------------------------------
  // The fan-out (`parallel_research`) and the report's findings text.

  /** `tasks.map(task => ({...task, findings}))`, run one after another. */
  function ResearchAll(tasks: seq<ResearchTask>, messages: seq<Message>, researchBrief: string,
                       env: ResearchEnv, registry: seq<Tool>): (done: seq<ResearchTask>)
    ensures |done| == |tasks|
    ensures forall k :: 0 <= k < |tasks| ==>
      done[k] == tasks[k].(findings := Some(ResearchFindings(tasks[k], messages, researchBrief, env, registry)))
  {
    if tasks == [] then []
    else
      var last := tasks[|tasks| - 1];
      ResearchAll(tasks[..|tasks| - 1], messages, researchBrief, env, registry)
      + [last.(findings := Some(ResearchFindings(last, messages, researchBrief, env, registry)))]
  }

  /** The `parallel_research` node: every task gets its findings, in order;
      on a non-array task list the node throws (`None`). The source's
      researchers look tools up in `LookupListAsWritten(env)`; the corrected
      ones in `LookupList(env)`. */
  function ParallelResearchNode(state: PlanTasks, messages: seq<Message>, researchBrief: string,
                                env: ResearchEnv, registry: seq<Tool>): (r: Option<seq<ResearchTask>>)
    ensures r.Some? <==> state.TaskArray?
    ensures r.Some? ==> |r.value| == |state.tasks|
    ensures r.Some? ==> forall k :: 0 <= k < |state.tasks| ==>
      (&& r.value[k].id == state.tasks[k].id
       && r.value[k].question == state.tasks[k].question && r.value[k].tools == state.tasks[k].tools
       && r.value[k].assignedTo == state.tasks[k].assignedTo && r.value[k].findings.Some?)
  {
    if state.TaskArray? then Some(ResearchAll(state.tasks, messages, researchBrief, env, registry)) else None
  }

  const NO_FINDINGS: string := "No findings recorded"
  const FINDINGS_SEPARATOR: string := "\n\n---\n\n"

  /** One task's entry in the report prompt. */
  function RenderTask(t: ResearchTask): (entry: string)
    ensures StartsWith(entry, "## " + t.question + "\n\n")
  {
    var body := if t.findings.Some? && t.findings.value != "" then t.findings.value else NO_FINDINGS;
    var head := "## " + t.question + "\n\n";
    assert (head + body)[..|head|] == head;
    head + body
  }

  /** The entry ends with the findings, or with the placeholder exactly when
      the findings are missing or empty. */
  lemma RenderTaskEndsWithFindings(t: ResearchTask)
    ensures var entry, head := RenderTask(t), "## " + t.question + "\n\n";
      entry[|head|..] == if t.findings.Some? && t.findings.value != "" then t.findings.value else NO_FINDINGS
  {
  }

  function RenderTasks(tasks: seq<ResearchTask>): (entries: seq<string>)
    ensures |entries| == |tasks| && forall k :: 0 <= k < |tasks| ==> entries[k] == RenderTask(tasks[k])
  {
    if tasks == [] then [] else RenderTasks(tasks[..|tasks| - 1]) + [RenderTask(tasks[|tasks| - 1])]
  }

  /** `allFindings` in the report agent. */
  function ReportFindings(tasks: seq<ResearchTask>): string {
    JoinWith(RenderTasks(tasks), FINDINGS_SEPARATOR)
  }

  /** The findings text lists the tasks in order: a task added at the end
      adds one separator and its entry at the end. */
  lemma ReportFindingsAppend(tasks: seq<ResearchTask>, t: ResearchTask)
    requires |tasks| > 0
    ensures ReportFindings(tasks + [t]) == ReportFindings(tasks) + FINDINGS_SEPARATOR + RenderTask(t)
  {
    assert (tasks + [t])[..|tasks|] == tasks;
    assert RenderTasks(tasks + [t]) == RenderTasks(tasks) + [RenderTask(t)];
    JoinAppend(RenderTasks(tasks), RenderTask(t), FINDINGS_SEPARATOR);
  }

  /** The report covers the researched tasks: after `parallel_research` no
      entry falls back to the placeholder unless its researcher found "". */
  lemma ResearchedEntriesCarryFindings(tasks: seq<ResearchTask>, messages: seq<Message>, researchBrief: string,
                                       env: ResearchEnv, registry: seq<Tool>, k: nat)
    requires k < |tasks|
    requires ResearchFindings(tasks[k], messages, researchBrief, env, registry) != ""
    ensures var done := ResearchAll(tasks, messages, researchBrief, env, registry);
      RenderTask(done[k]) == "## " + tasks[k].question + "\n\n" + ResearchFindings(tasks[k], messages, researchBrief, env, registry)
  {
  }
}
