/** The ReAct agent: a bounded reason/act loop.  Each iteration asks the
    model for a reply; a reply without tool calls is the answer, otherwise
    the reply and one result per requested call are appended to the history
    and the loop goes on.  Tools run through `tool_executor`, which never
    raises: unknown names and tool exceptions become error strings. */
module ReactAgent {
  import opened Strings
  import opened Chat

  /** The names in the tool table of `tool_executor`. */
  const Registry: set<string> := {"get_weather", "search_web"}

  const SystemPrompt: string :=
    "You are a helpful AI agent that can use tools to complete tasks.\n\n"
    + "For each step:\n"
    + "1. Think about what you need to do next\n"
    + "2. Call a tool if needed, or provide your final answer\n"
    + "3. Observe the result and continue\n\n"
    + "When you have enough information to answer the user's question, respond directly without calling more tools.\n"
    + "Be concise and helpful."

  /** `react_agent`'s default iteration limit. */
  const DefaultMaxIterations: int := 10

  /** What a registered tool does with the arguments it is given: return a
      text (a dictionary result already rendered as JSON), or raise. */
  datatype ToolOutcome = Produced(text: string) | Threw(message: string)

  /** The tools, as a function of the history at the time of the call and the
      call itself. */
  type Tools = (seq<Message>, ToolCall) -> ToolOutcome

  /** `tool_executor(name, arguments)`, where `outcome` is what the tool
      registered under that name would do with these arguments. */
  function ToolExecutor(call: ToolCall, outcome: ToolOutcome): string
  {
    if call.name !in Registry then "Error: Unknown tool '" + call.name + "'"
    else match outcome
      case Produced(t) => t
      case Threw(m) => "Error executing " + call.name + ": " + m
  }

  /** An unknown tool name yields the fixed error whatever the tool would have
      done, so nothing is invoked; a registered tool's text is returned as is,
      and its exception becomes an error string naming the tool. */
  lemma ToolExecutorSpec(call: ToolCall, outcome: ToolOutcome, other: ToolOutcome)
    ensures call.name !in Registry ==>
              ToolExecutor(call, outcome) == ToolExecutor(call, other) == "Error: Unknown tool '" + call.name + "'"
    ensures call.name in Registry && outcome.Produced? ==> ToolExecutor(call, outcome) == outcome.text
    ensures call.name in Registry && outcome.Threw? ==>
              ToolExecutor(call, outcome) == "Error executing " + call.name + ": " + outcome.message
  {
  }

  function NotCompletedMessage(maxIterations: int): string
  {
    "Error: Agent did not complete task within " + IntToString(maxIterations) + " iterations"
  }

  /** The tool entries appended for `calls`, each tool seeing the history
      with the results of the earlier calls of the same reply. */
  function Observe(h: seq<Message>, calls: seq<ToolCall>, tools: Tools): seq<Message>
    decreases |calls|
  {
    if calls == [] then []
    else
      var entry := Tool(ToolExecutor(calls[0], tools(h, calls[0])), calls[0].id);
      [entry] + Observe(h + [entry], calls[1..], tools)
  }

  lemma {:induction false} ObserveAnswers(h: seq<Message>, calls: seq<ToolCall>, tools: Tools)
    ensures AnswersCalls(Observe(h, calls, tools), calls)
    decreases |calls|
  {
    if calls != [] {
      var entry := Tool(ToolExecutor(calls[0], tools(h, calls[0])), calls[0].id);
      ObserveAnswers(h + [entry], calls[1..], tools);
    }
  }

  /** The `j`-th tool entry for `calls` is the executor's text for call `j`,
      given the history with the entries before it. */
  lemma {:induction false} ObserveAt(h: seq<Message>, calls: seq<ToolCall>, tools: Tools, j: nat)
    requires j < |calls|
    ensures var o := Observe(h, calls, tools);
            |o| == |calls| && o[j] == Tool(ToolExecutor(calls[j], tools(h + o[..j], calls[j])), calls[j].id)
    decreases |calls|
  {
    ObserveAnswers(h, calls, tools);
    var entry := Tool(ToolExecutor(calls[0], tools(h, calls[0])), calls[0].id);
    var o := Observe(h, calls, tools);
    if j == 0 {
      assert h + o[..0] == h;
    } else {
      var rest := Observe(h + [entry], calls[1..], tools);
      ObserveAt(h + [entry], calls[1..], tools, j - 1);
      assert o == [entry] + rest;
      assert h + o[..j] == (h + [entry]) + rest[..j - 1];
      assert calls[1..][j - 1] == calls[j];
    }
  }

  /** How a run ended: the returned text, the final history, the number of
      model calls, and whether a tool-free reply ended it. */
  datatype Outcome = Outcome(answer: string, history: seq<Message>, modelCalls: nat, completed: bool)

  /** The loop from history `h` with `left` iterations to go. */
  function ReactFrom(h: seq<Message>, left: nat, maxIterations: int, model: Model, tools: Tools): Outcome
    decreases left
  {
    if left == 0 then Outcome(NotCompletedMessage(maxIterations), h, 0, false)
    else
      var reply := model(h);
      if reply.toolCalls == [] then Outcome(reply.content, h, 1, true)
      else
        var h1 := h + [Assistant(reply.content, reply.toolCalls)];
        var rest := ReactFrom(h1 + Observe(h1, reply.toolCalls, tools), left - 1, maxIterations, model, tools);
        rest.(modelCalls := rest.modelCalls + 1)
  }

  /** `range(max_iterations)` is empty for a non-positive limit. */
  function Iterations(maxIterations: int): nat
  {
    if maxIterations > 0 then maxIterations else 0
  }

  function InitialHistory(task: string): seq<Message>
  {
    [System(SystemPrompt), User(task)]
  }

  /** `react_agent(task, max_iterations)`. */
  function React(task: string, maxIterations: int, model: Model, tools: Tools): Outcome
  {
    ReactFrom(InitialHistory(task), Iterations(maxIterations), maxIterations, model, tools)
  }

  // ===========================================================================
  // Properties of the loop
  // ===========================================================================

  /** From history `h`: the history only grows. */
  lemma {:induction false} ReactFromPrefix(h: seq<Message>, left: nat, maxIterations: int, model: Model, tools: Tools)
    ensures var o := ReactFrom(h, left, maxIterations, model, tools);
            |h| <= |o.history| && o.history[..|h|] == h
    decreases left
  {
    if left > 0 && model(h).toolCalls != [] {
      var reply := model(h);
      var h1 := h + [Assistant(reply.content, reply.toolCalls)];
      var h2 := h1 + Observe(h1, reply.toolCalls, tools);
      ReactFromPrefix(h2, left - 1, maxIterations, model, tools);
      assert h2[..|h|] == h;
    }
  }

  /** From history `h`: the history grows by whole blocks. */
  lemma {:induction false} ReactFromHistory(h: seq<Message>, left: nat, maxIterations: int, model: Model, tools: Tools)
    ensures var o := ReactFrom(h, left, maxIterations, model, tools);
            |h| <= |o.history| && Blocks(o.history[|h|..])
    decreases left
  {
    ReactFromPrefix(h, left, maxIterations, model, tools);
    if left > 0 && model(h).toolCalls != [] {
      var reply := model(h);
      var h1 := h + [Assistant(reply.content, reply.toolCalls)];
      var obs := Observe(h1, reply.toolCalls, tools);
      var h2 := h1 + obs;
      var o2 := ReactFrom(h2, left - 1, maxIterations, model, tools);
      ReactFromHistory(h2, left - 1, maxIterations, model, tools);
      ReactFromPrefix(h2, left - 1, maxIterations, model, tools);
      ObserveAnswers(h1, reply.toolCalls, tools);
      BlocksExtend(o2.history, h, reply.content, reply.toolCalls, obs);
    }
  }

  /** From history `h`: every assistant entry the loop appends is the model's
      reply to the history before it. */
  lemma {:induction false} ReactFromReplies(h: seq<Message>, left: nat, maxIterations: int, model: Model, tools: Tools)
    ensures var o := ReactFrom(h, left, maxIterations, model, tools);
            |h| <= |o.history|
            && forall p :: |h| <= p < |o.history| && o.history[p].Assistant? ==>
                 o.history[p] == Assistant(model(o.history[..p]).content, model(o.history[..p]).toolCalls)
    decreases left
  {
    ReactFromPrefix(h, left, maxIterations, model, tools);
    if left > 0 && model(h).toolCalls != [] {
      var reply := model(h);
      var h1 := h + [Assistant(reply.content, reply.toolCalls)];
      var obs := Observe(h1, reply.toolCalls, tools);
      var h2 := h1 + obs;
      var full := ReactFrom(h2, left - 1, maxIterations, model, tools).history;
      ReactFromReplies(h2, left - 1, maxIterations, model, tools);
      ReactFromPrefix(h2, left - 1, maxIterations, model, tools);
      ObserveAnswers(h1, reply.toolCalls, tools);
      assert forall p :: |h1| <= p < |h2| ==> full[p].Tool? by {
        forall p | |h1| <= p < |h2| ensures full[p].Tool? {
          assert full[p] == h2[p] == obs[p - |h1|];
        }
      }
      forall p | |h| <= p < |full| && full[p].Assistant?
        ensures full[p] == Assistant(model(full[..p]).content, model(full[..p]).toolCalls)
      {
        if p == |h| {
          assert full[..p] == h by {
            assert full[..|h2|] == h2;
          }
          assert full[p] == h2[p];
        } else if p < |h2| {
          assert false;
        }
      }
    }
  }

  /** The `j`-th call of an assistant entry of `hist` is answered by the
      entry `j` places after it, holding the executor's text for that call
      given the history before it. */
  ghost predicate ToolResultsFrom(hist: seq<Message>, lo: nat, tools: Tools)
  {
    forall q, j :: lo <= q < |hist| && hist[q].Assistant? && 0 <= j < |hist[q].toolCalls| && q + 1 + j < |hist| ==>
      hist[q + 1 + j] == Tool(ToolExecutor(hist[q].toolCalls[j], tools(hist[..q + 1 + j], hist[q].toolCalls[j])),
                              hist[q].toolCalls[j].id)
  }

  /** From history `h`: every tool entry the loop appends holds the executor's
      text for the call it answers, run on the history before it. */
  lemma {:induction false} ReactFromToolResults(h: seq<Message>, left: nat, maxIterations: int, model: Model,
                                                tools: Tools)
    ensures ToolResultsFrom(ReactFrom(h, left, maxIterations, model, tools).history, |h|, tools)
    decreases left
  {
    if left > 0 && model(h).toolCalls != [] {
      var reply := model(h);
      var h1 := h + [Assistant(reply.content, reply.toolCalls)];
      var h2 := h1 + Observe(h1, reply.toolCalls, tools);
      var full := ReactFrom(h2, left - 1, maxIterations, model, tools).history;
      ReactFromToolResults(h2, left - 1, maxIterations, model, tools);
      ReactFromPrefix(h2, left - 1, maxIterations, model, tools);
      ToolResultsExtend(h, reply.content, reply.toolCalls, tools, full);
    }
  }

  /** A history that continues `h` with one block and then a history whose
      tool entries hold their executor's texts holds them from `h` on. */
  lemma ToolResultsExtend(h: seq<Message>, content: string, calls: seq<ToolCall>, tools: Tools, full: seq<Message>)
    requires var h1 := h + [Assistant(content, calls)];
             var h2 := h1 + Observe(h1, calls, tools);
             |h2| <= |full| && full[..|h2|] == h2 && ToolResultsFrom(full, |h2|, tools)
    ensures ToolResultsFrom(full, |h|, tools)
  {
    var h1 := h + [Assistant(content, calls)];
    var obs := Observe(h1, calls, tools);
    var h2 := h1 + obs;
    ObserveAnswers(h1, calls, tools);
    assert |obs| == |calls|;
    assert forall p :: |h1| <= p < |h2| ==> full[p].Tool? by {
      forall p | |h1| <= p < |h2| ensures full[p].Tool? {
        assert full[p] == h2[p] == obs[p - |h1|];
      }
    }
    forall q, j | |h| <= q < |full| && full[q].Assistant? && 0 <= j < |full[q].toolCalls| && q + 1 + j < |full|
      ensures full[q + 1 + j] == Tool(ToolExecutor(full[q].toolCalls[j], tools(full[..q + 1 + j], full[q].toolCalls[j])),
                                      full[q].toolCalls[j].id)
    {
      if q == |h| {
        assert full[q] == h2[q];
        BlockToolResult(h1, calls, tools, full, j);
      } else if q < |h2| {
        assert false;
      }
    }
  }

  /** In a history that continues `h1` with the tool entries for `calls`,
      entry `j` of them holds the executor's text for call `j`, run on the
      history before it. */
  lemma BlockToolResult(h1: seq<Message>, calls: seq<ToolCall>, tools: Tools, full: seq<Message>, j: nat)
    requires j < |calls|
    requires |h1| + |calls| <= |full| && full[..|h1| + |calls|] == h1 + Observe(h1, calls, tools)
    ensures full[|h1| + j] == Tool(ToolExecutor(calls[j], tools(full[..|h1| + j], calls[j])), calls[j].id)
  {
    var obs := Observe(h1, calls, tools);
    ObserveAt(h1, calls, tools, j);
    var h2 := h1 + obs;
    assert full[|h1| + j] == h2[|h1| + j] == obs[j];
    assert full[..|h1| + j] == h2[..|h1| + j] == h1 + obs[..j];
  }

  /** From history `h`: at most `left` model calls are made; a completed run
      returns the content of the reply to the final history, which requests
      no tool; an uncompleted one used every iteration and returns the fixed
      message. */
  lemma {:induction false} ReactFromAnswer(h: seq<Message>, left: nat, maxIterations: int, model: Model, tools: Tools)
    ensures var o := ReactFrom(h, left, maxIterations, model, tools);
            o.modelCalls <= left
            && (o.completed ==> o.answer == model(o.history).content && model(o.history).toolCalls == []
                                && o.modelCalls >= 1)
            && (!o.completed ==> o.answer == NotCompletedMessage(maxIterations) && o.modelCalls == left)
    decreases left
  {
    if left > 0 && model(h).toolCalls != [] {
      var reply := model(h);
      var h1 := h + [Assistant(reply.content, reply.toolCalls)];
      ReactFromAnswer(h1 + Observe(h1, reply.toolCalls, tools), left - 1, maxIterations, model, tools);
    }
  }

  /** From history `h`: the loop made one model call per assistant entry it
      appended, plus one for the tool-free reply when it completed. */
  lemma {:induction false} ReactFromCount(h: seq<Message>, left: nat, maxIterations: int, model: Model, tools: Tools)
    ensures var o := ReactFrom(h, left, maxIterations, model, tools);
            |h| <= |o.history|
            && o.modelCalls == AssistantCount(o.history[|h|..]) + (if o.completed then 1 else 0)
    decreases left
  {
    ReactFromPrefix(h, left, maxIterations, model, tools);
    if left > 0 && model(h).toolCalls != [] {
      var reply := model(h);
      var h1 := h + [Assistant(reply.content, reply.toolCalls)];
      var obs := Observe(h1, reply.toolCalls, tools);
      var h2 := h1 + obs;
      ReactFromCount(h2, left - 1, maxIterations, model, tools);
      ReactFromPrefix(h2, left - 1, maxIterations, model, tools);
      ObserveAnswers(h1, reply.toolCalls, tools);
      BlockAssistantCount(h, reply.content, reply.toolCalls, obs,
                          ReactFrom(h2, left - 1, maxIterations, model, tools).history);
    } else {
      assert ReactFrom(h, left, maxIterations, model, tools).history[|h|..] == [];
    }
  }

  /** `react_agent`: the history starts with exactly the system prompt and the
      task and continues in whole blocks (each assistant entry that requests
      tools followed by one result per call, with that call's id); at most
      `max_iterations` model calls are made; the answer is the content of
      the first reply that requests no tool, or else the fixed "did not
      complete" message after every iteration was used. */
  lemma ReactSpec(task: string, maxIterations: int, model: Model, tools: Tools)
    ensures var o := React(task, maxIterations, model, tools);
            |o.history| >= 2 && o.history[..2] == [System(SystemPrompt), User(task)]
            && Blocks(o.history[2..])
            && (forall p :: 2 <= p < |o.history| && o.history[p].Assistant? ==>
                  o.history[p] == Assistant(model(o.history[..p]).content, model(o.history[..p]).toolCalls))
            && ToolResultsFrom(o.history, 2, tools)
            && o.modelCalls == AssistantCount(o.history[2..]) + (if o.completed then 1 else 0)
            && o.modelCalls <= Iterations(maxIterations)
            && (o.completed ==> o.answer == model(o.history).content && model(o.history).toolCalls == [])
            && (!o.completed ==> o.answer == NotCompletedMessage(maxIterations)
                                 && o.modelCalls == Iterations(maxIterations))
  {
    ReactFromPrefix(InitialHistory(task), Iterations(maxIterations), maxIterations, model, tools);
    ReactFromHistory(InitialHistory(task), Iterations(maxIterations), maxIterations, model, tools);
    ReactFromReplies(InitialHistory(task), Iterations(maxIterations), maxIterations, model, tools);
    ReactFromToolResults(InitialHistory(task), Iterations(maxIterations), maxIterations, model, tools);
    ReactFromAnswer(InitialHistory(task), Iterations(maxIterations), maxIterations, model, tools);
    ReactFromCount(InitialHistory(task), Iterations(maxIterations), maxIterations, model, tools);
  }

  /** A model that always requests a tool never completes: every iteration is
      used and the run returns the "did not complete" message. */
  lemma {:induction false} AlwaysToolsFrom(h: seq<Message>, left: nat, maxIterations: int, model: Model, tools: Tools)
    requires forall g :: model(g).toolCalls != []
    ensures !ReactFrom(h, left, maxIterations, model, tools).completed
    decreases left
  {
    if left > 0 {
      var reply := model(h);
      var h1 := h + [Assistant(reply.content, reply.toolCalls)];
      AlwaysToolsFrom(h1 + Observe(h1, reply.toolCalls, tools), left - 1, maxIterations, model, tools);
    }
  }

  /** With the default limit of ten and a model that always asks for a tool,
      the run makes ten model calls and returns the "did not complete"
      message naming ten iterations, rather than failing. */
  lemma AlwaysToolsExhausts(task: string, model: Model, tools: Tools)
    requires forall g :: model(g).toolCalls != []
    ensures var o := React(task, DefaultMaxIterations, model, tools);
            !o.completed && o.modelCalls == 10
            && o.answer == "Error: Agent did not complete task within " + "10" + " iterations"
  {
    AlwaysToolsFrom(InitialHistory(task), 10, 10, model, tools);
    ReactSpec(task, 10, model, tools);
    TenIterationsMessage();
  }

  lemma TenIterationsMessage()
    ensures NotCompletedMessage(10) == "Error: Agent did not complete task within " + "10" + " iterations"
  {
    assert NatToString(10) == "10" by {
      assert NatToString(1) == "1";
    }
  }

  // ===========================================================================
  // The loop itself
  // ===========================================================================

  lemma ObserveStep(h: seq<Message>, calls: seq<ToolCall>, j: nat, tools: Tools)
    requires j < |calls|
    ensures var entry := Tool(ToolExecutor(calls[j], tools(h, calls[j])), calls[j].id);
            h + Observe(h, calls[j..], tools) == (h + [entry]) + Observe(h + [entry], calls[j + 1..], tools)
  {
    assert calls[j..][1..] == calls[j + 1..];
  }

  lemma ReactFromStep(h: seq<Message>, left: nat, maxIterations: int, model: Model, tools: Tools)
    requires left > 0 && model(h).toolCalls != []
    ensures var h1 := h + [Assistant(model(h).content, model(h).toolCalls)];
            ReactFrom(h, left, maxIterations, model, tools).answer
            == ReactFrom(h1 + Observe(h1, model(h).toolCalls, tools), left - 1, maxIterations, model, tools).answer
  {
  }


  /** The inner loop of `react_agent`: each call of a reply is dispatched and
      its result appended to the history, in order. */
  method RunCalls(h1: seq<Message>, calls: seq<ToolCall>, tools: Tools) returns (messages: seq<Message>)
    ensures messages == h1 + Observe(h1, calls, tools)
  {
    messages := h1;
    var j := 0;
    while j < |calls|
      invariant 0 <= j <= |calls|
      invariant messages + Observe(messages, calls[j..], tools) == h1 + Observe(h1, calls, tools)
    {
      var call := calls[j];
      var result := ToolExecutor(call, tools(messages, call));
      ObserveStep(messages, calls, j, tools);
      messages := messages + [Tool(result, call.id)];
      j := j + 1;
    }
    assert calls[j..] == [];
  }

  /** `react_agent`: the iteration loop, appending the assistant entry and
      then one tool entry per call to the history. */
  method RunReactAgent(task: string, maxIterations: int, model: Model, tools: Tools)
    returns (answer: string)
    ensures answer == React(task, maxIterations, model, tools).answer
  {
    var messages := [System(SystemPrompt), User(task)];
    var n := Iterations(maxIterations);
    ghost var goal := ReactFrom(messages, n, maxIterations, model, tools).answer;
    assert goal == React(task, maxIterations, model, tools).answer;
    var iteration := 0;
    while iteration < n
      invariant 0 <= iteration <= n
      invariant ReactFrom(messages, n - iteration, maxIterations, model, tools).answer == goal
    {
      ghost var h := messages;
      var reply := model(messages);
      if reply.toolCalls == [] {
        return reply.content;
      }
      messages := messages + [Assistant(reply.content, reply.toolCalls)];
      messages := RunCalls(messages, reply.toolCalls, tools);
      ReactFromStep(h, n - iteration, maxIterations, model, tools);
      iteration := iteration + 1;
    }
    answer := NotCompletedMessage(maxIterations);
  }
}
