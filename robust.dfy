/** The loop of `robust_agent`: the same bounded reason/act loop as the
    ReAct agent, but every tool call goes through the retrying,
    breaker-guarded executor, and an exception escaping it (a permanent
    error, or the last transient one) becomes the tool entry's content
    instead of ending the run.

    The breaker is an explicit object shared by all calls of a run.  For each
    call, the tool's behaviour per attempt and the two clock readings per
    attempt are oracles indexed by the history at the time of the call. */
module RobustAgent {
  import opened Strings
  import opened Chat
  import opened CircuitBreakers
  import opened ToolRetry

  const SystemPrompt: string :=
    "You are a resilient AI agent that handles tool failures gracefully.\n\n"
    + "When a tool fails:\n"
    + "1. Check the error message\n"
    + "2. Try alternative approaches if available\n"
    + "3. If a tool is unavailable, work around it or inform the user\n\n"
    + "Be helpful even when tools fail. Don't give up after one failure."

  /** `robust_agent`'s default iteration limit. */
  const DefaultMaxIterations: int := 10

  const ExhaustedSuffix: string := " (all retries exhausted)"

  /** What the tool does on each attempt of a call. */
  type Tools = (seq<Message>, ToolCall) -> (nat -> ToolOutcome)

  /** Clock readings on each attempt of a call. */
  type Clock = (seq<Message>, ToolCall) -> (nat -> int)

  /** What executing one call does: the executor's exit and the breaker
      afterwards. */
  datatype Step = Step(exit: Exit, breaker: Breaker)

  /** A call executor, given the breaker, the history and the call. */
  type Exec = (Breaker, seq<Message>, ToolCall) -> Step

  /** `execute_tool_with_retry` as a call executor. */
  function Executor(tools: Tools, probeClock: Clock, failClock: Clock): Exec
  {
    (b: Breaker, h: seq<Message>, c: ToolCall) =>
      var run := Retry(b, c.name, tools(h, c), probeClock(h, c), failClock(h, c));
      Step(run.exit, run.breaker)
  }

  /** The executor keeps the breaker invariant. */
  ghost predicate KeepsTripped(exec: Exec)
  {
    forall b, h, c :: Tripped(b) ==> Tripped(exec(b, h, c).breaker)
  }

  lemma ExecutorKeepsTripped(tools: Tools, probeClock: Clock, failClock: Clock)
    ensures KeepsTripped(Executor(tools, probeClock, failClock))
  {
    forall b, h, c | Tripped(b)
      ensures Tripped(Executor(tools, probeClock, failClock)(b, h, c).breaker)
    {
      RetryFromTripped(b, c.name, tools(h, c), probeClock(h, c), failClock(h, c), 0);
    }
  }

  /** The content of the tool entry for a call whose executor ended with `e`. */
  function ToolResult(e: Exit): string
  {
    match e
    case Value(t) => t
    case Raised(_, m) => "Error: " + m + ExhaustedSuffix
  }

  /** A value is passed on unchanged; an escaping exception is reported as
      an error that ends with the "(all retries exhausted)" note. */
  lemma ToolResultSpec(e: Exit)
    ensures e.Value? ==> ToolResult(e) == e.text
    ensures e.Raised? ==>
              |ToolResult(e)| >= |ExhaustedSuffix|
              && ToolResult(e)[..7] == "Error: "
              && ToolResult(e)[|ToolResult(e)| - |ExhaustedSuffix|..] == ExhaustedSuffix
  {
  }

  function NotCompletedMessage(maxIterations: int): string
  {
    "Error: Task not completed within " + IntToString(maxIterations) + " iterations"
  }

  /** The tool entries of one reply and the breaker after them. */
  datatype Observed = Observed(entries: seq<Message>, breaker: Breaker)

  /** The tool entries appended for `calls`, each executed with retries on the
      breaker left by the previous one. */
  function Observe(h: seq<Message>, b: Breaker, calls: seq<ToolCall>, exec: Exec): Observed
    decreases |calls|
  {
    if calls == [] then Observed([], b)
    else
      var c := calls[0];
      var step := exec(b, h, c);
      var entry := Tool(ToolResult(step.exit), c.id);
      var rest := Observe(h + [entry], step.breaker, calls[1..], exec);
      Observed([entry] + rest.entries, rest.breaker)
  }

  lemma {:induction false} ObserveAnswers(h: seq<Message>, b: Breaker, calls: seq<ToolCall>, exec: Exec)
    ensures AnswersCalls(Observe(h, b, calls, exec).entries, calls)
    decreases |calls|
  {
    if calls != [] {
      var c := calls[0];
      var step := exec(b, h, c);
      var entry := Tool(ToolResult(step.exit), c.id);
      ObserveAnswers(h + [entry], step.breaker, calls[1..], exec);
    }
  }

  /** The calls of one reply keep the breaker invariant. */
  lemma {:induction false} ObserveTripped(h: seq<Message>, b: Breaker, calls: seq<ToolCall>, exec: Exec)
    requires Tripped(b) && KeepsTripped(exec)
    ensures Tripped(Observe(h, b, calls, exec).breaker)
    decreases |calls|
  {
    if calls != [] {
      var c := calls[0];
      var step := exec(b, h, c);
      var entry := Tool(ToolResult(step.exit), c.id);
      ObserveTripped(h + [entry], step.breaker, calls[1..], exec);
    }
  }

  /** How a run ended: the returned text, the final history and breaker, the
      number of model calls, and whether a tool-free reply ended it. */
  datatype Outcome = Outcome(answer: string, history: seq<Message>, breaker: Breaker,
                             modelCalls: nat, completed: bool)

  /** The loop from history `h` and breaker `b` with `left` iterations to go. */
  function RobustFrom(h: seq<Message>, b: Breaker, left: nat, maxIterations: int, model: Model,
                      exec: Exec): Outcome
    decreases left
  {
    if left == 0 then Outcome(NotCompletedMessage(maxIterations), h, b, 0, false)
    else
      var reply := model(h);
      if reply.toolCalls == [] then Outcome(reply.content, h, b, 1, true)
      else
        var h1 := h + [Assistant(reply.content, reply.toolCalls)];
        var obs := Observe(h1, b, reply.toolCalls, exec);
        var rest := RobustFrom(h1 + obs.entries, obs.breaker, left - 1, maxIterations, model, exec);
        rest.(modelCalls := rest.modelCalls + 1)
  }

  /** `range(max_iterations)` is empty for a non-positive limit. */
  function Iterations(maxIterations: int): nat
  {
    if maxIterations > 0 then maxIterations else 0
  }

  function InitialHistory(task: string): seq<Message>
  {
    [System(SystemPrompt), User(task)]
  }

  /** `robust_agent(task, max_iterations)` on breaker `b`. */
  function Robust(b: Breaker, task: string, maxIterations: int, model: Model,
                  tools: Tools, probeClock: Clock, failClock: Clock): Outcome
  {
    RobustFrom(InitialHistory(task), b, Iterations(maxIterations), maxIterations, model,
               Executor(tools, probeClock, failClock))
  }

  // ===========================================================================
  // Properties of the loop
  // ===========================================================================

  /** One iteration that requests tools. */
  lemma RobustFromStep(h: seq<Message>, b: Breaker, left: nat, maxIterations: int, model: Model, exec: Exec)
    requires left > 0 && model(h).toolCalls != []
    ensures var h1 := h + [Assistant(model(h).content, model(h).toolCalls)];
            var obs := Observe(h1, b, model(h).toolCalls, exec);
            var o := RobustFrom(h, b, left, maxIterations, model, exec);
            var o2 := RobustFrom(h1 + obs.entries, obs.breaker, left - 1, maxIterations, model, exec);
            o.answer == o2.answer && o.breaker == o2.breaker && o.history == o2.history
  {
  }

  /** An iteration whose reply requests no tool ends the run. */
  lemma RobustFromDone(h: seq<Message>, b: Breaker, left: nat, maxIterations: int, model: Model, exec: Exec)
    requires left > 0 && model(h).toolCalls == []
    ensures RobustFrom(h, b, left, maxIterations, model, exec).answer == model(h).content
    ensures RobustFrom(h, b, left, maxIterations, model, exec).breaker == b
  {
  }

  lemma {:induction false} RobustFromPrefix(h: seq<Message>, b: Breaker, left: nat, maxIterations: int,
                                            model: Model, exec: Exec)
    ensures var o := RobustFrom(h, b, left, maxIterations, model, exec);
            |h| <= |o.history| && o.history[..|h|] == h
    decreases left
  {
    if left > 0 && model(h).toolCalls != [] {
      var reply := model(h);
      var h1 := h + [Assistant(reply.content, reply.toolCalls)];
      var obs := Observe(h1, b, reply.toolCalls, exec);
      var h2 := h1 + obs.entries;
      RobustFromPrefix(h2, obs.breaker, left - 1, maxIterations, model, exec);
      assert h2[..|h|] == h;
    }
  }

  lemma {:induction false} RobustFromHistory(h: seq<Message>, b: Breaker, left: nat, maxIterations: int,
                                             model: Model, exec: Exec)
    ensures var o := RobustFrom(h, b, left, maxIterations, model, exec);
            |h| <= |o.history| && Blocks(o.history[|h|..])
    decreases left
  {
    RobustFromPrefix(h, b, left, maxIterations, model, exec);
    if left > 0 && model(h).toolCalls != [] {
      var reply := model(h);
      var h1 := h + [Assistant(reply.content, reply.toolCalls)];
      var obs := Observe(h1, b, reply.toolCalls, exec);
      var h2 := h1 + obs.entries;
      var o2 := RobustFrom(h2, obs.breaker, left - 1, maxIterations, model, exec);
      RobustFromHistory(h2, obs.breaker, left - 1, maxIterations, model, exec);
      RobustFromPrefix(h2, obs.breaker, left - 1, maxIterations, model, exec);
      RobustFromStep(h, b, left, maxIterations, model, exec);
      ObserveAnswers(h1, b, reply.toolCalls, exec);
      BlocksExtend(o2.history, h, reply.content, reply.toolCalls, obs.entries);
    }
  }

  /** From history `h`: every assistant entry the loop appends is the model's
      reply to the history before it. */
  lemma {:induction false} RobustFromReplies(h: seq<Message>, b: Breaker, left: nat, maxIterations: int,
                                             model: Model, exec: Exec)
    ensures var o := RobustFrom(h, b, left, maxIterations, model, exec);
            |h| <= |o.history|
            && forall p :: |h| <= p < |o.history| && o.history[p].Assistant? ==>
                 o.history[p] == Assistant(model(o.history[..p]).content, model(o.history[..p]).toolCalls)
    decreases left
  {
    RobustFromPrefix(h, b, left, maxIterations, model, exec);
    if left > 0 && model(h).toolCalls != [] {
      var reply := model(h);
      var h1 := h + [Assistant(reply.content, reply.toolCalls)];
      var obs := Observe(h1, b, reply.toolCalls, exec);
      var h2 := h1 + obs.entries;
      var full := RobustFrom(h2, obs.breaker, left - 1, maxIterations, model, exec).history;
      RobustFromStep(h, b, left, maxIterations, model, exec);
      RobustFromReplies(h2, obs.breaker, left - 1, maxIterations, model, exec);
      RobustFromPrefix(h2, obs.breaker, left - 1, maxIterations, model, exec);
      ObserveAnswers(h1, b, reply.toolCalls, exec);
      assert forall p :: |h1| <= p < |h2| ==> full[p].Tool? by {
        forall p | |h1| <= p < |h2| ensures full[p].Tool? {
          assert full[p] == h2[p] == obs.entries[p - |h1|];
        }
      }
      forall p | |h| <= p < |full| && full[p].Assistant?
        ensures full[p] == Assistant(model(full[..p]).content, model(full[..p]).toolCalls)
      {
        if p == |h| {
          assert full[..p] == h by {
            assert full[..|h2|] == h2;
          }
          assert full[p] == h2[p];
        } else if p < |h2| {
          assert false;
        }
      }
    }
  }

  lemma {:induction false} RobustFromAnswer(h: seq<Message>, b: Breaker, left: nat, maxIterations: int,
                                            model: Model, exec: Exec)
    ensures var o := RobustFrom(h, b, left, maxIterations, model, exec);
            o.modelCalls <= left
            && (o.completed ==> o.answer == model(o.history).content && model(o.history).toolCalls == []
                                && o.modelCalls >= 1)
            && (!o.completed ==> o.answer == NotCompletedMessage(maxIterations) && o.modelCalls == left)
    decreases left
  {
    if left > 0 && model(h).toolCalls != [] {
      var reply := model(h);
      var h1 := h + [Assistant(reply.content, reply.toolCalls)];
      var obs := Observe(h1, b, reply.toolCalls, exec);
      RobustFromAnswer(h1 + obs.entries, obs.breaker, left - 1, maxIterations, model, exec);
    }
  }

  /** From history `h`: the loop made one model call per assistant entry it
      appended, plus one for the tool-free reply when it completed. */
  lemma {:induction false} RobustFromCount(h: seq<Message>, b: Breaker, left: nat, maxIterations: int,
                                           model: Model, exec: Exec)
    ensures var o := RobustFrom(h, b, left, maxIterations, model, exec);
            |h| <= |o.history|
            && o.modelCalls == AssistantCount(o.history[|h|..]) + (if o.completed then 1 else 0)
    decreases left
  {
    RobustFromPrefix(h, b, left, maxIterations, model, exec);
    if left > 0 && model(h).toolCalls != [] {
      var reply := model(h);
      var h1 := h + [Assistant(reply.content, reply.toolCalls)];
      var obs := Observe(h1, b, reply.toolCalls, exec);
      var h2 := h1 + obs.entries;
      RobustFromCount(h2, obs.breaker, left - 1, maxIterations, model, exec);
      RobustFromPrefix(h2, obs.breaker, left - 1, maxIterations, model, exec);
      ObserveAnswers(h1, b, reply.toolCalls, exec);
      BlockAssistantCount(h, reply.content, reply.toolCalls, obs.entries,
                          RobustFrom(h2, obs.breaker, left - 1, maxIterations, model, exec).history);
    } else {
      assert RobustFrom(h, b, left, maxIterations, model, exec).history[|h|..] == [];
    }
  }

  lemma {:induction false} RobustFromTripped(h: seq<Message>, b: Breaker, left: nat, maxIterations: int,
                                             model: Model, exec: Exec)
    requires Tripped(b) && KeepsTripped(exec)
    ensures Tripped(RobustFrom(h, b, left, maxIterations, model, exec).breaker)
    decreases left
  {
    if left > 0 && model(h).toolCalls != [] {
      var reply := model(h);
      var h1 := h + [Assistant(reply.content, reply.toolCalls)];
      var obs := Observe(h1, b, reply.toolCalls, exec);
      ObserveTripped(h1, b, reply.toolCalls, exec);
      RobustFromTripped(h1 + obs.entries, obs.breaker, left - 1, maxIterations, model, exec);
    }
  }

  /** `robust_agent`: the history starts with exactly the system prompt and
      the task and continues in whole blocks (each assistant entry that
      requests tools followed by one result per call, with that call's id);
      at most `max_iterations` model calls are made; the answer is the
      content of the first reply that requests no tool, or else the fixed
      "not completed" message after every iteration was used; and the
      breaker keeps its invariant throughout. */
  lemma RobustSpec(b: Breaker, task: string, maxIterations: int, model: Model,
                   tools: Tools, probeClock: Clock, failClock: Clock)
    requires Tripped(b)
    ensures var o := Robust(b, task, maxIterations, model, tools, probeClock, failClock);
            |o.history| >= 2 && o.history[..2] == [System(SystemPrompt), User(task)]
            && Blocks(o.history[2..])
            && (forall p :: 2 <= p < |o.history| && o.history[p].Assistant? ==>
                  o.history[p] == Assistant(model(o.history[..p]).content, model(o.history[..p]).toolCalls))
            && o.modelCalls == AssistantCount(o.history[2..]) + (if o.completed then 1 else 0)
            && o.modelCalls <= Iterations(maxIterations)
            && (o.completed ==> o.answer == model(o.history).content && model(o.history).toolCalls == [])
            && (!o.completed ==> o.answer == NotCompletedMessage(maxIterations)
                                 && o.modelCalls == Iterations(maxIterations))
            && Tripped(o.breaker)
  {
    var h := InitialHistory(task);
    var n := Iterations(maxIterations);
    var exec := Executor(tools, probeClock, failClock);
    ExecutorKeepsTripped(tools, probeClock, failClock);
    RobustFromPrefix(h, b, n, maxIterations, model, exec);
    RobustFromHistory(h, b, n, maxIterations, model, exec);
    RobustFromReplies(h, b, n, maxIterations, model, exec);
    RobustFromAnswer(h, b, n, maxIterations, model, exec);
    RobustFromCount(h, b, n, maxIterations, model, exec);
    RobustFromTripped(h, b, n, maxIterations, model, exec);
  }

  // ===========================================================================
  // The loop itself
  // ===========================================================================

  lemma ObserveStep(h: seq<Message>, b: Breaker, calls: seq<ToolCall>, j: nat, exec: Exec)
    requires j < |calls|
    ensures var c := calls[j];
            var step := exec(b, h, c);
            var entry := Tool(ToolResult(step.exit), c.id);
            var now := Observe(h, b, calls[j..], exec);
            var next := Observe(h + [entry], step.breaker, calls[j + 1..], exec);
            h + now.entries == (h + [entry]) + next.entries && now.breaker == next.breaker
  {
    assert calls[j..][1..] == calls[j + 1..];
  }

  /** `exec` agrees with `Executor(tools, probeClock, failClock)` on every call
      it is asked about.  The loops below are proved for such an `exec`, which
      keeps the retry machinery out of their proofs. */
  ghost predicate Implements(exec: Exec, tools: Tools, probeClock: Clock, failClock: Clock)
  {
    forall b, h, c {:trigger ExecAt(exec, b, h, c)} ::
      ExecAt(exec, b, h, c) == Executor(tools, probeClock, failClock)(b, h, c)
  }

  ghost function ExecAt(exec: Exec, b: Breaker, h: seq<Message>, c: ToolCall): Step
  {
    exec(b, h, c)
  }

  lemma ExecutorImplements(tools: Tools, probeClock: Clock, failClock: Clock)
    ensures Implements(Executor(tools, probeClock, failClock), tools, probeClock, failClock)
  {
  }

  /** One call of the inner loop: `execute_tool_with_retry` on the breaker object. */
  method ExecuteCall(cb: CircuitBreaker, h: seq<Message>, call: ToolCall,
                     tools: Tools, probeClock: Clock, failClock: Clock, ghost exec: Exec)
    returns (exit: Exit)
    requires Implements(exec, tools, probeClock, failClock)
    modifies cb
    ensures Step(exit, cb.State()) == exec(old(cb.State()), h, call)
  {
    ghost var b := cb.State();
    exit := ExecuteToolWithRetry(cb, call.name, tools(h, call), probeClock(h, call), failClock(h, call));
    assert ExecAt(exec, b, h, call) == Executor(tools, probeClock, failClock)(b, h, call);
  }

  /** The inner loop of `robust_agent`: each call of a reply is executed and
      its result appended to the history, in order. */
  method RunCalls(cb: CircuitBreaker, h1: seq<Message>, calls: seq<ToolCall>,
                  tools: Tools, probeClock: Clock, failClock: Clock, ghost exec: Exec)
    returns (messages: seq<Message>)
    requires Implements(exec, tools, probeClock, failClock)
    modifies cb
    ensures var obs := Observe(h1, old(cb.State()), calls, exec);
            messages == h1 + obs.entries && cb.State() == obs.breaker
  {
    ghost var target := Observe(h1, cb.State(), calls, exec);
    messages := h1;
    var j := 0;
    while j < |calls|
      invariant 0 <= j <= |calls|
      invariant messages + Observe(messages, cb.State(), calls[j..], exec).entries == h1 + target.entries
      invariant Observe(messages, cb.State(), calls[j..], exec).breaker == target.breaker
    {
      var call := calls[j];
      ObserveStep(messages, cb.State(), calls, j, exec);
      var exit := ExecuteCall(cb, messages, call, tools, probeClock, failClock, exec);
      var result := ToolResult(exit);
      messages := messages + [Tool(result, call.id)];
      j := j + 1;
    }
    assert calls[j..] == [];
  }

  /** The iteration loop of `robust_agent`, from history `messages` with `n`
      iterations to go. */
  method RunIterations(cb: CircuitBreaker, messages: seq<Message>, n: nat, maxIterations: int,
                       model: Model, tools: Tools, probeClock: Clock, failClock: Clock,
                       ghost exec: Exec)
    returns (answer: string)
    requires Implements(exec, tools, probeClock, failClock)
    modifies cb
    ensures var o := RobustFrom(messages, old(cb.State()), n, maxIterations, model, exec);
            answer == o.answer && cb.State() == o.breaker
  {
    var history := messages;
    ghost var goal := RobustFrom(history, cb.State(), n, maxIterations, model, exec);
    var iteration := 0;
    while iteration < n
      invariant 0 <= iteration <= n
      invariant RobustFrom(history, cb.State(), n - iteration, maxIterations, model, exec).answer == goal.answer
      invariant RobustFrom(history, cb.State(), n - iteration, maxIterations, model, exec).breaker == goal.breaker
    {
      ghost var h := history;
      ghost var b := cb.State();
      var reply := model(history);
      if reply.toolCalls == [] {
        RobustFromDone(h, b, n - iteration, maxIterations, model, exec);
        return reply.content;
      }
      history := history + [Assistant(reply.content, reply.toolCalls)];
      history := RunCalls(cb, history, reply.toolCalls, tools, probeClock, failClock, exec);
      RobustFromStep(h, b, n - iteration, maxIterations, model, exec);
      iteration := iteration + 1;
    }
    answer := NotCompletedMessage(maxIterations);
  }

  /** `robust_agent`, on the breaker object `cb`. */
  method RunRobustAgent(cb: CircuitBreaker, task: string, maxIterations: int, model: Model,
                        tools: Tools, probeClock: Clock, failClock: Clock)
    returns (answer: string)
    modifies cb
    ensures var o := Robust(old(cb.State()), task, maxIterations, model, tools, probeClock, failClock);
            answer == o.answer && cb.State() == o.breaker
  {
    var messages := [System(SystemPrompt), User(task)];
    ExecutorImplements(tools, probeClock, failClock);
    answer := RunIterations(cb, messages, Iterations(maxIterations), maxIterations, model,
                            tools, probeClock, failClock, Executor(tools, probeClock, failClock));
  }
}
