/** The multi-agent orchestrator: a keyword planner picks specialist agents
    (research, analysis, writing) and chains them, each specialist makes one
    model call with the outputs of its successful dependencies appended to its
    task, and the successful outputs are combined into one answer.

    The model is an oracle from (system prompt, user content) to either a
    reply text or the text of the exception the call raised. */
module Orchestration {
  import opened Strings

  // ===========================================================================
  // Agents and their results
  // ===========================================================================

  datatype AgentType = Research | Analysis | Writing

  /** The enum's value, used as the key of a dependency's output. */
  function Value(t: AgentType): string
  {
    match t
    case Research => "research"
    case Analysis => "analysis"
    case Writing => "writing"
  }

  /** A specialist's outcome.  `data` is the reply text on success and absent
      on failure; `error` is the text of the exception on failure. */
  datatype AgentResult = AgentResult(agentType: AgentType, success: bool, data: Option<string>,
                                     error: Option<string>)

  /** What one model call gives: the reply's text, or the exception it raised. */
  datatype Completion = Answered(content: string) | Raised(message: string)

  /** The model, given the system prompt and the user content. */
  type Llm = (string, string) -> Completion

  datatype Specialist = Specialist(agentType: AgentType, systemPrompt: string)

  const ResearchPrompt: string :=
    "You are a research specialist agent.\n\n"
    + "Your job: Gather relevant information and facts about a topic.\n\n"
    + "Output format:\n- Key facts (bulleted list)\n- Relevant data points\n- Important context\n\n"
    + "Be thorough but concise. Focus on facts, not opinions."

  const AnalysisPrompt: string :=
    "You are an analysis specialist agent.\n\n"
    + "Your job: Process information and extract insights.\n\n"
    + "Output format:\n- Key patterns identified\n- Important insights\n- Recommendations based on data\n\n"
    + "Be analytical and data-driven. Support conclusions with evidence."

  const WritingPrompt: string :=
    "You are a writing specialist agent.\n\n"
    + "Your job: Create clear, engaging content.\n\n"
    + "Output format:\n- Well-structured prose\n- Clear explanations\n- Appropriate tone for audience\n\n"
    + "Be clear and concise. Avoid jargon unless necessary."

  /** The orchestrator's table of specialists, one per agent type. */
  function Agent(t: AgentType): (a: Specialist)
    ensures a.agentType == t
  {
    match t
    case Research => Specialist(Research, ResearchPrompt)
    case Analysis => Specialist(Analysis, AnalysisPrompt)
    case Writing => Specialist(Writing, WritingPrompt)
  }

  // ===========================================================================
  // Task formatting
  // ===========================================================================

  /** The outputs handed to a specialist: an insertion-ordered dictionary from
      the dependency's enum value to its data. */
  type Context = seq<(string, Option<string>)>

  /** How an f-string renders a result's data; an absent value prints as
      "None". */
  function DataText(d: Option<string>): string
  {
    match d
    case Some(s) => s
    case None => "None"
  }

  const ContextHeader: string := "\n\nContext from previous agents:\n"

  /** The block appended for one context entry. */
  function ContextBlock(key: string, value: Option<string>): string
  {
    "\n" + key + ":\n" + DataText(value) + "\n"
  }

  /** The blocks of entries `lo` to `hi - 1`, in order. */
  function ContextBlocks(ctx: Context, lo: nat, hi: nat): string
    requires lo <= hi <= |ctx|
    decreases hi - lo
  {
    if lo == hi then ""
    else ContextBlocks(ctx, lo, hi - 1) + ContextBlock(ctx[hi - 1].0, ctx[hi - 1].1)
  }

  /** `_format_task(task, context)`. */
  function FormatTaskSpec(task: string, ctx: Context): string
  {
    if ctx == [] then task else task + ContextHeader + ContextBlocks(ctx, 0, |ctx|)
  }

  /** The blocks of a range are those of its two halves, one after the other. */
  lemma {:induction false} ContextBlocksSplit(ctx: Context, lo: nat, mid: nat, hi: nat)
    requires lo <= mid <= hi <= |ctx|
    ensures ContextBlocks(ctx, lo, hi) == ContextBlocks(ctx, lo, mid) + ContextBlocks(ctx, mid, hi)
    decreases hi - mid
  {
    if mid < hi {
      ContextBlocksSplit(ctx, lo, mid, hi - 1);
    }
  }

  /** An empty context leaves the task as it is; otherwise the task is kept
      as a prefix, followed by the header, and entry `i`'s block comes after
      the blocks of the entries before it and before those of the entries
      after it. */
  lemma FormatTaskShape(task: string, ctx: Context, i: int)
    requires 0 <= i < |ctx|
    ensures FormatTaskSpec(task, []) == task
    ensures IsPrefix(task + ContextHeader, FormatTaskSpec(task, ctx))
    ensures FormatTaskSpec(task, ctx) ==
            task + ContextHeader + ContextBlocks(ctx, 0, i) + ContextBlock(ctx[i].0, ctx[i].1)
            + ContextBlocks(ctx, i + 1, |ctx|)
  {
    var s := FormatTaskSpec(task, ctx);
    var head := task + ContextHeader;
    assert s == head + ContextBlocks(ctx, 0, |ctx|);
    assert IsPrefix(head, s) by {
      assert s[..|head|] == head;
    }
    assert ContextBlocks(ctx, 0, |ctx|)
           == ContextBlocks(ctx, 0, i) + ContextBlock(ctx[i].0, ctx[i].1) + ContextBlocks(ctx, i + 1, |ctx|) by {
      ContextBlocksSplit(ctx, 0, i + 1, |ctx|);
      ContextBlocksSplit(ctx, 0, i, i + 1);
    }
  }

  /** `SpecialistAgent._format_task`: the context string is built one entry at
      a time. */
  method FormatTask(task: string, ctx: Context) returns (s: string)
    ensures s == FormatTaskSpec(task, ctx)
  {
    if ctx == [] {
      return task;
    }
    var contextStr := ContextHeader;
    for i := 0 to |ctx|
      invariant contextStr == ContextHeader + ContextBlocks(ctx, 0, i)
    {
      var (key, value) := ctx[i];
      contextStr := contextStr + ContextBlock(key, value);
    }
    s := task + contextStr;
  }

  // ===========================================================================
  // One specialist
  // ===========================================================================

  /** `SpecialistAgent.run(task, context)` as a value. */
  function RunSpec(agent: Specialist, task: string, ctx: Context, llm: Llm): AgentResult
  {
    match llm(agent.systemPrompt, FormatTaskSpec(task, ctx))
    case Answered(content) => AgentResult(agent.agentType, true, Some(content), None)
    case Raised(message) => AgentResult(agent.agentType, false, None, Some(message))
  }

  /** `SpecialistAgent.run`: one model call on the system prompt and the
      formatted task.  It never fails: a raised exception becomes an
      unsuccessful result with no data and the exception's text. */
  method Run(agent: Specialist, task: string, ctx: Context, llm: Llm) returns (r: AgentResult)
    ensures r == RunSpec(agent, task, ctx, llm)
    ensures var c := llm(agent.systemPrompt, FormatTaskSpec(task, ctx));
            r.agentType == agent.agentType
            && (r.success <==> c.Answered?)
            && (c.Answered? ==> r.data == Some(c.content) && r.error == None)
            && (c.Raised? ==> r.data == None && r.error == Some(c.message))
  {
    var content := FormatTask(task, ctx);
    var completion := llm(agent.systemPrompt, content);
    match completion
    case Answered(text) =>
      r := AgentResult(agent.agentType, true, Some(text), None);
    case Raised(message) =>
      r := AgentResult(agent.agentType, false, None, Some(message));
  }

  // ===========================================================================
  // Planning
  // ===========================================================================

  /** One step of a plan; a step without dependencies has an empty list. */
  datatype Step = Step(agent: AgentType, task: string, dependsOn: seq<AgentType>)

  const ResearchWords: seq<string> := ["research", "find", "information", "facts", "data"]
  const AnalysisWords: seq<string> := ["analyze", "insights", "patterns", "why", "compare"]
  const WritingWords: seq<string> := ["write", "draft", "create", "summarize", "explain"]

  predicate NeedsResearch(task: string) { ContainsAny(Lower(task), ResearchWords) }
  predicate NeedsAnalysis(task: string) { ContainsAny(Lower(task), AnalysisWords) }
  predicate NeedsWriting(task: string) { ContainsAny(Lower(task), WritingWords) }

  /** No keyword of any category occurs in the task. */
  predicate Unmatched(task: string)
  {
    !NeedsResearch(task) && !NeedsAnalysis(task) && !NeedsWriting(task)
  }

  const ResearchPrefix: string := "Research the following: "
  const AnalysisPrefix: string := "Analyze the following: "
  const WritingPrefix: string := "Write a clear explanation of: "

  /** The dependencies of the writing step: the nearest earlier step. */
  function WritingDeps(task: string): seq<AgentType>
  {
    if NeedsAnalysis(task) then [Analysis] else if NeedsResearch(task) then [Research] else []
  }

  /** `Orchestrator._create_plan(task)`: its list of steps. */
  function CreatePlan(task: string): seq<Step>
  {
    var steps :=
      (if NeedsResearch(task) then [Step(Research, ResearchPrefix + task, [])] else [])
      + (if NeedsAnalysis(task)
         then [Step(Analysis, AnalysisPrefix + task, if NeedsResearch(task) then [Research] else [])]
         else [])
      + (if NeedsWriting(task) then [Step(Writing, WritingPrefix + task, WritingDeps(task))] else []);
    if steps == [] then [Step(Writing, task, [])] else steps
  }

  /** The position of each agent in the research, analysis, writing chain. */
  function Rank(t: AgentType): nat
  {
    match t
    case Research => 0
    case Analysis => 1
    case Writing => 2
  }

  /** The agents of a plan are in chain order, hence each appears at most once. */
  lemma PlanOrdered(task: string)
    ensures var p := CreatePlan(task);
            forall i, j :: 0 <= i < j < |p| ==> Rank(p[i].agent) < Rank(p[j].agent)
  {
  }

  /** A plan is never empty, and is the single raw writing step exactly when
      no keyword matches. */
  lemma PlanFallback(task: string)
    ensures CreatePlan(task) != []
    ensures CreatePlan(task) == [Step(Writing, task, [])] <==> Unmatched(task)
  {
    if !Unmatched(task) {
      var p := CreatePlan(task);
      assert p[0].task == (if NeedsResearch(task) then ResearchPrefix
                           else if NeedsAnalysis(task) then AnalysisPrefix else WritingPrefix) + task;
    }
  }

  /** Which agents a plan holds and what each is asked to do. */
  lemma PlanSteps(task: string)
    ensures var p := CreatePlan(task);
            && ((exists i :: 0 <= i < |p| && p[i].agent == Research) <==> NeedsResearch(task))
            && ((exists i :: 0 <= i < |p| && p[i].agent == Analysis) <==> NeedsAnalysis(task))
            && ((exists i :: 0 <= i < |p| && p[i].agent == Writing) <==> NeedsWriting(task) || Unmatched(task))
            && (forall i :: 0 <= i < |p| && p[i].agent == Research ==> p[i].task == ResearchPrefix + task)
            && (forall i :: 0 <= i < |p| && p[i].agent == Analysis ==> p[i].task == AnalysisPrefix + task)
            && (forall i :: 0 <= i < |p| && p[i].agent == Writing ==>
                  p[i].task == (if Unmatched(task) then task else WritingPrefix + task))
  {
    var p := CreatePlan(task);
    if NeedsResearch(task) {
      assert p[0].agent == Research;
    }
    if NeedsAnalysis(task) {
      assert p[if NeedsResearch(task) then 1 else 0].agent == Analysis;
    }
    if NeedsWriting(task) || Unmatched(task) {
      assert p[|p| - 1].agent == Writing;
    }
  }

  /** Every dependency names an agent whose step comes strictly earlier; the
      analysis step depends on research if present, and the writing step on
      analysis if present, else on research if present. */
  lemma PlanDependencies(task: string)
    ensures var p := CreatePlan(task);
            && (forall i, d :: 0 <= i < |p| && d in p[i].dependsOn ==>
                  exists j :: 0 <= j < i && p[j].agent == d)
            && (forall i :: 0 <= i < |p| && p[i].agent == Analysis ==>
                  p[i].dependsOn == if NeedsResearch(task) then [Research] else [])
            && (forall i :: 0 <= i < |p| && p[i].agent == Writing ==>
                  p[i].dependsOn == WritingDeps(task))
  {
    var p := CreatePlan(task);
    var rs := Step(Research, ResearchPrefix + task, []);
    var r, a, w := NeedsResearch(task), NeedsAnalysis(task), NeedsWriting(task);
    if r && a && w {
      var an := Step(Analysis, AnalysisPrefix + task, [Research]);
      assert p == [rs, an, Step(Writing, WritingPrefix + task, [Analysis])];
      assert p[0].agent == Research && p[1].agent == Analysis;
    } else if r && a {
      assert p == [rs, Step(Analysis, AnalysisPrefix + task, [Research])];
      assert p[0].agent == Research;
    } else if r && w {
      assert p == [rs, Step(Writing, WritingPrefix + task, [Research])];
      assert p[0].agent == Research;
    } else if a && w {
      assert p == [Step(Analysis, AnalysisPrefix + task, []), Step(Writing, WritingPrefix + task, [Analysis])];
      assert p[0].agent == Analysis;
    }
  }

  // ===========================================================================
  // Execution
  // ===========================================================================

  /** The context for a step: each dependency with a successful result, keyed
      by its enum value, in dependency order.  A repeated dependency writes the
      same value under the same key, which leaves the dictionary as it was. */
  function DepContext(deps: seq<AgentType>, results: map<AgentType, AgentResult>): Context
    decreases |deps|
  {
    if deps == [] then []
    else
      var ctx := DepContext(deps[..|deps| - 1], results);
      var d := deps[|deps| - 1];
      if d in results && results[d].success && !HasKey(ctx, Value(d))
      then ctx + [(Value(d), results[d].data)]
      else ctx
  }

  predicate HasKey(ctx: Context, k: string)
  {
    exists i :: 0 <= i < |ctx| && ctx[i].0 == k
  }

  /** A dependency whose result is present and successful. */
  predicate Usable(d: AgentType, deps: seq<AgentType>, results: map<AgentType, AgentResult>)
  {
    d in deps && d in results && results[d].success
  }

  /** Distinct agent types have distinct enum values. */
  lemma ValueInjective(s: AgentType, t: AgentType)
    ensures Value(s) == Value(t) ==> s == t
  {
    if s != t {
      assert Value(s)[0] != Value(t)[0];
    }
  }

  /** `ctx` holds exactly the usable dependencies, each once, each with its own
      result's data. */
  ghost predicate ExactContext(ctx: Context, deps: seq<AgentType>, results: map<AgentType, AgentResult>)
  {
    && (forall i, j :: 0 <= i < j < |ctx| ==> ctx[i].0 != ctx[j].0)
    && (forall d :: HasKey(ctx, Value(d)) <==> Usable(d, deps, results))
    && (forall i :: 0 <= i < |ctx| ==> EntryOf(ctx[i], deps, results))
  }

  /** `entry` is a usable dependency's key and data. */
  ghost predicate EntryOf(entry: (string, Option<string>), deps: seq<AgentType>,
                          results: map<AgentType, AgentResult>)
  {
    exists d :: Usable(d, deps, results) && entry == (Value(d), results[d].data)
  }

  /** Appending a newly usable dependency's entry keeps the context exact. */
  lemma DepContextAdd(ctx0: Context, prev: seq<AgentType>, d: AgentType, results: map<AgentType, AgentResult>)
    requires ExactContext(ctx0, prev, results)
    requires d in results && results[d].success && !HasKey(ctx0, Value(d))
    ensures ExactContext(ctx0 + [(Value(d), results[d].data)], prev + [d], results)
  {
    var deps := prev + [d];
    var entry := (Value(d), results[d].data);
    var ctx := ctx0 + [entry];
    forall e ensures HasKey(ctx, Value(e)) <==> Usable(e, deps, results)
    {
      ValueInjective(e, d);
      if HasKey(ctx, Value(e)) {
        var i :| 0 <= i < |ctx| && ctx[i].0 == Value(e);
        if i < |ctx0| {
          assert ctx0[i].0 == Value(e);
        }
      }
      if Usable(e, prev, results) {
        var i :| 0 <= i < |ctx0| && ctx0[i].0 == Value(e);
        assert ctx[i].0 == Value(e);
      }
      if e == d {
        assert ctx[|ctx0|].0 == Value(e);
      }
    }
    forall i | 0 <= i < |ctx|
      ensures EntryOf(ctx[i], deps, results)
    {
      if i < |ctx0| {
        assert ctx[i] == ctx0[i];
        assert EntryOf(ctx0[i], prev, results);
        var e :| Usable(e, prev, results) && ctx0[i] == (Value(e), results[e].data);
        assert Usable(e, deps, results);
      } else {
        assert ctx[i] == entry && Usable(d, deps, results);
      }
    }
    forall i, j | 0 <= i < j < |ctx|
      ensures ctx[i].0 != ctx[j].0
    {
      if j == |ctx0| {
        assert ctx0[i].0 != Value(d);
      }
    }
  }

  /** A context stays exact for a dependency list with the same usable
      dependencies. */
  lemma DepContextKeep(ctx: Context, prev: seq<AgentType>, deps: seq<AgentType>,
                       results: map<AgentType, AgentResult>)
    requires ExactContext(ctx, prev, results)
    requires forall e :: Usable(e, deps, results) <==> Usable(e, prev, results)
    ensures ExactContext(ctx, deps, results)
  {
    forall i | 0 <= i < |ctx|
      ensures EntryOf(ctx[i], deps, results)
    {
      assert EntryOf(ctx[i], prev, results);
      var e :| Usable(e, prev, results) && ctx[i] == (Value(e), results[e].data);
      assert Usable(e, deps, results);
    }
  }

  /** The context given to a step holds exactly its usable dependencies. */
  lemma {:induction false} DepContextSpec(deps: seq<AgentType>, results: map<AgentType, AgentResult>)
    ensures ExactContext(DepContext(deps, results), deps, results)
    decreases |deps|
  {
    if deps != [] {
      var prev := deps[..|deps| - 1];
      var d := deps[|deps| - 1];
      DepContextSpec(prev, results);
      assert deps == prev + [d];
      var ctx0 := DepContext(prev, results);
      if d in results && results[d].success && !HasKey(ctx0, Value(d)) {
        DepContextAdd(ctx0, prev, d, results);
      } else {
        forall e ensures Usable(e, deps, results) <==> Usable(e, prev, results)
        {
          if e == d && d in results && results[d].success {
            assert HasKey(ctx0, Value(d));
          }
        }
        DepContextKeep(ctx0, prev, deps, results);
      }
    }
  }

  /** The results after running `steps` in order: each step's result is stored
      under its agent, replacing any earlier one. */
  function ResultsAfter(steps: seq<Step>, llm: Llm): map<AgentType, AgentResult>
    decreases |steps|
  {
    if steps == [] then map[]
    else
      var results := ResultsAfter(steps[..|steps| - 1], llm);
      var s := steps[|steps| - 1];
      results[s.agent := RunSpec(Agent(s.agent), s.task, DepContext(s.dependsOn, results), llm)]
  }

  /** Some step of `steps` runs agent `t`. */
  predicate InPlan(steps: seq<Step>, t: AgentType)
  {
    exists i :: 0 <= i < |steps| && steps[i].agent == t
  }

  /** There is one result per agent of the plan, and it is that agent's. */
  lemma {:induction false} ResultsAfterKeys(steps: seq<Step>, llm: Llm)
    ensures forall t :: t in ResultsAfter(steps, llm) <==> InPlan(steps, t)
    ensures forall t :: t in ResultsAfter(steps, llm) ==> ResultsAfter(steps, llm)[t].agentType == t
    decreases |steps|
  {
    if steps != [] {
      var prev := steps[..|steps| - 1];
      var last := steps[|steps| - 1];
      ResultsAfterKeys(prev, llm);
      var before := ResultsAfter(prev, llm);
      var r := RunSpec(Agent(last.agent), last.task, DepContext(last.dependsOn, before), llm);
      assert r.agentType == last.agent;
      assert ResultsAfter(steps, llm) == before[last.agent := r];
      forall t ensures InPlan(steps, t) <==> InPlan(prev, t) || t == last.agent
      {
        if InPlan(steps, t) && t != last.agent {
          var i :| 0 <= i < |steps| && steps[i].agent == t;
          assert prev[i].agent == t;
        }
        if InPlan(prev, t) {
          var i :| 0 <= i < |prev| && prev[i].agent == t;
          assert steps[i].agent == t;
        }
        if t == last.agent {
          assert steps[|steps| - 1].agent == t;
        }
      }
    }
  }

  /** When no agent occurs twice, the result stored for step `i` is that step's
      run, given the context built from the results of the steps before it. */
  lemma {:induction false} ResultsAfterStep(steps: seq<Step>, i: int, llm: Llm)
    requires 0 <= i < |steps|
    requires forall j, k :: 0 <= j < k < |steps| ==> steps[j].agent != steps[k].agent
    ensures var s := steps[i];
            var results := ResultsAfter(steps, llm);
            s.agent in results
            && results[s.agent]
               == RunSpec(Agent(s.agent), s.task, DepContext(s.dependsOn, ResultsAfter(steps[..i], llm)), llm)
    decreases |steps|
  {
    if i < |steps| - 1 {
      var prev := steps[..|steps| - 1];
      assert prev[..i] == steps[..i];
      ResultsAfterStep(prev, i, llm);
    } else {
      assert steps[..|steps| - 1] == steps[..i];
    }
  }

  /** In a plan, every dependency of a step has run before that step, so the
      step's context holds exactly the dependencies that succeeded. */
  lemma PlanDependenciesRunFirst(task: string, llm: Llm, i: int)
    requires 0 <= i < |CreatePlan(task)|
    ensures var p := CreatePlan(task);
            var results := ResultsAfter(p[..i], llm);
            forall d :: d in p[i].dependsOn ==> d in results
  {
    var p := CreatePlan(task);
    PlanDependencies(task);
    ResultsAfterKeys(p[..i], llm);
    forall d | d in p[i].dependsOn
      ensures d in ResultsAfter(p[..i], llm)
    {
      var j :| 0 <= j < i && p[j].agent == d;
      assert p[..i][j].agent == d;
    }
  }

  /** `Orchestrator._execute_plan`: the steps run in order, each with the
      context of its successful dependencies, and its result is recorded under
      its agent. */
  method ExecutePlan(steps: seq<Step>, llm: Llm) returns (results: map<AgentType, AgentResult>)
    ensures results == ResultsAfter(steps, llm)
  {
    results := map[];
    for i := 0 to |steps|
      invariant results == ResultsAfter(steps[..i], llm)
    {
      var step := steps[i];
      var agentContext := DepContext(step.dependsOn, results);
      var result := Run(Agent(step.agent), step.task, agentContext, llm);
      assert steps[..i + 1][..i] == steps[..i];
      results := results[step.agent := result];
    }
    assert steps[..|steps|] == steps;
  }

  // ===========================================================================
  // Synthesis
  // ===========================================================================

  const AllFailedMessage: string := "Error: All agents failed to produce results."
  const ResearchHeading: string := "## Research Findings\n\n"
  const AnalysisHeading: string := "## Analysis\n\n"
  const SectionSeparator: string := "\n\n"

  predicate Succeeded(results: map<AgentType, AgentResult>, t: AgentType)
  {
    t in results && results[t].success
  }

  /** `Orchestrator._synthesize_results`. */
  function Synthesize(results: map<AgentType, AgentResult>): string
  {
    if !exists t :: Succeeded(results, t) then AllFailedMessage
    else if Succeeded(results, Writing) then DataText(results[Writing].data)
    else
      var sections :=
        (if Succeeded(results, Research) then [ResearchHeading + DataText(results[Research].data)] else [])
        + (if Succeeded(results, Analysis) then [AnalysisHeading + DataText(results[Analysis].data)] else []);
      Join(SectionSeparator, sections)
  }

  /** The cases of the synthesis: nothing succeeded; writing succeeded and its
      text is the answer; otherwise the research section, then the analysis
      section, of those that succeeded. */
  lemma SynthesizeCases(results: map<AgentType, AgentResult>)
    ensures var s := Synthesize(results);
            && (!Succeeded(results, Research) && !Succeeded(results, Analysis) && !Succeeded(results, Writing)
                ==> s == AllFailedMessage)
            && (Succeeded(results, Writing) ==> s == DataText(results[Writing].data))
            && (!Succeeded(results, Writing) && Succeeded(results, Research) && Succeeded(results, Analysis)
                ==> s == ResearchHeading + DataText(results[Research].data) + SectionSeparator
                         + AnalysisHeading + DataText(results[Analysis].data))
            && (!Succeeded(results, Writing) && Succeeded(results, Research) && !Succeeded(results, Analysis)
                ==> s == ResearchHeading + DataText(results[Research].data))
            && (!Succeeded(results, Writing) && !Succeeded(results, Research) && Succeeded(results, Analysis)
                ==> s == AnalysisHeading + DataText(results[Analysis].data))
  {
    if Succeeded(results, Research) {
      assert exists t :: Succeeded(results, t);
      if Succeeded(results, Analysis) {
        var r := ResearchHeading + DataText(results[Research].data);
        var a := AnalysisHeading + DataText(results[Analysis].data);
        assert Join(SectionSeparator, [r, a]) == r + SectionSeparator + a by {
          assert [r, a][1..] == [a];
        }
      }
    } else if Succeeded(results, Analysis) {
      assert exists t :: Succeeded(results, t);
    } else if Succeeded(results, Writing) {
      assert exists t :: Succeeded(results, t);
    } else {
      forall t ensures !Succeeded(results, t) {
        match t
        case Research =>
        case Analysis =>
        case Writing =>
      }
    }
  }

  // ===========================================================================
  // The whole run
  // ===========================================================================

  /** `Orchestrator.run(task)`: plan, execute, synthesize. */
  method RunOrchestrator(task: string, llm: Llm) returns (answer: string)
    ensures answer == Synthesize(ResultsAfter(CreatePlan(task), llm))
  {
    var plan := CreatePlan(task);
    var results := ExecutePlan(plan, llm);
    answer := Synthesize(results);
  }

  /** A keyword is never found in a shorter text. */
  lemma {:induction false} NotContainsLonger(haystack: string, needle: string)
    requires |haystack| < |needle|
    ensures !Contains(haystack, needle)
    decreases |haystack|
  {
    if |haystack| > 0 {
      NotContainsLonger(haystack[1..], needle);
    }
  }

  /** A task matching no keyword is answered by the writing specialist alone,
      on the raw task with no context: its reply, or the all-failed message
      when its call raised. */
  lemma UnmatchedAnswer(task: string, llm: Llm)
    requires Unmatched(task)
    ensures var answer := Synthesize(ResultsAfter(CreatePlan(task), llm));
            match llm(WritingPrompt, task)
            case Answered(text) => answer == text
            case Raised(_) => answer == AllFailedMessage
  {
    PlanFallback(task);
    var p := CreatePlan(task);
    assert p == [Step(Writing, task, [])];
    assert p[..|p| - 1] == [];
    var results := ResultsAfter(p, llm);
    var none: map<AgentType, AgentResult> := map[];
    assert ResultsAfter(p[..|p| - 1], llm) == none;
    assert DepContext([], none) == [];
    var r := RunSpec(Agent(Writing), task, [], llm);
    assert results == none[Writing := r];
    assert results == map[Writing := r];
    assert FormatTaskSpec(task, []) == task;
    SynthesizeCases(results);
  }

  /** Every keyword has at least three letters, so a two-letter greeting
      matches none of them. */
  lemma GreetingIsUnmatched()
    ensures Unmatched("Hi")
  {
    forall w | w in ResearchWords + AnalysisWords + WritingWords
      ensures !Contains(Lower("Hi"), w)
    {
      NotContainsLonger(Lower("Hi"), w);
    }
  }
}
