/** The chat vocabulary shared by the two tool-using agent loops: the entries
    of a conversation history, a model reply, and the shape a history takes
    when every tool request is followed by one result per requested call. */
module Chat {

  /** One requested tool call; `arguments` is the JSON text the model sent. */
  datatype ToolCall = ToolCall(id: string, name: string, arguments: string)

  /** A model reply: its text and the tool calls it requests (possibly none). */
  datatype Reply = Reply(content: string, toolCalls: seq<ToolCall>)

  /** An entry of the history sent to the model. */
  datatype Message =
    | System(content: string)
    | User(content: string)
    | Assistant(content: string, toolCalls: seq<ToolCall>)
    | Tool(content: string, toolCallId: string)

  /** The model, as a function of the history it is shown.  Histories only
      grow, so this covers any scripted sequence of replies. */
  type Model = seq<Message> -> Reply

  /** `entries` are tool results answering `calls`, one per call, in order. */
  ghost predicate AnswersCalls(entries: seq<Message>, calls: seq<ToolCall>)
  {
    |entries| == |calls|
    && forall i :: 0 <= i < |calls| ==> entries[i].Tool? && entries[i].toolCallId == calls[i].id
  }

  /** A history made of blocks, each an assistant entry that requests at least
      one tool call followed by one tool entry per call carrying that call's
      id, in the order the calls were issued. */
  ghost predicate Blocks(s: seq<Message>)
    decreases |s|
  {
    s == []
    || (s[0].Assistant? && s[0].toolCalls != [] && 1 + |s[0].toolCalls| <= |s|
        && AnswersCalls(s[1..1 + |s[0].toolCalls|], s[0].toolCalls)
        && Blocks(s[1 + |s[0].toolCalls|..]))
  }

  /** Prepending one complete block to a block history gives a block history. */
  lemma BlocksCons(content: string, calls: seq<ToolCall>, results: seq<Message>, rest: seq<Message>)
    requires calls != [] && AnswersCalls(results, calls) && Blocks(rest)
    ensures Blocks([Assistant(content, calls)] + results + rest)
  {
    var s := [Assistant(content, calls)] + results + rest;
    assert s[1..1 + |calls|] == results;
    assert s[1 + |calls|..] == rest;
  }

  /** If `full` extends `h`, one complete block and then a block history,
      then it extends `h` by a block history. */
  lemma BlocksExtend(full: seq<Message>, h: seq<Message>, content: string, calls: seq<ToolCall>,
                     results: seq<Message>)
    requires calls != [] && AnswersCalls(results, calls)
    requires var h2 := h + [Assistant(content, calls)] + results;
             |h2| <= |full| && full[..|h2|] == h2 && Blocks(full[|h2|..])
    ensures |h| <= |full| && Blocks(full[|h|..])
  {
    var h2 := h + [Assistant(content, calls)] + results;
    var tail := full[|h2|..];
    assert full == h2 + tail;
    BlocksCons(content, calls, results, tail);
    assert full[|h|..] == [Assistant(content, calls)] + results + tail;
  }

  /** The number of assistant entries in `s`. */
  function AssistantCount(s: seq<Message>): nat
    decreases |s|
  {
    if s == [] then 0 else (if s[0].Assistant? then 1 else 0) + AssistantCount(s[1..])
  }

  lemma {:induction false} AssistantCountConcat(a: seq<Message>, b: seq<Message>)
    ensures AssistantCount(a + b) == AssistantCount(a) + AssistantCount(b)
    decreases |a|
  {
    if a == [] {
      assert a + b == b;
    } else {
      assert (a + b)[0] == a[0] && (a + b)[1..] == a[1..] + b;
      AssistantCountConcat(a[1..], b);
    }
  }

  /** Tool results hold no assistant entry. */
  lemma {:induction false} AnswersCallsNoAssistant(entries: seq<Message>, calls: seq<ToolCall>)
    requires AnswersCalls(entries, calls)
    ensures AssistantCount(entries) == 0
    decreases |entries|
  {
    if entries != [] {
      assert AnswersCalls(entries[1..], calls[1..]) by {
        forall i | 0 <= i < |calls[1..]|
          ensures entries[1..][i].Tool? && entries[1..][i].toolCallId == calls[1..][i].id
        {
          assert entries[1..][i] == entries[i + 1] && calls[1..][i] == calls[i + 1];
        }
      }
      AnswersCallsNoAssistant(entries[1..], calls[1..]);
    }
  }

  /** One block adds one assistant entry. */
  lemma BlockAssistantCount(h: seq<Message>, content: string, calls: seq<ToolCall>, results: seq<Message>,
                            full: seq<Message>)
    requires AnswersCalls(results, calls)
    requires var h2 := h + [Assistant(content, calls)] + results; |h2| <= |full| && full[..|h2|] == h2
    ensures var h2 := h + [Assistant(content, calls)] + results;
            AssistantCount(full[|h|..]) == 1 + AssistantCount(full[|h2|..])
  {
    var h2 := h + [Assistant(content, calls)] + results;
    assert full[|h|..] == [Assistant(content, calls)] + results + full[|h2|..];
    AssistantCountConcat([Assistant(content, calls)] + results, full[|h2|..]);
    AssistantCountConcat([Assistant(content, calls)], results);
    AnswersCallsNoAssistant(results, calls);
    assert AssistantCount([Assistant(content, calls)]) == 1 by {
      assert [Assistant(content, calls)][1..] == [];
    }
  }

  /** Every assistant entry of a block history requests at least one tool. */
  lemma {:induction false} BlocksAssistantsRequestTools(s: seq<Message>, i: int)
    requires Blocks(s) && 0 <= i < |s| && s[i].Assistant?
    ensures s[i].toolCalls != []
    decreases |s|
  {
    var n := 1 + |s[0].toolCalls|;
    if i >= n {
      assert s[n..][i - n] == s[i];
      BlocksAssistantsRequestTools(s[n..], i - n);
    } else if i > 0 {
      assert false;
    }
  }
}
