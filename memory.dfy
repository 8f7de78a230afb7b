/** Bounded conversational memory of the memory agent template
    (templates/agent-memory/agent.py): an append-only conversation, an
    insertion-ordered table of long-term facts and a working-state map, and
    the token-budgeted rendering of the context handed to the model.

    The tokenizer is a parameter `tokens: string -> nat`; timestamps, disk
    persistence and the model call are not part of this module. */
module AgentMemory {
  import opened Strings

  /** A conversation entry as handed to the model (role and content). */
  datatype Entry = Entry(role: string, content: string)

  /** A long-term fact, stored under its own `key`. */
  datatype MemoryEntry = MemoryEntry(key: string, value: string, importance: int)

  type TokenCounter = string -> nat

  /** Tokens held back for the model's response. */
  const ResponseReserve: int := 500
  /** Per-message overhead added by `count_messages_tokens`. */
  const MessageOverhead: nat := 4
  /** At most this many facts are rendered into the system entry. */
  const MaxFactsShown: nat := 10
  /** Number of most recent entries written out by `save`. */
  const SavedEntries: nat := 20
  const FactsHeader: string := "Important context from previous conversations:\n"

  // ===========================================================================
  // Token accounting
  // ===========================================================================

  /** Sum of the content tokens of `msgs`, without per-message overhead. */
  function ContentTokens(msgs: seq<Entry>, tokens: TokenCounter): nat
  {
    if msgs == [] then 0
    else ContentTokens(msgs[..|msgs| - 1], tokens) + tokens(msgs[|msgs| - 1].content)
  }

  lemma {:induction false} ContentTokensConcat(a: seq<Entry>, b: seq<Entry>, tokens: TokenCounter)
    ensures ContentTokens(a + b, tokens) == ContentTokens(a, tokens) + ContentTokens(b, tokens)
    decreases |b|
  {
    if b == [] {
      assert a + b == a;
    } else {
      assert (a + b)[..|a + b| - 1] == a + b[..|b| - 1];
      ContentTokensConcat(a, b[..|b| - 1], tokens);
    }
  }

  /** `count_messages_tokens`: content tokens plus a fixed overhead per message. */
  method CountMessagesTokens(messages: seq<Entry>, tokens: TokenCounter) returns (total: nat)
    ensures total == ContentTokens(messages, tokens) + MessageOverhead * |messages|
  {
    total := 0;
    for i := 0 to |messages|
      invariant total == ContentTokens(messages[..i], tokens) + MessageOverhead * i
    {
      assert messages[..i + 1][..i] == messages[..i];
      total := total + tokens(messages[i].content);
      total := total + MessageOverhead;
    }
    assert messages[..|messages|] == messages;
  }

  // ===========================================================================
  // Long-term facts: an insertion-ordered dictionary keyed by MemoryEntry.key
  // ===========================================================================

  ghost predicate UniqueKeys(fs: seq<MemoryEntry>)
  {
    forall i, j :: 0 <= i < j < |fs| ==> fs[i].key != fs[j].key
  }

  function FactKeys(fs: seq<MemoryEntry>): set<string>
  {
    set e | e in fs :: e.key
  }

  /** `get_fact`: the value stored under `key`, or None. */
  function FindFact(fs: seq<MemoryEntry>, key: string): (r: Option<string>)
    ensures r.None? <==> key !in FactKeys(fs)
    ensures r.Some? ==> exists i :: 0 <= i < |fs| && fs[i].key == key && fs[i].value == r.value
  {
    if fs == [] then None
    else if fs[0].key == key then Some(fs[0].value)
    else
      var r := FindFact(fs[1..], key);
      assert FactKeys(fs) == {fs[0].key} + FactKeys(fs[1..]) by {
        assert fs == [fs[0]] + fs[1..];
      }
      if r.Some? then
        assert exists i :: 0 <= i < |fs| && fs[i].key == key && fs[i].value == r.value by {
          var i :| 0 <= i < |fs[1..]| && fs[1..][i].key == key && fs[1..][i].value == r.value;
          assert fs[i + 1] == fs[1..][i];
        }
        r
      else r
  }

  /** `facts[key] = entry`: overwrite in place when the key is present (a
      Python dict keeps the key's position), append otherwise. */
  function PutFact(fs: seq<MemoryEntry>, e: MemoryEntry): seq<MemoryEntry>
  {
    if fs == [] then [e]
    else if fs[0].key == e.key then [e] + fs[1..]
    else [fs[0]] + PutFact(fs[1..], e)
  }

  /** After `add_fact(k, v, i)`, `get_fact(k)` is `v` and every other key reads
      as before. */
  lemma {:induction false} FindAfterPut(fs: seq<MemoryEntry>, e: MemoryEntry, key: string)
    ensures FindFact(PutFact(fs, e), key) == if key == e.key then Some(e.value) else FindFact(fs, key)
  {
    if fs != [] && fs[0].key != e.key {
      FindAfterPut(fs[1..], e, key);
      assert PutFact(fs, e)[1..] == PutFact(fs[1..], e);
    }
  }

  lemma FactKeysCons(x: MemoryEntry, fs: seq<MemoryEntry>)
    ensures FactKeys([x] + fs) == {x.key} + FactKeys(fs)
  {
    assert forall y :: y in [x] + fs <==> y == x || y in fs;
  }

  lemma {:induction false} PutFactKeys(fs: seq<MemoryEntry>, e: MemoryEntry)
    ensures FactKeys(PutFact(fs, e)) == FactKeys(fs) + {e.key}
  {
    if fs == [] {
      FactKeysCons(e, []);
    } else {
      FactKeysCons(fs[0], fs[1..]);
      assert fs == [fs[0]] + fs[1..];
      if fs[0].key == e.key {
        FactKeysCons(e, fs[1..]);
      } else {
        PutFactKeys(fs[1..], e);
        FactKeysCons(fs[0], PutFact(fs[1..], e));
      }
    }
  }

  lemma {:induction false} PutFactAppends(fs: seq<MemoryEntry>, e: MemoryEntry)
    requires e.key !in FactKeys(fs)
    ensures PutFact(fs, e) == fs + [e]
  {
    if fs != [] {
      FactKeysCons(fs[0], fs[1..]);
      assert fs == [fs[0]] + fs[1..];
      PutFactAppends(fs[1..], e);
    }
  }

  lemma {:induction false} PutFactOverwrites(fs: seq<MemoryEntry>, e: MemoryEntry, i: nat)
    requires UniqueKeys(fs)
    requires i < |fs| && fs[i].key == e.key
    ensures PutFact(fs, e) == fs[i := e]
  {
    if i > 0 {
      assert fs[0].key != e.key;
      assert fs[1..][i - 1].key == e.key;
      PutFactOverwrites(fs[1..], e, i - 1);
      assert fs[i := e] == [fs[0]] + fs[1..][i - 1 := e];
    }
  }

  lemma {:induction false} PutFactUnique(fs: seq<MemoryEntry>, e: MemoryEntry)
    requires UniqueKeys(fs)
    ensures UniqueKeys(PutFact(fs, e))
  {
    if e.key !in FactKeys(fs) {
      PutFactAppends(fs, e);
      var r := fs + [e];
      forall i, j | 0 <= i < j < |r| ensures r[i].key != r[j].key {
        if j == |fs| {
          assert r[i] in fs;
        }
      }
    } else {
      var x :| x in fs && x.key == e.key;
      var i :| 0 <= i < |fs| && fs[i] == x;
      PutFactOverwrites(fs, e, i);
    }
  }

  /** `add_fact` keeps keys unique; it adds `e.key` to the key set, keeps the
      position of an existing key and appends a new one at the end. */
  lemma PutFactShape(fs: seq<MemoryEntry>, e: MemoryEntry)
    requires UniqueKeys(fs)
    ensures UniqueKeys(PutFact(fs, e))
    ensures FactKeys(PutFact(fs, e)) == FactKeys(fs) + {e.key}
    ensures e.key !in FactKeys(fs) ==> PutFact(fs, e) == fs + [e]
    ensures forall i :: 0 <= i < |fs| && fs[i].key == e.key ==> PutFact(fs, e) == fs[i := e]
  {
    PutFactUnique(fs, e);
    PutFactKeys(fs, e);
    if e.key !in FactKeys(fs) {
      PutFactAppends(fs, e);
    }
    forall i | 0 <= i < |fs| && fs[i].key == e.key ensures PutFact(fs, e) == fs[i := e] {
      PutFactOverwrites(fs, e, i);
    }
  }

  // ===========================================================================
  // Rendering facts: stable sort by importance, top ten
  // ===========================================================================

  ghost predicate NonIncreasing(fs: seq<MemoryEntry>)
  {
    forall i, j :: 0 <= i < j < |fs| ==> fs[i].importance >= fs[j].importance
  }

  /** The entries of `fs` with importance `k`, in order. */
  function WithImportance(fs: seq<MemoryEntry>, k: int): seq<MemoryEntry>
  {
    if fs == [] then []
    else (if fs[0].importance == k then [fs[0]] else []) + WithImportance(fs[1..], k)
  }

  /** Inserts `e` in front of the first entry that is not more important. */
  function InsertByImportance(e: MemoryEntry, sorted: seq<MemoryEntry>): seq<MemoryEntry>
  {
    if sorted == [] then [e]
    else if sorted[0].importance > e.importance then [sorted[0]] + InsertByImportance(e, sorted[1..])
    else [e] + sorted
  }

  /** `sorted(facts, key=importance, reverse=True)`: a stable sort, most
      important first. */
  function SortByImportance(fs: seq<MemoryEntry>): seq<MemoryEntry>
  {
    if fs == [] then [] else InsertByImportance(fs[0], SortByImportance(fs[1..]))
  }

  lemma {:induction false} InsertByImportancePerm(e: MemoryEntry, s: seq<MemoryEntry>)
    ensures multiset(InsertByImportance(e, s)) == multiset(s) + multiset{e}
  {
    if s != [] && s[0].importance > e.importance {
      var rest := InsertByImportance(e, s[1..]);
      InsertByImportancePerm(e, s[1..]);
      assert InsertByImportance(e, s) == [s[0]] + rest;
      assert multiset(InsertByImportance(e, s)) == multiset{s[0]} + multiset(rest);
      assert s == [s[0]] + s[1..];
      assert multiset(s) == multiset{s[0]} + multiset(s[1..]);
    } else {
      assert InsertByImportance(e, s) == [e] + s;
    }
  }

  lemma {:induction false} InsertByImportanceBounded(e: MemoryEntry, s: seq<MemoryEntry>, b: int)
    requires e.importance <= b
    requires forall j :: 0 <= j < |s| ==> s[j].importance <= b
    ensures forall j :: 0 <= j < |InsertByImportance(e, s)| ==> InsertByImportance(e, s)[j].importance <= b
  {
    if s != [] && s[0].importance > e.importance {
      InsertByImportanceBounded(e, s[1..], b);
    }
  }

  lemma {:induction false} InsertByImportanceSorted(e: MemoryEntry, s: seq<MemoryEntry>)
    requires NonIncreasing(s)
    ensures NonIncreasing(InsertByImportance(e, s))
  {
    if s != [] && s[0].importance > e.importance {
      var rest := InsertByImportance(e, s[1..]);
      InsertByImportanceSorted(e, s[1..]);
      InsertByImportanceBounded(e, s[1..], s[0].importance);
      var r := [s[0]] + rest;
      assert r == InsertByImportance(e, s);
      forall i, j | 0 <= i < j < |r| ensures r[i].importance >= r[j].importance {
        assert r[j] == rest[j - 1];
        if i > 0 {
          assert r[i] == rest[i - 1];
        }
      }
    }
  }


  lemma WithImportanceCons(x: MemoryEntry, t: seq<MemoryEntry>, k: int)
    ensures WithImportance([x] + t, k) == (if x.importance == k then [x] else []) + WithImportance(t, k)
  {
    assert ([x] + t)[0] == x && ([x] + t)[1..] == t;
  }

  lemma {:induction false} InsertByImportanceStable(e: MemoryEntry, s: seq<MemoryEntry>, k: int)
    ensures WithImportance(InsertByImportance(e, s), k) ==
            (if e.importance == k then [e] else []) + WithImportance(s, k)
  {
    if s == [] {
      WithImportanceCons(e, [], k);
    } else if s[0].importance > e.importance {
      InsertByImportanceStable(e, s[1..], k);
      WithImportanceCons(s[0], InsertByImportance(e, s[1..]), k);
      WithImportanceCons(s[0], s[1..], k);
      assert s == [s[0]] + s[1..];
    } else {
      WithImportanceCons(e, s, k);
    }
  }

  lemma InsertByImportanceSpec(e: MemoryEntry, s: seq<MemoryEntry>)
    requires NonIncreasing(s)
    ensures NonIncreasing(InsertByImportance(e, s))
    ensures multiset(InsertByImportance(e, s)) == multiset(s) + multiset{e}
    ensures forall k :: WithImportance(InsertByImportance(e, s), k) ==
                        (if e.importance == k then [e] else []) + WithImportance(s, k)
  {
    InsertByImportanceSorted(e, s);
    InsertByImportancePerm(e, s);
    forall k ensures WithImportance(InsertByImportance(e, s), k) ==
                     (if e.importance == k then [e] else []) + WithImportance(s, k) {
      InsertByImportanceStable(e, s, k);
    }
  }

  /** The sort is ordered by importance, is a permutation of its input and is
      stable: the entries of each importance keep their original order. */
  lemma {:induction false} SortByImportanceSpec(fs: seq<MemoryEntry>)
    ensures NonIncreasing(SortByImportance(fs))
    ensures multiset(SortByImportance(fs)) == multiset(fs)
    ensures forall k :: WithImportance(SortByImportance(fs), k) == WithImportance(fs, k)
  {
    if fs != [] {
      SortByImportanceSpec(fs[1..]);
      InsertByImportanceSpec(fs[0], SortByImportance(fs[1..]));
      assert fs == [fs[0]] + fs[1..];
    }
  }

  function Min(a: nat, b: nat): nat { if a <= b then a else b }

  /** The facts `_format_facts` shows: the first ten of the sorted facts. */
  function TopFacts(fs: seq<MemoryEntry>): seq<MemoryEntry>
  {
    SortByImportance(fs)[..Min(MaxFactsShown, |SortByImportance(fs)|)]
  }

  function FactLines(fs: seq<MemoryEntry>): string
  {
    if fs == [] then "" else "- " + fs[0].key + ": " + fs[0].value + "\n" + FactLines(fs[1..])
  }

  /** `_format_facts`. */
  function FormatFacts(fs: seq<MemoryEntry>): string
  {
    if fs == [] then "" else FactsHeader + FactLines(TopFacts(fs))
  }

  /** In a list ordered by importance, no entry after position `m` is more
      important than one before it. */
  lemma SortedPrefixDominates(s: seq<MemoryEntry>, m: nat)
    requires NonIncreasing(s) && m <= |s|
    ensures forall x, y :: x in s[m..] && y in s[..m] ==> x.importance <= y.importance
  {
    forall x, y | x in s[m..] && y in s[..m] ensures x.importance <= y.importance {
      var i :| 0 <= i < |s[m..]| && s[m..][i] == x;
      var j :| 0 <= j < m && s[..m][j] == y;
      assert s[j] == y && s[m + i] == x;
    }
  }

  /** The facts shown are the first min(10, n) of the sorted facts: a
      sub-multiset of all facts, most important first. */
  lemma TopFactsSorted(fs: seq<MemoryEntry>)
    ensures |TopFacts(fs)| == Min(MaxFactsShown, |fs|)
    ensures NonIncreasing(TopFacts(fs))
    ensures multiset(TopFacts(fs)) <= multiset(fs)
  {
    var s := SortByImportance(fs);
    SortByImportanceSpec(fs);
    assert |s| == |fs| by { assert |multiset(s)| == |multiset(fs)|; }
    var m := Min(MaxFactsShown, |s|);
    assert s == s[..m] + s[m..];
    assert multiset(s) == multiset(s[..m]) + multiset(s[m..]);
  }

  /** No fact left out of the digest is more important than one shown. */
  lemma TopFactsDominate(fs: seq<MemoryEntry>)
    ensures forall x, y :: x in multiset(fs) - multiset(TopFacts(fs)) && y in TopFacts(fs) ==>
                           x.importance <= y.importance
  {
    var s := SortByImportance(fs);
    SortByImportanceSpec(fs);
    var m := Min(MaxFactsShown, |s|);
    var top, bottom := s[..m], s[m..];
    assert s == top + bottom;
    assert multiset(fs) == multiset(top) + multiset(bottom);
    SortedPrefixDominates(s, m);
    forall x: MemoryEntry, y: MemoryEntry | x in multiset(fs) - multiset(top) && y in top
      ensures x.importance <= y.importance
    {
      assert x in multiset(bottom);
    }
  }

  /** `_format_facts` is empty exactly when there are no facts; otherwise it is
      the header and one line for each of the min(10, n) most important facts,
      most important first, and no fact left out is more important than one
      shown. */
  lemma FormatFactsSpec(fs: seq<MemoryEntry>)
    ensures FormatFacts(fs) == "" <==> fs == []
    ensures fs != [] ==> FormatFacts(fs) == FactsHeader + FactLines(TopFacts(fs))
    ensures |TopFacts(fs)| == Min(MaxFactsShown, |fs|)
    ensures NonIncreasing(TopFacts(fs))
    ensures multiset(TopFacts(fs)) <= multiset(fs)
    ensures forall x, y :: x in multiset(fs) - multiset(TopFacts(fs)) && y in TopFacts(fs) ==>
                           x.importance <= y.importance
  {
    TopFactsSorted(fs);
    TopFactsDominate(fs);
  }

  // ===========================================================================
  // The rendered context
  // ===========================================================================

  /** The system entry: the prompt, followed by the facts digest only when
      facts are requested and there are any. */
  function SystemContent(prompt: string, facts: seq<MemoryEntry>, includeFacts: bool): string
  {
    if includeFacts && facts != [] then prompt + "\n\n" + FormatFacts(facts) else prompt
  }

  function OmissionNotice(cut: nat): string
  {
    "[Earlier conversation history of " + NatToString(cut) + " messages omitted to fit context window]"
  }

  /** How many of the entries before index `i` the backward walk takes when
      `used` tokens are already spent and the running total may not exceed
      `limit`; the walk stops at the first entry that does not fit. */
  function FitCount(conv: seq<Entry>, i: nat, used: int, limit: int, tokens: TokenCounter): (k: nat)
    requires i <= |conv|
    ensures k <= i
    decreases i
  {
    if i == 0 then 0
    else
      var t := tokens(conv[i - 1].content);
      if used + t > limit then 0 else 1 + FitCount(conv, i - 1, used + t, limit, tokens)
  }

  lemma ContentTokensSingle(x: Entry, tokens: TokenCounter)
    ensures ContentTokens([x], tokens) == tokens(x.content)
  {
    assert [x][..0] == [];
  }

  lemma SuffixCons(conv: seq<Entry>, i: nat)
    requires 0 < i <= |conv|
    ensures conv[i - 1..] == [conv[i - 1]] + conv[i..]
  {
  }

  /** The entries `lo..i` cost the entries `lo..i-1` plus entry `i - 1`. */
  lemma SliceTokensStep(conv: seq<Entry>, lo: nat, i: nat, tokens: TokenCounter)
    requires lo < i <= |conv|
    ensures ContentTokens(conv[lo..i], tokens) == ContentTokens(conv[lo..i - 1], tokens) + tokens(conv[i - 1].content)
  {
    assert conv[lo..i] == conv[lo..i - 1] + [conv[i - 1]];
    ContentTokensConcat(conv[lo..i - 1], [conv[i - 1]], tokens);
    ContentTokensSingle(conv[i - 1], tokens);
  }

  /** When the walk takes anything, the taken entries fit the limit. */
  lemma {:induction false} FitCountFits(conv: seq<Entry>, i: nat, used: int, limit: int, tokens: TokenCounter)
    requires i <= |conv|
    ensures var k := FitCount(conv, i, used, limit, tokens);
            k > 0 ==> used + ContentTokens(conv[i - k..i], tokens) <= limit
  {
    var k := FitCount(conv, i, used, limit, tokens);
    if k > 0 {
      var t := tokens(conv[i - 1].content);
      FitCountFits(conv, i - 1, used + t, limit, tokens);
      SliceTokensStep(conv, i - k, i, tokens);
    }
  }

  /** When the walk stops early, the newest entry it did not take would not
      have fitted beside the ones taken. */
  lemma {:induction false} FitCountStops(conv: seq<Entry>, i: nat, used: int, limit: int, tokens: TokenCounter)
    requires i <= |conv|
    ensures var k := FitCount(conv, i, used, limit, tokens);
            k < i ==> used + ContentTokens(conv[i - k..i], tokens) + tokens(conv[i - k - 1].content) > limit
  {
    var k := FitCount(conv, i, used, limit, tokens);
    if k < i {
      var t := tokens(conv[i - 1].content);
      if used + t <= limit {
        assert k == 1 + FitCount(conv, i - 1, used + t, limit, tokens);
        FitCountStops(conv, i - 1, used + t, limit, tokens);
        SliceTokensStep(conv, i - k, i, tokens);
      } else {
        assert conv[i..i] == [];
      }
    }
  }

  /** Number of conversation entries `get_conversation_context` includes. */
  function KeptCount(conv: seq<Entry>, facts: seq<MemoryEntry>, prompt: string, includeFacts: bool,
                     maxContextTokens: int, tokens: TokenCounter): nat
  {
    var sys := tokens(SystemContent(prompt, facts, includeFacts));
    FitCount(conv, |conv|, sys, maxContextTokens - sys - ResponseReserve, tokens)
  }

  /** The message list `get_conversation_context` returns. */
  function RenderContext(conv: seq<Entry>, facts: seq<MemoryEntry>, prompt: string, includeFacts: bool,
                         maxContextTokens: int, tokens: TokenCounter): seq<Entry>
  {
    var k := KeptCount(conv, facts, prompt, includeFacts, maxContextTokens, tokens);
    [Entry("system", SystemContent(prompt, facts, includeFacts))]
      + (if k < |conv| then [Entry("system", OmissionNotice(|conv| - k))] else [])
      + conv[|conv| - k..]
  }

  /** The shape of the rendered context: one system entry first; an omission
      notice right after it exactly when entries were left out, reporting how
      many; then a contiguous suffix of the conversation in chronological
      order. */
  lemma RenderContextShape(conv: seq<Entry>, facts: seq<MemoryEntry>, prompt: string, includeFacts: bool,
                           maxContextTokens: int, tokens: TokenCounter)
    ensures var k := KeptCount(conv, facts, prompt, includeFacts, maxContextTokens, tokens);
            var r := RenderContext(conv, facts, prompt, includeFacts, maxContextTokens, tokens);
            && k <= |conv|
            && |r| == 1 + (if k < |conv| then 1 else 0) + k
            && r[0] == Entry("system", SystemContent(prompt, facts, includeFacts))
            && (k < |conv| ==> r[1] == Entry("system", OmissionNotice(|conv| - k)))
            && r[|r| - k..] == conv[|conv| - k..]
  {
    var k := KeptCount(conv, facts, prompt, includeFacts, maxContextTokens, tokens);
    var head := [Entry("system", SystemContent(prompt, facts, includeFacts))]
      + (if k < |conv| then [Entry("system", OmissionNotice(|conv| - k))] else []);
    var r := RenderContext(conv, facts, prompt, includeFacts, maxContextTokens, tokens);
    assert r == head + conv[|conv| - k..];
    assert r[|head|..] == conv[|conv| - k..];
  }

  /** The system tokens plus the included tokens stay within
      `max_context_tokens - system tokens - 500` (the system entry is counted
      twice, as the source does), and the next older entry would not fit. */
  lemma RenderContextBudget(conv: seq<Entry>, facts: seq<MemoryEntry>, prompt: string, includeFacts: bool,
                            maxContextTokens: int, tokens: TokenCounter)
    ensures var sys := tokens(SystemContent(prompt, facts, includeFacts));
            var k := KeptCount(conv, facts, prompt, includeFacts, maxContextTokens, tokens);
            && (k > 0 ==> sys + ContentTokens(conv[|conv| - k..], tokens) <= maxContextTokens - sys - ResponseReserve)
            && (k < |conv| ==> sys + ContentTokens(conv[|conv| - k..], tokens) + tokens(conv[|conv| - k - 1].content)
                                 > maxContextTokens - sys - ResponseReserve)
  {
    var sys := tokens(SystemContent(prompt, facts, includeFacts));
    var k := KeptCount(conv, facts, prompt, includeFacts, maxContextTokens, tokens);
    FitCountFits(conv, |conv|, sys, maxContextTokens - sys - ResponseReserve, tokens);
    FitCountStops(conv, |conv|, sys, maxContextTokens - sys - ResponseReserve, tokens);
    assert conv[|conv| - k..|conv|] == conv[|conv| - k..];
  }

  /** The entries `save` writes out: the last twenty (all of them when fewer). */
  function SavedConversation(conv: seq<Entry>): (r: seq<Entry>)
    ensures |r| == Min(SavedEntries, |conv|)
    ensures r == conv[|conv| - |r|..]
  {
    if |conv| <= SavedEntries then conv else conv[|conv| - SavedEntries..]
  }

  /** `working_state.get(key, default)`. */
  function Lookup<V>(m: map<string, V>, key: string, default: V): V
  {
    if key in m then m[key] else default
  }

  /** After `set_state(k, v)`, `get_state(k)` is `v` whatever the default, and
      every other key reads as before. */
  lemma LookupAfterSet<V>(m: map<string, V>, key: string, value: V, other: string, default: V)
    ensures Lookup(m[key := value], key, default) == value
    ensures other != key ==> Lookup(m[key := value], other, default) == Lookup(m, other, default)
    ensures key !in m ==> Lookup(m, key, default) == default
  {
  }

  // ===========================================================================
  // The memory object
  // ===========================================================================

  /** The backwards walk of `get_conversation_context`: starting from the
      newest message, keeps copying messages while the running token total
      stays within `limit`; the kept messages are the newest `FitCount` ones. */
  method KeepRecent(conv: seq<Entry>, used: int, limit: int, tokens: TokenCounter)
    returns (kept: seq<Entry>)
    ensures kept == conv[|conv| - FitCount(conv, |conv|, used, limit, tokens)..]
  {
    ghost var k := FitCount(conv, |conv|, used, limit, tokens);
    var usedTokens := used;
    kept := [];
    var i := |conv|;
    while i > 0
      invariant 0 <= i <= |conv|
      invariant kept == conv[i..]
      invariant k == (|conv| - i) + FitCount(conv, i, usedTokens, limit, tokens)
    {
      var msg := conv[i - 1];
      var msgTokens := tokens(msg.content);
      if usedTokens + msgTokens > limit {
        break;
      }
      kept := [Entry(msg.role, msg.content)] + kept;
      SuffixCons(conv, i);
      usedTokens := usedTokens + msgTokens;
      i := i - 1;
    }
  }

  /** `RenderContext` in terms of the system content `sys` and the entries
      `kept` that the backward walk took. */
  lemma RenderContextFrom(conv: seq<Entry>, facts: seq<MemoryEntry>, prompt: string, includeFacts: bool,
                          maxContextTokens: int, tokens: TokenCounter, sys: string, kept: seq<Entry>)
    requires sys == SystemContent(prompt, facts, includeFacts)
    requires kept == conv[|conv| - FitCount(conv, |conv|, tokens(sys), maxContextTokens - tokens(sys) - ResponseReserve, tokens)..]
    ensures RenderContext(conv, facts, prompt, includeFacts, maxContextTokens, tokens)
              == [Entry("system", sys)]
                 + ((if |kept| < |conv| then [Entry("system", OmissionNotice(|conv| - |kept|))] else []) + kept)
  {
    var k := KeptCount(conv, facts, prompt, includeFacts, maxContextTokens, tokens);
    assert k == FitCount(conv, |conv|, tokens(sys), maxContextTokens - tokens(sys) - ResponseReserve, tokens);
    assert |kept| == k;
    var notice := if k < |conv| then [Entry("system", OmissionNotice(|conv| - k))] else [];
    assert RenderContext(conv, facts, prompt, includeFacts, maxContextTokens, tokens)
           == [Entry("system", sys)] + notice + kept;
  }

  class Memory<V> {
    const userId: string
    const maxContextTokens: int
    /** Short-term memory: the conversation, oldest first. */
    var conversation: seq<Entry>
    /** Long-term memory: facts in insertion order, keys unique. */
    var facts: seq<MemoryEntry>
    /** Working memory. */
    var workingState: map<string, V>

    ghost predicate Valid()
      reads this
    {
      UniqueKeys(facts)
    }

    constructor (userId: string, maxContextTokens: int)
      ensures Valid()
      ensures this.userId == userId && this.maxContextTokens == maxContextTokens
      ensures conversation == [] && facts == [] && workingState == map[]
    {
      this.userId := userId;
      this.maxContextTokens := maxContextTokens;
      conversation := [];
      facts := [];
      workingState := map[];
    }

    /** `add_message`: appends one entry and changes nothing else. */
    method AddMessage(role: string, content: string)
      requires Valid()
      modifies this
      ensures Valid()
      ensures conversation == old(conversation) + [Entry(role, content)]
      ensures facts == old(facts) && workingState == old(workingState)
    {
      conversation := conversation + [Entry(role, content)];
    }

    /** `get_conversation_context`: reads the memory and changes nothing. */
    method GetConversationContext(systemPrompt: string, includeFacts: bool, tokens: TokenCounter)
      returns (messages: seq<Entry>)
      ensures messages == RenderContext(conversation, facts, systemPrompt, includeFacts, maxContextTokens, tokens)
    {
      var systemContent := SystemContent(systemPrompt, facts, includeFacts);
      messages := [Entry("system", systemContent)];

      var usedTokens: int := tokens(systemContent);
      var remainingTokens := maxContextTokens - usedTokens - ResponseReserve;
      var toInclude := KeepRecent(conversation, usedTokens, remainingTokens, tokens);
      RenderContextFrom(conversation, facts, systemPrompt, includeFacts, maxContextTokens, tokens,
                        systemContent, toInclude);
      ghost var kept := toInclude;

      if |toInclude| < |conversation| {
        var cutCount := |conversation| - |toInclude|;
        toInclude := [Entry("system", OmissionNotice(cutCount))] + toInclude;
      } else {
        assert toInclude == [] + kept;
      }
      messages := messages + toInclude;
    }

    /** `add_fact`: stores the fact under its key and changes nothing else. */
    method AddFact(key: string, value: string, importance: int)
      requires Valid()
      modifies this
      ensures Valid()
      ensures facts == PutFact(old(facts), MemoryEntry(key, value, importance))
      ensures conversation == old(conversation) && workingState == old(workingState)
    {
      PutFactShape(facts, MemoryEntry(key, value, importance));
      facts := PutFact(facts, MemoryEntry(key, value, importance));
    }

    /** `get_fact`: the value stored under `key`, absent exactly when no
        fact has that key. */
    function GetFact(key: string): (r: Option<string>)
      reads this
      ensures r.None? <==> key !in FactKeys(facts)
      ensures r.Some? ==> exists i :: 0 <= i < |facts| && facts[i].key == key && facts[i].value == r.value
    {
      FindFact(facts, key)
    }

    /** `set_state`: changes only the working state, at `key`. */
    method SetState(key: string, value: V)
      requires Valid()
      modifies this
      ensures Valid()
      ensures workingState == old(workingState)[key := value]
      ensures conversation == old(conversation) && facts == old(facts)
    {
      workingState := workingState[key := value];
    }

    /** `get_state`: the value set under `key`, or `default` when none was. */
    function GetState(key: string, default: V): (r: V)
      reads this
      ensures key in workingState ==> r == workingState[key]
      ensures key !in workingState ==> r == default
    {
      Lookup(workingState, key, default)
    }
  }

  // ===========================================================================
  // Worked examples
  // ===========================================================================

  /** Token counts for the worked examples. */
  function ExampleTokens(s: string): nat
  {
    if s == "You are helpful" then 10
    else if s == "m1" then 2000
    else if s == "m2" then 50
    else if s == "m3" then 30
    else if s == "sys" then 1000
    else if s == "msg" then 2000
    else 0
  }

  lemma OneOmittedNotice()
    ensures OmissionNotice(1) == "[Earlier conversation history of " + "1" + " messages omitted to fit context window]"
  {
    assert NatToString(1) == "1";
  }

  /** A system prompt of 10 tokens and three earlier messages of 2000, 50 and 30
      tokens with a 2060-token window: the two newest messages are kept, in
      order, after a notice that one message was omitted. */
  lemma ThreeMessageWindowExample()
    ensures var conv := [Entry("user", "m1"), Entry("assistant", "m2"), Entry("user", "m3")];
            RenderContext(conv, [], "You are helpful", true, 2060, ExampleTokens)
              == [Entry("system", "You are helpful"),
                  Entry("system", "[Earlier conversation history of " + "1" + " messages omitted to fit context window]"),
                  Entry("assistant", "m2"), Entry("user", "m3")]
  {
    var conv := [Entry("user", "m1"), Entry("assistant", "m2"), Entry("user", "m3")];
    assert ExampleTokens("m3") == 30 && ExampleTokens("m2") == 50 && ExampleTokens("m1") == 2000;
    assert FitCount(conv, 1, 90, 1550, ExampleTokens) == 0;
    assert FitCount(conv, 2, 40, 1550, ExampleTokens) == 1;
    assert FitCount(conv, 3, 10, 1550, ExampleTokens) == 2;
    assert SystemContent("You are helpful", [], true) == "You are helpful";
    assert KeptCount(conv, [], "You are helpful", true, 2060, ExampleTokens) == 2;
    OneOmittedNotice();
    assert conv[1..] == [Entry("assistant", "m2"), Entry("user", "m3")];
  }

  /** Because the system entry is counted twice, a 1000-token system prompt and
      a 2000-token message are not rendered together in a 4000-token window,
      although 1000 + 2000 + 500 <= 4000. */
  lemma SystemTokensCountedTwiceExample()
    ensures KeptCount([Entry("user", "msg")], [], "sys", true, 4000, ExampleTokens) == 0
  {
    assert ExampleTokens("msg") == 2000;
  }
}
