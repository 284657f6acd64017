/**
 * shex/agent.py: the agent's conversation bookkeeping. The LLM client is not
 * modelled: a streamed response is an input sequence of chunk deltas, and a
 * tool call's parsed JSON arguments and its process outcome are inputs.
 */
module Agent {
  import opened Wrappers
  import opened Text
  import Tools

  /** A tool call as the agent stores it: `{"id", "function": {"name", "arguments"}}`. */
  datatype ToolCall = ToolCall(id: string, name: string, arguments: string)

  /**
   * One chat message. `role` is the value of the "role" key; a message
   * loaded from a file without that key behaves like any role other than
   * "system" and "user", which is all the code asks of it.
   */
  datatype Message = Message(role: string, content: Option<string>,
                             toolCalls: Option<seq<ToolCall>>, toolCallId: Option<string>)

  function SystemMessage(prompt: string): Message {
    Message("system", Some(prompt), None, None)
  }

  function UserMessage(text: string): Message {
    Message("user", Some(text), None, None)
  }

  // ---------------------------------------------------------------------------
  // save_context / load_context

  /** The cap on saved messages, whatever the number of turns. */
  const MaxSavedMessages := 50

  /** `[m for m in msgs if m.get("role") != "system"]`. */
  function NonSystem(msgs: seq<Message>): (r: seq<Message>)
    ensures |r| <= |msgs|
    ensures forall k :: 0 <= k < |r| ==> r[k].role != "system"
    ensures (forall k :: 0 <= k < |msgs| ==> msgs[k].role != "system") ==> r == msgs
  {
    if msgs == [] then []
    else
      var last := msgs[|msgs| - 1];
      NonSystem(msgs[..|msgs| - 1]) + (if last.role == "system" then [] else [last])
  }

  /** Filtering a concatenation filters each part, in order. */
  lemma {:induction false} NonSystemAppend(a: seq<Message>, b: seq<Message>)
    ensures NonSystem(a + b) == NonSystem(a) + NonSystem(b)
    decreases |b|
  {
    if b == [] {
      assert a + b == a;
    } else {
      var last := b[|b| - 1];
      assert (a + b)[..|a + b| - 1] == a + b[..|b| - 1];
      NonSystemAppend(a, b[..|b| - 1]);
    }
  }

  function CountUsers(msgs: seq<Message>): (n: nat)
    ensures n <= |msgs|
  {
    if msgs == [] then 0
    else CountUsers(msgs[..|msgs| - 1]) + (if msgs[|msgs| - 1].role == "user" then 1 else 0)
  }

  /** `[i for i, m in enumerate(msgs) if m.get("role") == "user"]`. */
  function UserIndices(msgs: seq<Message>): (r: seq<nat>)
    ensures |r| == CountUsers(msgs)
    ensures forall j :: 0 <= j < |r| ==> r[j] < |msgs| && msgs[r[j]].role == "user"
    ensures forall j, k :: 0 <= j < k < |r| ==> r[j] < r[k]
    ensures forall i :: 0 <= i < |msgs| && msgs[i].role == "user" ==> i in r
  {
    if msgs == [] then []
    else
      var prefix := UserIndices(msgs[..|msgs| - 1]);
      if msgs[|msgs| - 1].role == "user" then prefix + [|msgs| - 1] else prefix
  }

  /** The turn limit of `save_context`: keep from the `maxTurns`-th last user message on. */
  function KeepTurns(ctx: seq<Message>, maxTurns: int): (r: seq<Message>)
    ensures IsSuffix(r, ctx)
    ensures maxTurns <= 0 ==> r == []
    ensures 0 < maxTurns && CountUsers(ctx) <= maxTurns ==> r == ctx
  {
    var idx := UserIndices(ctx);
    if |idx| > maxTurns then
      if maxTurns > 0 then ctx[idx[|idx| - maxTurns]..] else []
    else if maxTurns <= 0 then []
    else ctx
  }

  /** The safety cap of `save_context`: at most the last 50 messages. */
  function CapMessages(ctx: seq<Message>): (r: seq<Message>)
    ensures |r| <= MaxSavedMessages
    ensures IsSuffix(r, ctx)
    ensures |r| == if |ctx| > MaxSavedMessages then MaxSavedMessages else |ctx|
    ensures |ctx| <= MaxSavedMessages ==> r == ctx
  {
    if |ctx| > MaxSavedMessages then ctx[|ctx| - MaxSavedMessages..] else ctx
  }

  /** `r` is a contiguous tail of `s`. */
  predicate IsSuffix<T(==)>(r: seq<T>, s: seq<T>) {
    |r| <= |s| && r == s[|s| - |r|..]
  }

  /** A tail of a tail is a tail. */
  lemma SuffixOfSuffix<T>(a: seq<T>, b: seq<T>, c: seq<T>)
    requires IsSuffix(a, b) && IsSuffix(b, c)
    ensures IsSuffix(a, c)
  {
    assert c[|c| - |b|..][|b| - |a|..] == c[|c| - |a|..];
  }

  lemma NoSystemInSuffix(r: seq<Message>, ctx: seq<Message>)
    requires IsSuffix(r, ctx)
    requires forall k :: 0 <= k < |ctx| ==> ctx[k].role != "system"
    ensures forall k :: 0 <= k < |r| ==> r[k].role != "system"
  {
    forall k | 0 <= k < |r|
      ensures r[k].role != "system"
    {
      assert r[k] == ctx[|ctx| - |r| + k];
    }
  }

  /** The list `save_context` writes to the context file. */
  function SavedContext(messages: seq<Message>, maxTurns: int): (r: seq<Message>)
    ensures |r| <= MaxSavedMessages
    ensures forall k :: 0 <= k < |r| ==> r[k].role != "system"
    ensures IsSuffix(r, NonSystem(messages))
    ensures var kept := KeepTurns(NonSystem(messages), maxTurns);
            IsSuffix(r, kept) && |r| == if |kept| > MaxSavedMessages then MaxSavedMessages else |kept|
    ensures maxTurns <= 0 ==> r == []
  {
    var ctx := NonSystem(messages);
    var kept := KeepTurns(ctx, maxTurns);
    var r := CapMessages(kept);
    SuffixOfSuffix(r, kept, ctx);
    NoSystemInSuffix(r, ctx);
    r
  }

  /** Counting users in a suffix that starts at the j-th user message gives the users from j on. */
  lemma {:induction false} UsersFromIndex(msgs: seq<Message>, j: nat)
    requires j < |UserIndices(msgs)|
    ensures CountUsers(msgs[UserIndices(msgs)[j]..]) == |UserIndices(msgs)| - j
    decreases |msgs|
  {
    var pre := msgs[..|msgs| - 1];
    var last := msgs[|msgs| - 1];
    var idx := UserIndices(msgs);
    var p := idx[j];
    var tail := msgs[p..];
    assert tail[..|tail| - 1] == pre[p..] || p == |msgs| - 1;
    if last.role == "user" && j == |idx| - 1 {
      assert p == |msgs| - 1;
      assert tail == [last];
      assert tail[..0] == [];
    } else {
      assert j < |UserIndices(pre)| && idx[j] == UserIndices(pre)[j];
      assert p < |pre|;
      assert tail[..|tail| - 1] == pre[p..];
      UsersFromIndex(pre, j);
    }
  }

  /**
   * With more than `maxTurns > 0` user messages, the kept list starts at the
   * `maxTurns`-th last user message and holds exactly `maxTurns` of them;
   * otherwise (for a positive limit) it holds them all. Either way at most
   * `maxTurns` user messages are kept.
   */
  lemma KeepTurnsCount(ctx: seq<Message>, maxTurns: int)
    requires maxTurns > 0
    ensures var kept := KeepTurns(ctx, maxTurns);
            && CountUsers(kept) == (if CountUsers(ctx) > maxTurns then maxTurns else CountUsers(ctx))
            && (CountUsers(ctx) > maxTurns ==> kept != [] && kept[0].role == "user")
  {
    var idx := UserIndices(ctx);
    var kept := KeepTurns(ctx, maxTurns);
    if |idx| > maxTurns {
      var p := idx[|idx| - maxTurns];
      assert kept == ctx[p..];
      UsersFromIndex(ctx, |idx| - maxTurns);
      assert kept[0] == ctx[p];
    } else {
      assert kept == ctx;
    }
  }

  /** Dropping messages from the front never adds user messages. */
  lemma {:induction false} CountUsersSuffix(msgs: seq<Message>, p: nat)
    requires p <= |msgs|
    ensures CountUsers(msgs[p..]) <= CountUsers(msgs)
    decreases |msgs|
  {
    if p < |msgs| {
      var pre := msgs[..|msgs| - 1];
      assert msgs[p..][..|msgs| - p - 1] == pre[p..];
      CountUsersSuffix(pre, p);
    } else {
      assert msgs[p..] == [];
    }
  }

  /** The saved context never holds more than `maxTurns` user messages. */
  lemma SavedContextTurns(messages: seq<Message>, maxTurns: int)
    ensures CountUsers(SavedContext(messages, maxTurns)) <= if maxTurns > 0 then maxTurns else 0
  {
    if maxTurns > 0 {
      CappedTurns(KeepTurns(NonSystem(messages), maxTurns), NonSystem(messages), maxTurns);
    }
  }

  /** Capping the kept turns to 50 messages cannot add a user message. */
  lemma CappedTurns(kept: seq<Message>, ctx: seq<Message>, maxTurns: int)
    requires maxTurns > 0 && kept == KeepTurns(ctx, maxTurns)
    ensures CountUsers(CapMessages(kept)) <= maxTurns
  {
    KeepTurnsCount(ctx, maxTurns);
    assert CountUsers(kept) <= maxTurns;
    var capped := CapMessages(kept);
    assert capped == kept[|kept| - |capped|..];
    CountUsersSuffix(kept, |kept| - |capped|);
  }

  /**
   * A conversation that already fits — no more than `maxTurns` user messages
   * and 50 messages after dropping the system prompt — is saved unchanged.
   */
  lemma SavedContextUnchanged(messages: seq<Message>, maxTurns: int)
    requires maxTurns > 0
    requires CountUsers(NonSystem(messages)) <= maxTurns
    requires |NonSystem(messages)| <= MaxSavedMessages
    ensures SavedContext(messages, maxTurns) == NonSystem(messages)
  {
  }

  /** The context file as `load_context` finds it. */
  datatype ContextFile =
    | Missing                      // `path.exists()` is false
    | Unusable                     // unreadable, not JSON, or an element without `.get`
    | NotAList                     // valid JSON, but not a list
    | MessageList(msgs: seq<Message>)

  // ---------------------------------------------------------------------------
  // The agent object

  class ShexAgent {
    /** `self.messages`, the conversation sent to the model. */
    var messages: seq<Message>
    /** The prompt built from the system information by `_init_system_message`. */
    const systemPrompt: string

    /** `__init__` followed by `_init_system_message`. */
    constructor (systemPrompt: string)
      ensures this.systemPrompt == systemPrompt
      ensures messages == [SystemMessage(systemPrompt)]
    {
      this.systemPrompt := systemPrompt;
      messages := [SystemMessage(systemPrompt)];
    }

    /** `clear_history`: back to the system message alone. */
    method ClearHistory()
      modifies this
      ensures messages == [SystemMessage(systemPrompt)]
    {
      messages := [SystemMessage(systemPrompt)];
    }

    /** `load_context`: append the non-system messages of a list file; otherwise do nothing. */
    method LoadContext(file: ContextFile)
      modifies this
      ensures file.MessageList? ==> messages == old(messages) + NonSystem(file.msgs)
      ensures !file.MessageList? ==> messages == old(messages)
    {
      if file.MessageList? {
        messages := messages + NonSystem(file.msgs);
      }
    }

    /** The first step of `run`: append the user's input. */
    method AddUserInput(text: string)
      modifies this
      ensures messages == old(messages) + [UserMessage(text)]
    {
      messages := messages + [UserMessage(text)];
    }
  }

  /**
   * Loading a context after a fresh start: the non-system part of the
   * history, which `save_context` starts from, is the loaded file's
   * non-system messages.
   */
  lemma LoadAfterInit(prompt: string, loaded: seq<Message>)
    ensures NonSystem([SystemMessage(prompt)] + NonSystem(loaded)) == NonSystem(loaded)
  {
    NonSystemAppend([SystemMessage(prompt)], NonSystem(loaded));
    assert NonSystem([SystemMessage(prompt)]) == [] by {
      assert [SystemMessage(prompt)][..0] == [];
    }
  }

  /**
   * Save, start afresh, load, save again: the second save writes the same
   * list as the first.
   */
  lemma SaveLoadSave(prompt: string, messages: seq<Message>, maxTurns: int)
    ensures var saved := SavedContext(messages, maxTurns);
            SavedContext([SystemMessage(prompt)] + NonSystem(saved), maxTurns) == saved
  {
    var saved := SavedContext(messages, maxTurns);
    var history := [SystemMessage(prompt)] + NonSystem(saved);
    assert NonSystem(saved) == saved;
    LoadAfterInit(prompt, saved);
    if maxTurns > 0 {
      SavedContextTurns(messages, maxTurns);
      SavedContextUnchanged(history, maxTurns);
    }
  }

  // ---------------------------------------------------------------------------
  // Streamed tool calls

  /** `tc.func` of a streamed fragment; empty strings stand for missing values. */
  datatype FunctionDelta = FunctionDelta(name: string, arguments: string)

  /** One `tc` of `delta.tool_calls`. An empty `id` stands for a missing one. */
  datatype ToolCallDelta = ToolCallDelta(index: Option<nat>, id: string, func: Option<FunctionDelta>)

  /** `chunk.choices[0].delta`: a piece of text and tool-call fragments. */
  datatype ChunkDelta = ChunkDelta(content: string, toolCalls: seq<ToolCallDelta>)

  const EmptyCall := ToolCall("", "", "")

  /** The effect of one fragment on the `tool_calls` list. */
  function ApplyDelta(calls: seq<ToolCall>, tc: ToolCallDelta): (r: seq<ToolCall>)
    ensures tc.index.None? ==> r == calls
    ensures tc.index.Some? ==> var k := tc.index.value;
      && |r| == (if |calls| > k then |calls| else k + 1)
      && (forall j :: 0 <= j < |r| && j != k ==> r[j] == if j < |calls| then calls[j] else EmptyCall)
      && var before := if k < |calls| then calls[k] else EmptyCall;
         && r[k].id == (if tc.id != "" then tc.id else before.id)
         && r[k].name == (if tc.func.Some? && tc.func.value.name != "" then tc.func.value.name
                          else before.name)
         && r[k].arguments == before.arguments + (if tc.func.Some? then tc.func.value.arguments else "")
  {
    match tc.index
    case None => calls
    case Some(k) =>
      var padded := if |calls| <= k then calls + seq(k + 1 - |calls|, _ => EmptyCall) else calls;
      var e := padded[k];
      var e1 := if tc.id != "" then e.(id := tc.id) else e;
      var e2 := match tc.func
                case None => e1
                case Some(f) =>
                  var named := if f.name != "" then e1.(name := f.name) else e1;
                  if f.arguments != "" then named.(arguments := named.arguments + f.arguments) else named;
      padded[k := e2]
  }

  /** The `tool_calls` list after a sequence of fragments, starting from `[]`. */
  function Accumulate(ds: seq<ToolCallDelta>): seq<ToolCall> {
    if ds == [] then [] else ApplyDelta(Accumulate(ds[..|ds| - 1]), ds[|ds| - 1])
  }

  // A reference description of the accumulated list, entry by entry.

  /** One more than the largest index used, or 0. */
  function Span(ds: seq<ToolCallDelta>): nat {
    if ds == [] then 0
    else
      var s := Span(ds[..|ds| - 1]);
      match ds[|ds| - 1].index
      case None => s
      case Some(k) => if s > k then s else k + 1
  }

  /** The in-order concatenation of the argument fragments for index `k`. */
  function ArgumentsFor(ds: seq<ToolCallDelta>, k: nat): string {
    if ds == [] then ""
    else
      var d := ds[|ds| - 1];
      ArgumentsFor(ds[..|ds| - 1], k)
        + (if d.index == Some(k) && d.func.Some? then d.func.value.arguments else "")
  }

  /** The last non-empty id received for index `k`, or "". */
  function LastIdFor(ds: seq<ToolCallDelta>, k: nat): string {
    if ds == [] then ""
    else
      var d := ds[|ds| - 1];
      if d.index == Some(k) && d.id != "" then d.id else LastIdFor(ds[..|ds| - 1], k)
  }

  /** The last non-empty function name received for index `k`, or "". */
  function LastNameFor(ds: seq<ToolCallDelta>, k: nat): string {
    if ds == [] then ""
    else
      var d := ds[|ds| - 1];
      if d.index == Some(k) && d.func.Some? && d.func.value.name != "" then d.func.value.name
      else LastNameFor(ds[..|ds| - 1], k)
  }

  /**
   * The accumulated list has one entry per index up to the largest one seen;
   * entry `k` holds the last id and name received for `k` and the in-order
   * concatenation of its argument fragments (an index never mentioned gets
   * an empty entry).
   */
  lemma {:induction false} AccumulateSpec(ds: seq<ToolCallDelta>)
    ensures |Accumulate(ds)| == Span(ds)
    ensures forall k :: 0 <= k < |Accumulate(ds)| ==>
              Accumulate(ds)[k] == ToolCall(LastIdFor(ds, k), LastNameFor(ds, k), ArgumentsFor(ds, k))
  {
    if ds != [] {
      var pre := ds[..|ds| - 1];
      AccumulateSpec(pre);
      forall k | Span(pre) <= k
        ensures LastIdFor(pre, k) == "" && LastNameFor(pre, k) == "" && ArgumentsFor(pre, k) == ""
      {
        Untouched(pre, k);
      }
    }
  }

  /** An index at or beyond the span was never the target of a fragment. */
  lemma {:induction false} Untouched(ds: seq<ToolCallDelta>, k: nat)
    requires Span(ds) <= k
    ensures LastIdFor(ds, k) == "" && LastNameFor(ds, k) == "" && ArgumentsFor(ds, k) == ""
  {
    if ds != [] {
      Untouched(ds[..|ds| - 1], k);
    }
  }

  /** `full_content` and `tool_calls` after the `for chunk in response` loop of `run`. */
  method CollectStream(chunks: seq<ChunkDelta>) returns (fullContent: string, calls: seq<ToolCall>)
    ensures fullContent == Concat(ChunkContents(chunks))
    ensures calls == Accumulate(AllFragments(chunks))
  {
    fullContent, calls := "", [];
    for c := 0 to |chunks|
      invariant fullContent == Concat(ChunkContents(chunks[..c]))
      invariant calls == Accumulate(AllFragments(chunks[..c]))
    {
      var delta := chunks[c];
      StreamStep(chunks, c);
      if delta.content != "" {
        fullContent := fullContent + delta.content;
      }
      calls := AccumulateChunk(calls, AllFragments(chunks[..c]), delta.toolCalls);
    }
    assert chunks[..|chunks|] == chunks;
  }

  /** The inner `for tc in delta.tool_calls` loop over one chunk's fragments. */
  method AccumulateChunk(calls: seq<ToolCall>, ghost before: seq<ToolCallDelta>, frags: seq<ToolCallDelta>)
    returns (r: seq<ToolCall>)
    requires calls == Accumulate(before)
    ensures r == Accumulate(before + frags)
  {
    r := calls;
    assert before + frags[..0] == before;
    for t := 0 to |frags|
      invariant r == Accumulate(before + frags[..t])
    {
      AccumulateOneMore(before + frags[..t], frags[t]);
      assert before + frags[..t + 1] == (before + frags[..t]) + [frags[t]];
      r := AccumulateDelta(r, frags[t]);
    }
    assert frags[..|frags|] == frags;
  }

  lemma StreamStep(chunks: seq<ChunkDelta>, c: nat)
    requires c < |chunks|
    ensures ChunkContents(chunks[..c + 1]) == ChunkContents(chunks[..c]) + [chunks[c].content]
    ensures Concat(ChunkContents(chunks[..c + 1])) == Concat(ChunkContents(chunks[..c])) + chunks[c].content
    ensures AllFragments(chunks[..c + 1]) == AllFragments(chunks[..c]) + chunks[c].toolCalls
  {
    assert chunks[..c + 1][..c] == chunks[..c];
    var xs := ChunkContents(chunks[..c + 1]);
    assert xs[..|xs| - 1] == ChunkContents(chunks[..c]);
  }

  lemma AccumulateOneMore(ds: seq<ToolCallDelta>, d: ToolCallDelta)
    ensures Accumulate(ds + [d]) == ApplyDelta(Accumulate(ds), d)
  {
    assert (ds + [d])[..|ds|] == ds;
  }

  /** The text pieces of a stream, in order. */
  function ChunkContents(chunks: seq<ChunkDelta>): (r: seq<string>)
    ensures |r| == |chunks|
  {
    if chunks == [] then [] else ChunkContents(chunks[..|chunks| - 1]) + [chunks[|chunks| - 1].content]
  }

  /** All tool-call fragments of a stream, in order. */
  function AllFragments(chunks: seq<ChunkDelta>): seq<ToolCallDelta> {
    if chunks == [] then [] else AllFragments(chunks[..|chunks| - 1]) + chunks[|chunks| - 1].toolCalls
  }

  /**
   * The body of `for tc in delta.tool_calls`: pad the list with empty entries
   * up to index `tc.index`, then merge the fragment into that entry.
   */
  method AccumulateDelta(calls: seq<ToolCall>, tc: ToolCallDelta) returns (r: seq<ToolCall>)
    ensures r == ApplyDelta(calls, tc)
  {
    r := calls;
    if tc.index.Some? {
      var k := tc.index.value;
      while |r| <= k
        invariant |calls| <= |r| <= (if |calls| > k then |calls| else k + 1)
        invariant r[..|calls|] == calls
        invariant forall j :: |calls| <= j < |r| ==> r[j] == EmptyCall
        decreases k + 1 - |r|
      {
        r := r + [EmptyCall];
      }
      var entry := r[k];
      if tc.id != "" {
        entry := entry.(id := tc.id);
      }
      if tc.func.Some? {
        if tc.func.value.name != "" {
          entry := entry.(name := tc.func.value.name);
        }
        if tc.func.value.arguments != "" {
          entry := entry.(arguments := entry.arguments + tc.func.value.arguments);
        }
      }
      r := r[k := entry];
    }
  }

  // ---------------------------------------------------------------------------
  // The assistant message of a streamed turn

  /** `[tc for tc in tool_calls if tc["id"]]`. */
  function WithIds(calls: seq<ToolCall>): seq<ToolCall> {
    if calls == [] then []
    else
      var last := calls[|calls| - 1];
      WithIds(calls[..|calls| - 1]) + (if last.id != "" then [last] else [])
  }

  /**
   * The recorded calls are exactly the calls of the list that have an id,
   * and some call is recorded exactly when some call has an id.
   */
  lemma {:induction false} WithIdsSpec(calls: seq<ToolCall>)
    ensures |WithIds(calls)| <= |calls|
    ensures forall k :: 0 <= k < |WithIds(calls)| ==> WithIds(calls)[k].id != "" && WithIds(calls)[k] in calls
    ensures forall k :: 0 <= k < |calls| && calls[k].id != "" ==> calls[k] in WithIds(calls)
    ensures (exists k :: 0 <= k < |calls| && calls[k].id != "") <==> WithIds(calls) != []
  {
    if calls != [] {
      var init, last := calls[..|calls| - 1], calls[|calls| - 1];
      WithIdsSpec(init);
      assert forall k :: 0 <= k < |init| ==> init[k] == calls[k];
      var r := WithIds(calls);
      assert r == WithIds(init) + (if last.id != "" then [last] else []);
      forall k | 0 <= k < |calls| && calls[k].id != ""
        ensures calls[k] in r
      {
        if k < |init| {
          assert calls[k] in WithIds(init);
        }
      }
      if exists k :: 0 <= k < |calls| && calls[k].id != "" {
        var k :| 0 <= k < |calls| && calls[k].id != "";
        assert calls[k] in r;
      }
    }
  }

  /** Filtering keeps list order: the calls with ids of a concatenation are those of each part, in turn. */
  lemma {:induction false} WithIdsAppend(a: seq<ToolCall>, b: seq<ToolCall>)
    ensures WithIds(a + b) == WithIds(a) + WithIds(b)
    decreases |b|
  {
    if b == [] {
      assert a + b == a;
    } else {
      var b0 := b[..|b| - 1];
      WithIdsAppend(a, b0);
      assert (a + b)[..|a + b| - 1] == a + b0;
      assert (a + b)[|a + b| - 1] == b[|b| - 1];
    }
  }

  /** The assistant message `run` appends after a streamed response. */
  function AssistantMessage(fullContent: string, calls: seq<ToolCall>): Message {
    Message("assistant", if fullContent == "" then None else Some(fullContent),
            if calls == [] then None else Some(WithIds(calls)), None)
  }

  /** `not tool_calls or not any(tc["id"] for tc in tool_calls)`: the turn ends with the text. */
  predicate EndsTurn(calls: seq<ToolCall>) {
    calls == [] || forall k :: 0 <= k < |calls| ==> calls[k].id == ""
  }

  /**
   * The turn ends exactly when the recorded assistant message lists no tool
   * call; otherwise it lists the calls that have an id.
   */
  lemma AssistantMessageCalls(fullContent: string, calls: seq<ToolCall>)
    ensures var m := AssistantMessage(fullContent, calls);
            && m.role == "assistant"
            && (EndsTurn(calls) <==> (m.toolCalls.None? || m.toolCalls.value == []))
            && (m.toolCalls.Some? ==> forall c :: c in m.toolCalls.value ==> c.id != "")
            && (m.content.None? <==> fullContent == "")
  {
    WithIdsSpec(calls);
  }

  // ---------------------------------------------------------------------------
  // _handle_tool_call

  /** The fields of `json.loads(tool_call.function.arguments)` that the handler reads. */
  datatype ToolArgs = ToolArgs(command: Option<string>, isDangerous: Option<bool>)

  /** The reply sent back to the model for one tool call. */
  datatype ToolReply =
    | ExecReply(toolCallId: string, success: bool, output: string, error: string, returnCode: int)
    | UnknownToolReply(toolCallId: string)   // `{"error": "未知工具"}`: has no "success" key

  const OutputLimit := 2000
  const ErrorLimit := 500

  /** `s[:n]`. */
  function Truncate(s: string, n: nat): (r: string)
    ensures |r| == if |s| <= n then |s| else n
    ensures r == s[..|r|]
  {
    if |s| <= n then s else s[..n]
  }

  /**
   * `_handle_tool_call`: run `execute_command` (the confirmation callback is
   * passed on only for a dangerous command) and truncate its output to 2000
   * and its error to 500 characters; any other tool name gets an error reply.
   */
  function HandleToolCall(call: ToolCall, args: ToolArgs, confirm: Option<string -> bool>,
                          timeout: int, outcome: Tools.ProcessOutcome): (r: ToolReply)
    ensures r.toolCallId == call.id
    ensures r.ExecReply? <==> call.name == "execute_command"
    ensures r.ExecReply? ==>
      var cmd := args.command.GetOr("");
      var dangerous := args.isDangerous.GetOr(false);
      var asked := if dangerous then confirm else None;
      var full := Tools.CommandResultFor(cmd, dangerous, timeout, asked, outcome);
      && r.success == full.success
      && r.returnCode == full.returnCode
      && r.output == Truncate(full.output, OutputLimit)
      && r.error == Truncate(full.error, ErrorLimit)
  {
    if call.name == "execute_command" then
      var command := args.command.GetOr("");
      var isDangerous := args.isDangerous.GetOr(false);
      var result := Tools.CommandResultFor(command, isDangerous, timeout,
                                           if isDangerous then confirm else None, outcome);
      ExecReply(call.id, result.success, Truncate(result.output, OutputLimit),
                if result.error != "" then Truncate(result.error, ErrorLimit) else "",
                result.returnCode)
    else
      UnknownToolReply(call.id)
  }

  /** The confirmation callback can only stop a command the model marked dangerous. */
  lemma ConfirmOnlyWhenDangerous(call: ToolCall, args: ToolArgs, confirm: Option<string -> bool>,
                                 timeout: int, outcome: Tools.ProcessOutcome)
    requires call.name == "execute_command"
    requires !args.isDangerous.GetOr(false)
    ensures HandleToolCall(call, args, confirm, timeout, outcome)
         == HandleToolCall(call, args, None, timeout, outcome)
    ensures HandleToolCall(call, args, confirm, timeout, outcome).returnCode != Tools.DeclinedCode
            || (outcome.Exited? && outcome.returnCode == Tools.DeclinedCode)
  {
  }

  // ---------------------------------------------------------------------------
  // The retry counter of `run`

  /** `output.get("success", True)` is false. */
  predicate Failed(reply: ToolReply) {
    reply.ExecReply? && !reply.success
  }

  /** The two counters of `run`. */
  datatype RetryState = RetryState(retryCount: nat, totalRetries: nat)

  /** Either `run` goes on with these counters, or it returns the failure message. */
  datatype RetryOutcome = Continue(state: RetryState) | GiveUp(totalRetries: nat)

  /** The counters after one tool reply; `continueFn` is asked with the total so far. */
  function RetryStep(s: RetryState, reply: ToolReply, maxRetries: int,
                     continueFn: Option<nat -> bool>): (o: RetryOutcome)
    ensures !Failed(reply) ==> o == Continue(s)
    ensures Failed(reply) && s.retryCount + 1 < maxRetries ==>
              o == Continue(RetryState(s.retryCount + 1, s.totalRetries + 1))
    ensures Failed(reply) && s.retryCount + 1 >= maxRetries ==>
              o == if continueFn.Some? && continueFn.value(s.totalRetries + 1)
                   then Continue(RetryState(0, s.totalRetries + 1))
                   else GiveUp(s.totalRetries + 1)
  {
    if !Failed(reply) then Continue(s)
    else
      var count, total := s.retryCount + 1, s.totalRetries + 1;
      if count >= maxRetries then
        if continueFn.Some? && continueFn.value(total) then Continue(RetryState(0, total))
        else GiveUp(total)
      else Continue(RetryState(count, total))
  }

  /** The counters after a sequence of replies (stopping at the first give-up). */
  function RetryRun(s: RetryState, replies: seq<ToolReply>, maxRetries: int,
                    continueFn: Option<nat -> bool>): RetryOutcome
    decreases |replies|
  {
    if replies == [] then Continue(s)
    else
      match RetryStep(s, replies[0], maxRetries, continueFn)
      case GiveUp(t) => GiveUp(t)
      case Continue(s1) => RetryRun(s1, replies[1..], maxRetries, continueFn)
  }

  function CountFailed(replies: seq<ToolReply>): (n: nat)
    ensures n <= |replies|
  {
    if replies == [] then 0 else (if Failed(replies[0]) then 1 else 0) + CountFailed(replies[1..])
  }

  /**
   * The retry loop over the tool replies of `run`, in order: each failure
   * bumps both counters; at `maxRetries` consecutive-since-reset failures the
   * counter resets if `continueFn` approves, otherwise `run` gives up.
   */
  method CountRetries(s: RetryState, replies: seq<ToolReply>, maxRetries: int,
                      continueFn: Option<nat -> bool>) returns (o: RetryOutcome)
    ensures o == RetryRun(s, replies, maxRetries, continueFn)
  {
    var retryCount: nat, totalRetries: nat := s.retryCount, s.totalRetries;
    var i := 0;
    while i < |replies|
      invariant 0 <= i <= |replies|
      invariant RetryRun(s, replies, maxRetries, continueFn)
             == RetryRun(RetryState(retryCount, totalRetries), replies[i..], maxRetries, continueFn)
    {
      assert replies[i..][1..] == replies[i + 1..];
      if Failed(replies[i]) {
        retryCount := retryCount + 1;
        totalRetries := totalRetries + 1;
        if retryCount >= maxRetries {
          if continueFn.Some? && continueFn.value(totalRetries) {
            retryCount := 0;
          } else {
            return GiveUp(totalRetries);
          }
        }
      }
      i := i + 1;
    }
    o := Continue(RetryState(retryCount, totalRetries));
  }

  /**
   * If `run` goes on, `totalRetries` has grown by exactly the number of
   * failed replies, never shrinks, and (for `maxRetries > 0`) the retry count
   * stays below the limit and below the total; if it gives up, the reported
   * total exceeds the starting total and is at most the starting total plus
   * all the failures.
   */
  lemma {:induction false} RetryRunCounts(s: RetryState, replies: seq<ToolReply>, maxRetries: int,
                                          continueFn: Option<nat -> bool>)
    requires s.retryCount <= s.totalRetries
    requires 0 < maxRetries ==> s.retryCount < maxRetries
    ensures match RetryRun(s, replies, maxRetries, continueFn)
            case Continue(t) =>
              && t.totalRetries == s.totalRetries + CountFailed(replies)
              && t.retryCount <= t.totalRetries
              && (0 < maxRetries ==> t.retryCount < maxRetries)
            case GiveUp(total) =>
              s.totalRetries < total <= s.totalRetries + CountFailed(replies)
    decreases |replies|
  {
    if replies != [] {
      match RetryStep(s, replies[0], maxRetries, continueFn)
      case GiveUp(t) =>
      case Continue(s1) =>
        RetryRunCounts(s1, replies[1..], maxRetries, continueFn);
    }
  }

  /** Without a `continueFn`, `maxRetries > 0` failures in a row make `run` give up. */
  lemma {:induction false} GiveUpWithoutContinue(s: RetryState, replies: seq<ToolReply>, maxRetries: int)
    requires 0 < maxRetries && s.retryCount < maxRetries
    requires |replies| >= maxRetries - s.retryCount
    requires forall k :: 0 <= k < |replies| ==> Failed(replies[k])
    ensures RetryRun(s, replies, maxRetries, None) == GiveUp(s.totalRetries + maxRetries - s.retryCount)
    decreases maxRetries - s.retryCount
  {
    if s.retryCount + 1 < maxRetries {
      GiveUpWithoutContinue(RetryState(s.retryCount + 1, s.totalRetries + 1), replies[1..], maxRetries);
    }
  }
}
