/** One conversation turn (cli/src/hooks/use-chat-handler.ts): the user
    message and a streaming reply are added, the model backend is called with
    the history, and each round of tool calls it asks for is executed, its
    results appended to the history, before the backend is called again on a
    fresh reply message. The backend is a script of rounds: what each call to
    `streamChat` streams, which tool calls it returns, whether it throws, and
    whether the user cancels while it runs. The message ids `generateId`
    produces are a parameter too. */
module ChatHandler {
  import opened Common
  import opened ChatTypes
  import opened ChatStore
  import opened PlanStore
  import opened Streaming
  import opened SmartShortcut
  import opened ToolExecutor
  import App
  import ToolRegistry

  const SYSTEM_PROMPT: string :=
    "You are Sonder, a helpful AI assistant for cybersecurity and hacking. You have access to tools like search_online.\n\n"
    + "When you use a tool:\n"
    + "1. The tool will execute and return results\n"
    + "2. You will then receive those results\n"
    + "3. Use the results to answer the user's question directly\n\n"
    + "IMPORTANT: After receiving tool results, provide your answer based on those results. Do NOT say \"let me search\" or similar - the search already happened."

  datatype Role = SystemRole | UserRole | AssistantRole

  /** A message of the history sent to the backend. */
  datatype ApiMessage = ApiMessage(role: Role, content: string)

  /** A streamed piece of the reply and the token count reported with it. */
  datatype Chunk = Chunk(text: string, tokens: int)

  /** One call to the backend: the chunks it streams, the tool calls it
      announces and returns, the message of what it throws (if it does), and
      whether the user cancels the turn while this round runs. */
  datatype StreamCall = StreamCall(chunks: seq<Chunk>, toolCalls: seq<ToolCallRequest>, thrown: Option<string>, cancel: bool)

  /** What a backend call is given: the history, and whether tools are offered. */
  datatype StreamRequest = StreamRequest(messages: seq<ApiMessage>, toolsEnabled: bool)

  /** After this round no further backend call is made. */
  predicate EndsTurn(c: StreamCall)
  {
    c.thrown.Some? || c.toolCalls == [] || c.cancel
  }

  /** A backend that answers the turn in finitely many rounds: the last
      round, and only it, ends the turn. */
  predicate Script(script: seq<StreamCall>)
  {
    |script| > 0 && EndsTurn(script[|script| - 1])
    && forall j :: 0 <= j < |script| - 1 ==> !EndsTurn(script[j])
  }

  /** Ids from `generateId`: enough for the user message, one reply per
      round and one more, none empty, all distinct, none already in use. */
  predicate IdsOk(base: seq<ChatMessage>, ids: seq<MessageId>, script: seq<StreamCall>)
  {
    |ids| >= |script| + 2
    && (forall i :: 0 <= i < |ids| ==> ids[i] != "" && Fresh(base, ids[i]))
    && forall i, j :: 0 <= i < j < |ids| ==> ids[i] != ids[j]
  }

  // ---------------------------------------------------------------------
  // History

  function ApiOf(m: ChatMessage): ApiMessage
  {
    ApiMessage(if m.variant == User then UserRole else AssistantRole, m.content)
  }

  /** The earlier messages the backend sees: complete ones that are not
      errors, in order; user messages as the user's, the rest as the
      assistant's. */
  function HistoryOf(ms: seq<ChatMessage>): (r: seq<ApiMessage>)
    ensures |r| <= |ms|
  {
    if ms == [] then []
    else (if ms[0].isComplete && ms[0].variant != Error then [ApiOf(ms[0])] else []) + HistoryOf(ms[1..])
  }

  /** Filtering a concatenation filters each part. */
  lemma {:induction false} HistoryOfAppend(ms: seq<ChatMessage>, ns: seq<ChatMessage>)
    ensures HistoryOf(ms + ns) == HistoryOf(ms) + HistoryOf(ns)
  {
    if ms == [] {
      assert ms + ns == ns;
    } else {
      assert (ms + ns)[0] == ms[0];
      assert (ms + ns)[1..] == ms[1..] + ns;
      HistoryOfAppend(ms[1..], ns);
    }
  }

  /** Every message of the history comes from a complete, non-error message. */
  lemma {:induction false} HistoryOfSources(ms: seq<ChatMessage>, a: ApiMessage)
    requires a in HistoryOf(ms)
    ensures exists m :: m in ms && m.isComplete && m.variant != Error && ApiOf(m) == a
  {
    if ms[0].isComplete && ms[0].variant != Error && a == ApiOf(ms[0]) {
      assert ms[0] in ms;
    } else {
      HistoryOfSources(ms[1..], a);
      var m :| m in ms[1..] && m.isComplete && m.variant != Error && ApiOf(m) == a;
      assert m in ms;
    }
  }

  /** Complete, non-error messages all reach the history. */
  lemma {:induction false} HistoryOfComplete(ms: seq<ChatMessage>)
    requires forall i :: 0 <= i < |ms| ==> ms[i].isComplete && ms[i].variant != Error
    ensures |HistoryOf(ms)| == |ms|
    ensures forall i :: 0 <= i < |ms| ==> HistoryOf(ms)[i] == ApiOf(ms[i])
  {
    if ms != [] {
      HistoryOfComplete(ms[1..]);
    }
  }

  /** The history of the first backend call: the system prompt, the earlier
      messages, the new user message. */
  function InitialHistory(ms: seq<ChatMessage>, content: string): (r: seq<ApiMessage>)
    ensures |r| == |HistoryOf(ms)| + 2
    ensures r[0] == ApiMessage(SystemRole, SYSTEM_PROMPT) && r[|r| - 1] == ApiMessage(UserRole, content)
  {
    [ApiMessage(SystemRole, SYSTEM_PROMPT)] + HistoryOf(ms) + [ApiMessage(UserRole, content)]
  }

  /** What one executed tool call adds to the history. */
  function ToolMessage(req: ToolCallRequest, result: ToolResult): ApiMessage
  {
    ApiMessage(UserRole, "[Tool Result for " + req.name + "]\n" + result.fullResult
      + "\n\nNow provide your answer based on these search results.")
  }

  function ToolMessages(calls: seq<ToolCallRequest>, results: seq<ToolResult>): (r: seq<ApiMessage>)
    requires |results| == |calls|
    ensures |r| == |calls| && forall i :: 0 <= i < |calls| ==> r[i] == ToolMessage(calls[i], results[i])
  {
    seq(|calls|, i requires 0 <= i < |calls| => ToolMessage(calls[i], results[i]))
  }

  // ---------------------------------------------------------------------
  // Tools, plan and history across rounds

  /** How one tool call is run: from the request and the plan it starts
      from, the plan it leaves and its result. */
  type Executor = (ToolCallRequest, seq<PlanItem>) -> (seq<PlanItem>, ToolResult)

  /** `executeTool` of the registry, with the environment it is given. */
  function ExecutorOf(env: ToolRegistry.ToolEnv): Executor
  {
    (req: ToolCallRequest, plan: seq<PlanItem>) => ToolRegistry.Outcome(req.name, req.args, env, plan)
  }

  /** The first n calls of a round run one after another, each on the plan
      the previous one left: the final plan and the results in order. */
  function RunTools(calls: seq<ToolCallRequest>, n: nat, exec: Executor, plan: seq<PlanItem>): (r: (seq<PlanItem>, seq<ToolResult>))
    requires n <= |calls|
    ensures |r.1| == n
  {
    if n == 0 then (plan, [])
    else
      var prev := RunTools(calls, n - 1, exec, plan);
      var step := exec(calls[n - 1], prev.0);
      (step.0, prev.1 + [step.1])
  }

  /** What the tools of the first k rounds leave: the plan, starting from
      the plan cleared at the start of the turn, and the tool-result
      messages appended to the history, in order. */
  datatype Progress = Progress(plan: seq<PlanItem>, messages: seq<ApiMessage>)

  function After(script: seq<StreamCall>, k: nat, exec: Executor): Progress
    requires k <= |script|
  {
    if k == 0 then Progress([], [])
    else
      var before := After(script, k - 1, exec);
      var calls := script[k - 1].toolCalls;
      var run := RunTools(calls, |calls|, exec, before.plan);
      Progress(run.0, before.messages + ToolMessages(calls, run.1))
  }

  /** The plan after the tools of the first k rounds. */
  function PlanAfter(script: seq<StreamCall>, k: nat, exec: Executor): seq<PlanItem>
    requires k <= |script|
  {
    After(script, k, exec).plan
  }

  /** The history after the tool results of the first k rounds. */
  function HistoryAfter(script: seq<StreamCall>, k: nat, exec: Executor, h0: seq<ApiMessage>): seq<ApiMessage>
    requires k <= |script|
  {
    h0 + After(script, k, exec).messages
  }

  /** One more round: its tools run on the plan the rounds before left, and
      their results follow the history so far. */
  lemma AfterSnoc(script: seq<StreamCall>, k: nat, exec: Executor, h0: seq<ApiMessage>)
    requires k < |script|
    ensures var run := RunTools(script[k].toolCalls, |script[k].toolCalls|, exec, PlanAfter(script, k, exec));
      PlanAfter(script, k + 1, exec) == run.0
      && HistoryAfter(script, k + 1, exec, h0) == HistoryAfter(script, k, exec, h0) + ToolMessages(script[k].toolCalls, run.1)
  {
    var run := RunTools(script[k].toolCalls, |script[k].toolCalls|, exec, PlanAfter(script, k, exec));
    var before := After(script, k, exec).messages;
    assert h0 + (before + ToolMessages(script[k].toolCalls, run.1)) == (h0 + before) + ToolMessages(script[k].toolCalls, run.1);
  }

  /** The backend calls of the first n rounds: each sees the history so far,
      and only the first is offered tools. */
  function Requests(script: seq<StreamCall>, n: nat, exec: Executor, h0: seq<ApiMessage>): (r: seq<StreamRequest>)
    requires n <= |script|
    ensures |r| == n
  {
    if n == 0 then [] else Requests(script, n - 1, exec, h0) + [StreamRequest(HistoryAfter(script, n - 1, exec, h0), n == 1)]
  }

  /** Backend call j sees the history after the tools of the rounds before
      it, and only the first call is offered tools. */
  lemma {:induction false} RequestAt(script: seq<StreamCall>, n: nat, exec: Executor, h0: seq<ApiMessage>, j: nat)
    requires j < n <= |script|
    ensures Requests(script, n, exec, h0)[j] == StreamRequest(HistoryAfter(script, j, exec, h0), j == 0)
  {
    if j < n - 1 {
      RequestAt(script, n - 1, exec, h0, j);
    }
  }

  /** The number of tool calls announced in the first n rounds. */
  function Announced(script: seq<StreamCall>, n: nat): nat
    requires n <= |script|
  {
    if n == 0 then 0 else Announced(script, n - 1) + |script[n - 1].toolCalls|
  }

  /** The rounds whose tools run: all but the last, and the last too when it
      returned tool calls without throwing (it was cancelled). */
  function ToolRounds(script: seq<StreamCall>): (r: nat)
    requires Script(script)
    ensures r == |script| || r == |script| - 1
  {
    var last := script[|script| - 1];
    if last.thrown.None? && last.toolCalls != [] then |script| else |script| - 1
  }

  // ---------------------------------------------------------------------
  // Messages of the turn

  /** The streamed text of a round, chunk after chunk. */
  function ChunkText(chunks: seq<Chunk>): string
  {
    if chunks == [] then "" else ChunkText(chunks[..|chunks| - 1]) + chunks[|chunks| - 1].text
  }

  /** The reply message of a round while it streams. */
  function Streamed(id: MessageId, c: StreamCall): ChatMessage
  {
    App.Placeholder(id).(content := ChunkText(c.chunks))
  }

  /** A reply message marked complete when its round returned tool calls. */
  function Closed(id: MessageId, c: StreamCall): ChatMessage
  {
    ChatMessage(id, Ai, ChunkText(c.chunks), true, false, false, None)
  }

  /** The reply messages of the first k rounds, all closed. */
  function ClosedRounds(script: seq<StreamCall>, ids: seq<MessageId>, k: nat): (r: seq<ChatMessage>)
    requires k <= |script| && k < |ids|
    ensures |r| == k && forall j :: 0 <= j < k ==> r[j] == Closed(ids[j + 1], script[j])
  {
    seq(k, j requires 0 <= j < k => Closed(ids[j + 1], script[j]))
  }

  /** The messages of the turn so far, up to the reply of round k. */
  function Head(base: seq<ChatMessage>, ids: seq<MessageId>, content: string, script: seq<StreamCall>, k: nat): seq<ChatMessage>
    requires k <= |script| && k < |ids|
  {
    base + [App.UserMessage(ids[0], content)] + ClosedRounds(script, ids, k)
  }

  /** The message(s) of the last round: interrupted when cancelled, an error
      message when it threw without a cancel, and an extra empty interrupted
      reply when it was cancelled after returning tool calls. */
  function LastMessages(last: StreamCall, id: MessageId, nextId: MessageId): seq<ChatMessage>
  {
    if last.thrown.Some? then
      if last.cancel then [ChatMessage(id, Ai, ChunkText(last.chunks), true, false, true, None)]
      else [ChatMessage(id, Error, "Error: " + last.thrown.value, true, false, false, None)]
    else if last.toolCalls == [] then [ChatMessage(id, Ai, ChunkText(last.chunks), true, false, last.cancel, None)]
    else [Closed(id, last), ChatMessage(nextId, Ai, "", true, false, true, None)]
  }

  /** All messages the turn adds, in order. */
  function TurnMessages(script: seq<StreamCall>, ids: seq<MessageId>, content: string): seq<ChatMessage>
    requires Script(script) && |ids| >= |script| + 2
  {
    var k := |script| - 1;
    [App.UserMessage(ids[0], content)] + ClosedRounds(script, ids, k) + LastMessages(script[k], ids[k + 1], ids[k + 2])
  }

  /** `{ content: "Error: " + message, variant: 'error', isComplete: true, isStreaming: false }` */
  function ErrorPatch(message: string): MessagePatch
  {
    MessagePatch(Some("Error: " + message), Some(Error), Some(true), Some(false), None)
  }

  /** `{ isInterrupted: true }` */
  const Interrupt := MessagePatch(None, None, None, None, Some(true))

  // ---------------------------------------------------------------------
  // Properties of the turn

  /** Every message the turn leaves behind is complete and no longer streaming. */
  lemma TurnSettled(script: seq<StreamCall>, ids: seq<MessageId>, content: string)
    requires Script(script) && |ids| >= |script| + 2
    ensures forall m :: m in TurnMessages(script, ids, content) ==> m.isComplete && !m.isStreaming
  {
  }

  /** The turn starts with the user message, and has one reply per round,
      plus one when the last round was cancelled after returning tool calls. */
  lemma TurnLength(script: seq<StreamCall>, ids: seq<MessageId>, content: string)
    requires Script(script) && |ids| >= |script| + 2
    ensures var ms := TurnMessages(script, ids, content);
      ms[0] == App.UserMessage(ids[0], content)
      && |ms| == 1 + |script| + (if ToolRounds(script) == |script| then 1 else 0)
  {
  }

  /** An error message appears exactly when the last round threw without a
      cancel, and then it is the last message. */
  lemma ErrorIffFailure(script: seq<StreamCall>, ids: seq<MessageId>, content: string)
    requires Script(script) && |ids| >= |script| + 2
    ensures var ms := TurnMessages(script, ids, content); var last := script[|script| - 1];
      (exists i :: 0 <= i < |ms| && ms[i].variant == Error) <==> last.thrown.Some? && !last.cancel
    ensures var ms := TurnMessages(script, ids, content); var last := script[|script| - 1];
      last.thrown.Some? && !last.cancel ==> ms[|ms| - 1].content == "Error: " + last.thrown.value
  {
    var ms := TurnMessages(script, ids, content);
    var k := |script| - 1;
    assert forall i :: 0 <= i < k + 1 ==> ms[i].variant != Error;
    if script[k].thrown.Some? && !script[k].cancel {
      assert ms[|ms| - 1].variant == Error;
    }
  }

  /** Only the last message can be interrupted, and it is exactly when the
      user cancelled. */
  lemma InterruptedIffCancel(script: seq<StreamCall>, ids: seq<MessageId>, content: string)
    requires Script(script) && |ids| >= |script| + 2
    ensures var ms := TurnMessages(script, ids, content);
      (forall i :: 0 <= i < |ms| - 1 ==> !ms[i].isInterrupted)
      && (ms[|ms| - 1].isInterrupted <==> script[|script| - 1].cancel)
  {
  }

  /** The plan the turn leaves is empty or still has unfinished items. */
  lemma {:induction false} RunToolsKeepsPlanOpen(calls: seq<ToolCallRequest>, n: nat, env: ToolRegistry.ToolEnv, plan: seq<PlanItem>)
    requires n <= |calls|
    requires plan == [] || HasUnfinished(plan)
    ensures var r := RunTools(calls, n, ExecutorOf(env), plan).0; r == [] || HasUnfinished(r)
  {
    if n > 0 {
      RunToolsKeepsPlanOpen(calls, n - 1, env, plan);
    }
  }

  lemma {:induction false} PlanAfterOpen(script: seq<StreamCall>, k: nat, env: ToolRegistry.ToolEnv)
    requires k <= |script|
    ensures PlanAfter(script, k, ExecutorOf(env)) == [] || HasUnfinished(PlanAfter(script, k, ExecutorOf(env)))
  {
    if k > 0 {
      PlanAfterOpen(script, k - 1, env);
      RunToolsKeepsPlanOpen(script[k - 1].toolCalls, |script[k - 1].toolCalls|, env, PlanAfter(script, k - 1, ExecutorOf(env)));
    }
  }

  /** Each executed tool call adds exactly one message to the history, after
      what was there. */
  lemma {:induction false} HistoryGrows(script: seq<StreamCall>, j: nat, k: nat, exec: Executor, h0: seq<ApiMessage>)
    requires j <= k <= |script|
    ensures |HistoryAfter(script, k, exec, h0)| == |h0| + Announced(script, k)
    ensures HistoryAfter(script, j, exec, h0) <= HistoryAfter(script, k, exec, h0)
  {
    if k > 0 {
      if j < k {
        HistoryGrows(script, j, k - 1, exec, h0);
      } else {
        HistoryGrows(script, j - 1, k - 1, exec, h0);
      }
    }
  }

  // ---------------------------------------------------------------------
  // Steps of the turn

  /** The reply id of round k is usable: not empty, and on no message
      before it. */
  predicate FreshAt(base: seq<ChatMessage>, ids: seq<MessageId>, content: string, script: seq<StreamCall>, k: nat)
    requires k <= |script| && k + 1 < |ids|
  {
    ids[k + 1] != "" && Fresh(Head(base, ids, content, script, k), ids[k + 1])
  }

  /** What the loop carries from one round to the next: the messages and
      the streaming message id of the chat store, the plan, the history and
      the backend calls so far, and the tool-call records. */
  datatype Carried = Carried(messages: seq<ChatMessage>, streamingId: Option<MessageId>, plan: seq<PlanItem>,
                             history: seq<ApiMessage>, requests: seq<StreamRequest>, records: seq<ToolCall>)

  /** Before round k: the closed replies of the rounds before it and an
      empty reply for round k as the streaming message; the plan and the
      history those rounds' tools produced; one backend call per earlier
      round and the records of the tool calls they announced and ran. */
  ghost function Before(script: seq<StreamCall>, ids: seq<MessageId>, exec: Executor, base: seq<ChatMessage>,
                        content: string, h0: seq<ApiMessage>, r0: seq<ToolCall>, k: nat): Carried
    requires k <= |script| && k + 1 < |ids|
  {
    Carried(Head(base, ids, content, script, k) + [App.Placeholder(ids[k + 1])], Some(ids[k + 1]),
            PlanAfter(script, k, exec), HistoryAfter(script, k, exec, h0), Requests(script, k, exec, h0),
            RecordsAfter(script, ids, exec, r0, k))
  }

  /** After round k when it ends the turn: its reply holds the streamed
      text, its tools did not run, and its call is counted and its tool
      calls registered. */
  ghost function Ending(script: seq<StreamCall>, ids: seq<MessageId>, exec: Executor, base: seq<ChatMessage>,
                        content: string, h0: seq<ApiMessage>, r0: seq<ToolCall>, k: nat): Carried
    requires k < |script| && k + 1 < |ids|
  {
    Carried(Head(base, ids, content, script, k) + [Streamed(ids[k + 1], script[k])], Some(ids[k + 1]),
            PlanAfter(script, k, exec), HistoryAfter(script, k, exec, h0), Requests(script, k + 1, exec, h0),
            RecordsAfter(script, ids, exec, r0, k) + Registrations(script[k].toolCalls, ids[k + 1]))
  }

  /** The states of the loop, one per round: `table[k]` before round k
      and `ends[k]` when round k ends the turn. */
  ghost predicate Tabled(script: seq<StreamCall>, ids: seq<MessageId>, exec: Executor, base: seq<ChatMessage>,
                   content: string, h0: seq<ApiMessage>, r0: seq<ToolCall>, table: seq<Carried>, ends: seq<Carried>)
    requires |ids| >= |script| + 2
  {
    |table| == |script| + 1 && |ends| == |script|
    && (forall j {:trigger Before(script, ids, exec, base, content, h0, r0, j)} :: 0 <= j <= |script| ==>
          table[j] == Before(script, ids, exec, base, content, h0, r0, j))
    && (forall j {:trigger Ending(script, ids, exec, base, content, h0, r0, j)} :: 0 <= j < |script| ==>
          ends[j] == Ending(script, ids, exec, base, content, h0, r0, j))
  }

  ghost function Table(script: seq<StreamCall>, ids: seq<MessageId>, exec: Executor, base: seq<ChatMessage>,
                       content: string, h0: seq<ApiMessage>, r0: seq<ToolCall>): seq<Carried>
    requires |ids| >= |script| + 2
  {
    seq(|script| + 1, j requires 0 <= j <= |script| => Before(script, ids, exec, base, content, h0, r0, j))
  }

  ghost function Ends(script: seq<StreamCall>, ids: seq<MessageId>, exec: Executor, base: seq<ChatMessage>,
                      content: string, h0: seq<ApiMessage>, r0: seq<ToolCall>): seq<Carried>
    requires |ids| >= |script| + 2
  {
    seq(|script|, j requires 0 <= j < |script| => Ending(script, ids, exec, base, content, h0, r0, j))
  }

  lemma TablesTabled(script: seq<StreamCall>, ids: seq<MessageId>, exec: Executor, base: seq<ChatMessage>,
                     content: string, h0: seq<ApiMessage>, r0: seq<ToolCall>)
    requires |ids| >= |script| + 2
    ensures Tabled(script, ids, exec, base, content, h0, r0, Table(script, ids, exec, base, content, h0, r0),
                   Ends(script, ids, exec, base, content, h0, r0))
  {
  }

  lemma FreshHead(base: seq<ChatMessage>, ids: seq<MessageId>, content: string, script: seq<StreamCall>, k: nat)
    requires IdsOk(base, ids, script) && k <= |script|
    ensures FreshAt(base, ids, content, script, k)
  {
    var h := Head(base, ids, content, script, k);
    var closed := ClosedRounds(script, ids, k);
    assert forall i :: 0 <= i < |base| ==> h[i] == base[i];
    assert h[|base|].id == ids[0];
    assert forall i :: 0 <= i < k ==> h[|base| + 1 + i] == closed[i];
  }

  lemma AllFresh(base: seq<ChatMessage>, ids: seq<MessageId>, content: string, script: seq<StreamCall>)
    requires IdsOk(base, ids, script)
    ensures forall j :: 0 <= j <= |script| ==> FreshAt(base, ids, content, script, j)
  {
    forall j | 0 <= j <= |script|
      ensures FreshAt(base, ids, content, script, j)
    {
      FreshHead(base, ids, content, script, j);
    }
  }

  lemma HeadSnoc(base: seq<ChatMessage>, ids: seq<MessageId>, content: string, script: seq<StreamCall>, k: nat)
    requires k < |script| && k + 1 < |ids|
    ensures Head(base, ids, content, script, k) + [Closed(ids[k + 1], script[k])] == Head(base, ids, content, script, k + 1)
  {
    assert ClosedRounds(script, ids, k) + [Closed(ids[k + 1], script[k])] == ClosedRounds(script, ids, k + 1);
  }

  /** The records `registerToolCall` adds for the calls a round announces. */
  function Registrations(calls: seq<ToolCallRequest>, id: MessageId): (r: seq<ToolCall>)
    ensures |r| == |calls| && forall i :: 0 <= i < |calls| ==> r[i] == Registration(calls[i], id)
  {
    seq(|calls|, i requires 0 <= i < |calls| => Registration(calls[i], id))
  }

  /** The records after the first |results| calls of a round have run in
      order: each call completes the first record with its derived id. */
  function PatchRun(records: seq<ToolCall>, calls: seq<ToolCallRequest>, results: seq<ToolResult>): (r: seq<ToolCall>)
    requires |results| <= |calls|
    ensures |r| == |records|
    decreases |results|
  {
    if results == [] then records
    else
      var n := |results| - 1;
      PatchToolCall(PatchRun(records, calls, results[..n]), ToolId(calls[n]), Finish(results[n]))
  }

  /** Record i of a round once the first |results| calls have run: completed
      with its result when it ran, still `executing` otherwise. */
  function RoundRecord(calls: seq<ToolCallRequest>, id: MessageId, results: seq<ToolResult>, i: nat): ToolCall
    requires i < |calls|
  {
    if i < |results| then ApplyToolPatch(Registration(calls[i], id), Finish(results[i])) else Registration(calls[i], id)
  }

  /** When a round's calls have ids of their own, unknown to the records
      before them, each call that ran completes exactly its own record and
      the calls still to run keep their `executing` records. */
  lemma {:induction false} PatchRunOwn(prefix: seq<ToolCall>, calls: seq<ToolCallRequest>, id: MessageId, results: seq<ToolResult>)
    requires |results| <= |calls|
    requires forall j :: 0 <= j < |calls| ==> FreshToolId(prefix, ToolId(calls[j]))
    requires forall i, j :: 0 <= i < j < |calls| ==> calls[i].id != calls[j].id
    ensures var r := PatchRun(prefix + Registrations(calls, id), calls, results);
      r[..|prefix|] == prefix && forall i :: 0 <= i < |calls| ==> r[|prefix| + i] == RoundRecord(calls, id, results, i)
    decreases |results|
  {
    var all := prefix + Registrations(calls, id);
    if results == [] {
      forall i | 0 <= i < |calls|
        ensures all[|prefix| + i] == RoundRecord(calls, id, results, i)
      {
      }
    } else {
      var n := |results| - 1;
      var q := PatchRun(all, calls, results[..n]);
      PatchRunOwn(prefix, calls, id, results[..n]);
      assert results == results[..n] + [results[n]];
      PatchNext(prefix, calls, id, results[..n], results[n], q);
    }
  }

  /** The step of `PatchRunOwn`: the next call to run finds its own
      record, the first with its id. */
  lemma PatchNext(prefix: seq<ToolCall>, calls: seq<ToolCallRequest>, id: MessageId, done: seq<ToolResult>, last: ToolResult,
                  q: seq<ToolCall>)
    requires |done| < |calls|
    requires forall j :: 0 <= j < |calls| ==> FreshToolId(prefix, ToolId(calls[j]))
    requires forall i, j :: 0 <= i < j < |calls| ==> calls[i].id != calls[j].id
    requires |q| == |prefix| + |calls| && q[..|prefix|] == prefix
    requires forall i :: 0 <= i < |calls| ==> q[|prefix| + i] == RoundRecord(calls, id, done, i)
    ensures var r := PatchToolCall(q, ToolId(calls[|done|]), Finish(last));
      r[..|prefix|] == prefix && forall i :: 0 <= i < |calls| ==> r[|prefix| + i] == RoundRecord(calls, id, done + [last], i)
  {
    var n := |done|;
    var tid := ToolId(calls[n]);
    var at := |prefix| + n;
    assert q[at] == RoundRecord(calls, id, done, n);
    forall j | 0 <= j < at
      ensures q[..at][j].id != tid
    {
      if j < |prefix| {
        assert q[j] == q[..|prefix|][j];
      } else {
        assert q[j] == q[|prefix| + (j - |prefix|)] == RoundRecord(calls, id, done, j - |prefix|);
        ToolIdInjective(calls[j - |prefix|], calls[n]);
      }
    }
    assert q == q[..at] + [q[at]] + q[at + 1..];
    PatchRegistered(q[..at], q[at + 1..], q[at], Finish(last));
    var r := PatchToolCall(q, tid, Finish(last));
    assert r == q[..at] + [ApplyToolPatch(q[at], Finish(last))] + q[at + 1..];
    assert r[..|prefix|] == q[..|prefix|];
    forall i | 0 <= i < |calls|
      ensures r[|prefix| + i] == RoundRecord(calls, id, done + [last], i)
    {
      if i != n {
        assert r[|prefix| + i] == q[|prefix| + i] == RoundRecord(calls, id, done, i);
      }
    }
  }

  /** The records after the tools of the first k rounds: each round's calls
      are registered under its reply, then completed in order. */
  function RecordsAfter(script: seq<StreamCall>, ids: seq<MessageId>, exec: Executor, r0: seq<ToolCall>, k: nat): (r: seq<ToolCall>)
    requires k <= |script| && k < |ids|
    ensures |r| == |r0| + Announced(script, k)
  {
    if k == 0 then r0
    else
      var calls := script[k - 1].toolCalls;
      PatchRun(RecordsAfter(script, ids, exec, r0, k - 1) + Registrations(calls, ids[k]), calls,
               RunTools(calls, |calls|, exec, PlanAfter(script, k - 1, exec)).1)
  }

  /** The records a whole turn leaves: those of the rounds whose tools ran,
      and the last round's calls registered when its tools did not run. */
  function TurnRecords(script: seq<StreamCall>, ids: seq<MessageId>, exec: Executor, r0: seq<ToolCall>): (r: seq<ToolCall>)
    requires Script(script) && |ids| >= |script| + 2
    ensures |r| == |r0| + Announced(script, |script|)
  {
    var n := ToolRounds(script);
    if n == |script| then RecordsAfter(script, ids, exec, r0, n)
    else RecordsAfter(script, ids, exec, r0, n) + Registrations(script[n].toolCalls, ids[n + 1])
  }

  /** `onChunk` for each streamed chunk: the text is appended to the reply
      message and the reported token count recorded. */
  method StreamChunks(chunks: seq<Chunk>, chat: ChatStore, streaming: Streaming,
                      id: MessageId, ghost prefix: seq<ChatMessage>, ghost current: ChatMessage)
    requires id != "" && current.id == id && Fresh(prefix, id)
    requires chat.messages == prefix + [current] && chat.streamingMessageId == Some(id)
    modifies chat, streaming
    ensures chat.messages == prefix + [current.(content := current.content + ChunkText(chunks))]
    ensures chat.streamingMessageId == old(chat.streamingMessageId) && chat.isStreaming == old(chat.isStreaming)
    ensures chat.Input() == old(chat.Input())
    ensures streaming.controller == old(streaming.controller)
    ensures streaming.isStreamingLocal == old(streaming.isStreamingLocal)
    ensures chunks != [] ==> streaming.tokenCount == chunks[|chunks| - 1].tokens
  {
    var i := 0;
    assert chunks[..0] == [];
    assert current.(content := current.content + ChunkText(chunks[..0])) == current;
    while i < |chunks|
      invariant 0 <= i <= |chunks|
      invariant chat.messages == prefix + [current.(content := current.content + ChunkText(chunks[..i]))]
      invariant chat.streamingMessageId == old(chat.streamingMessageId) && chat.isStreaming == old(chat.isStreaming)
      invariant chat.Input() == old(chat.Input())
      invariant streaming.controller == old(streaming.controller)
      invariant streaming.isStreamingLocal == old(streaming.isStreamingLocal)
      invariant i > 0 ==> streaming.tokenCount == chunks[i - 1].tokens
    {
      ghost var m := current.(content := current.content + ChunkText(chunks[..i]));
      assert chunks[..i + 1][..i] == chunks[..i];
      assert ChunkText(chunks[..i + 1]) == ChunkText(chunks[..i]) + chunks[i].text;
      assert m.content + chunks[i].text == current.content + ChunkText(chunks[..i + 1]);
      AppendLast(prefix, m, chunks[i].text);
      chat.AppendToStreamingMessage(chunks[i].text);
      streaming.UpdateTokenCount(chunks[i].tokens);
      i := i + 1;
    }
    assert chunks[..i] == chunks;
  }

  /** `onToolCall` for each announced call: a record is registered against
      the reply message. */
  method AnnounceToolCalls(calls: seq<ToolCallRequest>, tools: ToolCallStore, id: MessageId)
    modifies tools
    ensures tools.calls == old(tools.calls) + Registrations(calls, id)
  {
    var a := 0;
    while a < |calls|
      invariant 0 <= a <= |calls|
      invariant tools.calls == old(tools.calls) + Registrations(calls[..a], id)
    {
      var _ := RegisterToolCall(tools, calls[a], id);
      assert Registrations(calls[..a], id) + [Registration(calls[a], id)] == Registrations(calls[..a + 1], id);
      a := a + 1;
    }
    assert calls[..a] == calls;
  }

  /** One backend call: its chunks are appended to the reply message (and
      their token counts recorded), its tool calls are registered against
      that message, and a cancel aborts the controller. */
  method StreamRound(call: StreamCall, chat: ChatStore, tools: ToolCallStore, streaming: Streaming,
                     id: MessageId, ghost prefix: seq<ChatMessage>, ghost current: ChatMessage)
    requires id != "" && current.id == id && Fresh(prefix, id)
    requires chat.messages == prefix + [current] && chat.streamingMessageId == Some(id)
    requires streaming.controller.Some?
    modifies chat, tools, streaming, streaming.controller.value
    ensures chat.messages == prefix + [current.(content := current.content + ChunkText(call.chunks))]
    ensures chat.streamingMessageId == old(chat.streamingMessageId) && chat.isStreaming == old(chat.isStreaming)
    ensures chat.Input() == old(chat.Input())
    ensures tools.calls == old(tools.calls) + Registrations(call.toolCalls, id)
    ensures streaming.controller == old(streaming.controller)
    ensures streaming.isStreamingLocal == old(streaming.isStreamingLocal)
    ensures streaming.controller.value.aborted == (old(streaming.controller.value.aborted) || call.cancel)
    ensures call.chunks != [] ==> streaming.tokenCount == call.chunks[|call.chunks| - 1].tokens
  {
    StreamChunks(call.chunks, chat, streaming, id, prefix, current);
    AnnounceToolCalls(call.toolCalls, tools, id);
    if call.cancel {
      streaming.CancelStream();
    }
  }

  /** `executeToolCall` for one returned call: the first record with its
      derived id is completed with the result. */
  method RunOneTool(req: ToolCallRequest, env: ToolRegistry.ToolEnv, plan: PlanStore, tools: ToolCallStore)
    returns (result: ToolResult)
    modifies plan, tools
    ensures (plan.items, result) == ExecutorOf(env)(req, old(plan.items))
    ensures tools.calls == PatchToolCall(old(tools.calls), ToolId(req), Finish(result))
  {
    var _, r := ExecuteToolCall(tools, req, env, plan);
    result := r;
  }

  lemma ToolMessagesSnoc(calls: seq<ToolCallRequest>, i: nat, results: seq<ToolResult>, result: ToolResult)
    requires i < |calls| && |results| == i
    ensures ToolMessages(calls[..i], results) + [ToolMessage(calls[i], result)] == ToolMessages(calls[..i + 1], results + [result])
  {
    var a := ToolMessages(calls[..i], results) + [ToolMessage(calls[i], result)];
    var b := ToolMessages(calls[..i + 1], results + [result]);
    assert forall j :: 0 <= j < i + 1 ==> a[j] == b[j];
  }

  /** The tool calls a round returned, run in order on the plan store; each
      result is appended to the history. */
  method RunRoundTools(calls: seq<ToolCallRequest>, env: ToolRegistry.ToolEnv, plan: PlanStore, tools: ToolCallStore,
                       history: seq<ApiMessage>) returns (h: seq<ApiMessage>)
    modifies plan, tools
    ensures var run := RunTools(calls, |calls|, ExecutorOf(env), old(plan.items));
      plan.items == run.0 && h == history + ToolMessages(calls, run.1)
      && tools.calls == PatchRun(old(tools.calls), calls, run.1)
  {
    ghost var exec := ExecutorOf(env);
    ghost var p0 := plan.items;
    h := history;
    var i := 0;
    while i < |calls|
      invariant 0 <= i <= |calls|
      invariant plan.items == RunTools(calls, i, exec, p0).0
      invariant h == history + ToolMessages(calls[..i], RunTools(calls, i, exec, p0).1)
      invariant tools.calls == PatchRun(old(tools.calls), calls, RunTools(calls, i, exec, p0).1)
    {
      ghost var done := RunTools(calls, i, exec, p0).1;
      ToolMessagesSnoc(calls, i, done, exec(calls[i], plan.items).1);
      var result := RunOneTool(calls[i], env, plan, tools);
      assert (done + [result])[..i] == done;
      h := h + [ToolMessage(calls[i], result)];
      i := i + 1;
    }
    assert calls[..i] == calls;
  }

  /** The branch for a round that returned tool calls: its reply is marked
      complete, the tools run, and a fresh empty reply becomes the streaming
      message. */
  method NextReply(k: nat, script: seq<StreamCall>, ids: seq<MessageId>, env: ToolRegistry.ToolEnv,
                   ghost base: seq<ChatMessage>, ghost content: string, ghost h0: seq<ApiMessage>,
                   ghost r0: seq<ToolCall>, ghost requests: seq<StreamRequest>, ghost table: seq<Carried>, ghost ends: seq<Carried>,
                   chat: ChatStore, plan: PlanStore, tools: ToolCallStore, history: seq<ApiMessage>)
    returns (newHistory: seq<ApiMessage>)
    requires |ids| >= |script| + 2 && k < |script|
    requires Tabled(script, ids, ExecutorOf(env), base, content, h0, r0, table, ends)
    requires FreshAt(base, ids, content, script, k)
    requires Carried(chat.messages, chat.streamingMessageId, plan.items, history, requests, tools.calls) == ends[k]
    modifies chat, plan, tools
    ensures chat.isStreaming == old(chat.isStreaming) && chat.Input() == old(chat.Input())
    ensures Carried(chat.messages, chat.streamingMessageId, plan.items, newHistory, requests, tools.calls) == table[k + 1]
  {
    assert ends[k] == Ending(script, ids, ExecutorOf(env), base, content, h0, r0, k);
    assert table[k + 1] == Before(script, ids, ExecutorOf(env), base, content, h0, r0, k + 1);
    var currentId := ids[k + 1];
    PatchLast(Head(base, ids, content, script, k), Streamed(currentId, script[k]), Finalise);
    chat.UpdateMessage(currentId, Finalise);
    HeadSnoc(base, ids, content, script, k);
    AfterSnoc(script, k, ExecutorOf(env), h0);
    newHistory := RunRoundTools(script[k].toolCalls, env, plan, tools, history);
    var answerId := ids[k + 2];
    chat.AddMessage(App.Placeholder(answerId));
    chat.SetStreamingMessageId(Some(answerId));
  }

  /** A round that does not end the turn is followed by another; a round
      that ends it is the last. */
  lemma RoundPosition(script: seq<StreamCall>, k: nat)
    requires Script(script) && k < |script|
    ensures EndsTurn(script[k]) <==> k == |script| - 1
  {
  }

  /** The first half of the loop body for round k: the backend call is
      made with the history so far and its stream is shown in the reply. */
  method OpenRound(k: nat, isFirstCall: bool, script: seq<StreamCall>, ids: seq<MessageId>, env: ToolRegistry.ToolEnv,
                   ghost base: seq<ChatMessage>, ghost content: string, ghost h0: seq<ApiMessage>, ghost r0: seq<ToolCall>,
                   chat: ChatStore, plan: PlanStore, tools: ToolCallStore, streaming: Streaming, c: AbortController,
                   history: seq<ApiMessage>, requests: seq<StreamRequest>, ghost table: seq<Carried>, ghost ends: seq<Carried>)
    returns (newRequests: seq<StreamRequest>)
    requires Script(script) && |ids| >= |script| + 2 && k < |script| && isFirstCall == (k == 0)
    requires Tabled(script, ids, ExecutorOf(env), base, content, h0, r0, table, ends)
    requires FreshAt(base, ids, content, script, k)
    requires streaming.controller == Some(c) && !c.aborted
    requires Carried(chat.messages, chat.streamingMessageId, plan.items, history, requests, tools.calls) == table[k]
    modifies chat, tools, streaming, c
    ensures streaming.controller == Some(c) && streaming.isStreamingLocal == old(streaming.isStreamingLocal)
    ensures chat.isStreaming == old(chat.isStreaming) && chat.Input() == old(chat.Input())
    ensures c.aborted == script[k].cancel
    ensures Carried(chat.messages, chat.streamingMessageId, plan.items, history, newRequests, tools.calls) == ends[k]
  {
    assert table[k] == Before(script, ids, ExecutorOf(env), base, content, h0, r0, k);
    assert ends[k] == Ending(script, ids, ExecutorOf(env), base, content, h0, r0, k);
    newRequests := requests + [StreamRequest(history, isFirstCall)];
    assert newRequests == Requests(script, k + 1, ExecutorOf(env), h0);
    assert Announced(script, k + 1) == Announced(script, k) + |script[k].toolCalls|;
    var call := script[k];
    var currentId := ids[k + 1];
    StreamRound(call, chat, tools, streaming, currentId, Head(base, ids, content, script, k), App.Placeholder(currentId));
    assert App.Placeholder(currentId).content + ChunkText(call.chunks) == ChunkText(call.chunks);
    assert chat.messages == Head(base, ids, content, script, k) + [Streamed(currentId, call)];
  }

  /** The body of the `while` loop for round k: one backend call; when it
      returned tool calls without throwing, the reply is finalised, the tools
      run, and a fresh empty reply becomes the streaming message. */
  method Round(k: nat, isFirstCall: bool, script: seq<StreamCall>, ids: seq<MessageId>, env: ToolRegistry.ToolEnv,
               ghost base: seq<ChatMessage>, ghost content: string, ghost h0: seq<ApiMessage>, ghost r0: seq<ToolCall>,
               chat: ChatStore, plan: PlanStore, tools: ToolCallStore, streaming: Streaming, c: AbortController,
               history: seq<ApiMessage>, requests: seq<StreamRequest>, ghost table: seq<Carried>, ghost ends: seq<Carried>)
    returns (more: bool, failure: Option<string>, newHistory: seq<ApiMessage>, newRequests: seq<StreamRequest>)
    requires Script(script) && |ids| >= |script| + 2 && k < |script| && isFirstCall == (k == 0)
    requires Tabled(script, ids, ExecutorOf(env), base, content, h0, r0, table, ends)
    requires FreshAt(base, ids, content, script, k)
    requires streaming.controller == Some(c) && !c.aborted
    requires Carried(chat.messages, chat.streamingMessageId, plan.items, history, requests, tools.calls) == table[k]
    modifies chat, plan, tools, streaming, c
    ensures streaming.controller == Some(c) && streaming.isStreamingLocal == old(streaming.isStreamingLocal)
    ensures chat.isStreaming == old(chat.isStreaming) && chat.Input() == old(chat.Input())
    ensures c.aborted == script[k].cancel
    ensures more <==> script[k].thrown.None? && script[k].toolCalls != []
    ensures more ==> failure.None? && (c.aborted <==> k + 1 == |script|)
    ensures more ==> (Carried(chat.messages, chat.streamingMessageId, plan.items, newHistory, newRequests, tools.calls)
      == table[k + 1])
    ensures !more ==> k == |script| - 1 && failure == script[k].thrown
    ensures !more ==> (Carried(chat.messages, chat.streamingMessageId, plan.items, newHistory, newRequests, tools.calls)
      == ends[k])
  {
    newRequests := OpenRound(k, isFirstCall, script, ids, env, base, content, h0, r0,
                             chat, plan, tools, streaming, c, history, requests, table, ends);
    RoundPosition(script, k);
    var call := script[k];
    newHistory := history;
    failure := None;
    if call.thrown.Some? {
      failure := call.thrown;
      more := false;
    } else if |call.toolCalls| > 0 {
      newHistory := NextReply(k, script, ids, env, base, content, h0, r0, newRequests, table, ends, chat, plan, tools, history);
      more := true;
    } else {
      more := false;
    }
  }

  /** The `catch` and `finally` of the turn: the reply is finalised, or made
      an error message when the call threw without a cancel; a cancel marks
      it interrupted; streaming is switched off. */
  method Settle(chat: ChatStore, streaming: Streaming, c: AbortController, currentId: MessageId,
                failure: Option<string>, ghost head: seq<ChatMessage>, ghost reply: ChatMessage)
    requires reply.id == currentId && Fresh(head, currentId)
    requires chat.messages == head + [reply] && streaming.controller == Some(c)
    modifies chat, streaming
    ensures var patch := if failure.Some? && !c.aborted then ErrorPatch(failure.value) else Finalise;
      var settled := ApplyPatch(reply, patch);
      chat.messages == head + [if c.aborted then ApplyPatch(settled, Interrupt) else settled]
    ensures !chat.isStreaming && chat.streamingMessageId == None && chat.Input() == old(chat.Input())
    ensures streaming.controller == None && !streaming.isStreamingLocal
  {
    ghost var patch := if failure.Some? && !c.aborted then ErrorPatch(failure.value) else Finalise;
    PatchLast(head, reply, patch);
    if failure.Some? {
      if c.aborted {
        chat.UpdateMessage(currentId, Finalise);
      } else {
        chat.UpdateMessage(currentId, ErrorPatch(failure.value));
      }
    } else {
      chat.UpdateMessage(currentId, Finalise);
    }
    if streaming.controller.Some? && streaming.controller.value.aborted {
      PatchLast(head, ApplyPatch(reply, patch), Interrupt);
      chat.UpdateMessage(currentId, Interrupt);
    }
    chat.SetIsStreaming(false);
    chat.SetStreamingMessageId(None);
    streaming.EndStreaming();
  }

  /** The start of the turn, up to the loop: the plan cleared, the user
      message and an empty reply added, the shortcut hook asked, a new abort
      controller, and the history of the first backend call. */
  method Begin(content: string, chat: ChatStore, plan: PlanStore, streaming: Streaming, shortcut: SmartShortcut,
               messageCount: int, now: int, ids: seq<MessageId>, script: seq<StreamCall>)
    returns (history: seq<ApiMessage>, shortcutRequest: Option<string>)
    requires |ids| >= 2
    modifies chat, plan, streaming, shortcut
    ensures history == InitialHistory(old(chat.messages), content)
    ensures plan.items == []
    ensures chat.messages == Head(old(chat.messages), ids, content, script, 0) + [App.Placeholder(ids[1])]
    ensures chat.isStreaming && chat.streamingMessageId == Some(ids[1]) && chat.Input() == old(chat.Input())
    ensures streaming.controller.Some? && fresh(streaming.controller.value) && !streaming.controller.value.aborted
    ensures streaming.isStreamingLocal
    ensures ShouldRequest(messageCount, old(shortcut.pending)) ==> shortcutRequest == Some(Summary(old(chat.messages), content)) && shortcut.pending
    ensures !ShouldRequest(messageCount, old(shortcut.pending)) ==> shortcutRequest == None && shortcut.pending == old(shortcut.pending)
  {
    var snapshot := chat.messages;
    plan.Clear();
    App.StartTurn(chat, content, ids[0], ids[1]);
    shortcutRequest := shortcut.CheckAndGenerateShortcut(content, messageCount, snapshot);
    var c := streaming.StartStreaming(now);
    history := InitialHistory(snapshot, content);
    assert ClosedRounds(script, ids, 0) == [];
  }

  /** The `while (continueLoop && !aborted)` loop of the turn, from the
      first backend call to the one that ends the turn. */
  method Rounds(script: seq<StreamCall>, ids: seq<MessageId>, env: ToolRegistry.ToolEnv,
                ghost base: seq<ChatMessage>, ghost content: string, h0: seq<ApiMessage>, ghost r0: seq<ToolCall>,
                ghost table: seq<Carried>, ghost ends: seq<Carried>,
                chat: ChatStore, plan: PlanStore, tools: ToolCallStore, streaming: Streaming, c: AbortController)
    returns (requests: seq<StreamRequest>, k: nat, continueLoop: bool, failure: Option<string>, history: seq<ApiMessage>)
    requires Script(script) && |ids| >= |script| + 2
    requires Tabled(script, ids, ExecutorOf(env), base, content, h0, r0, table, ends)
    requires forall j :: 0 <= j <= |script| ==> FreshAt(base, ids, content, script, j)
    requires streaming.controller == Some(c) && !c.aborted && streaming.isStreamingLocal && chat.isStreaming
    requires Carried(chat.messages, chat.streamingMessageId, plan.items, h0, [], tools.calls) == table[0]
    modifies chat, plan, tools, streaming, c
    ensures k <= |script| && streaming.controller == Some(c) && streaming.isStreamingLocal
    ensures chat.isStreaming && chat.Input() == old(chat.Input())
    ensures continueLoop ==> k == |script| && c.aborted && failure.None?
    ensures continueLoop ==> script[k - 1].thrown.None? && script[k - 1].toolCalls != []
    ensures continueLoop ==> (Carried(chat.messages, chat.streamingMessageId, plan.items, history, requests, tools.calls)
      == table[k])
    ensures !continueLoop ==> k == |script| - 1 && c.aborted == script[k].cancel
    ensures !continueLoop ==> failure == script[k].thrown && (failure.None? ==> script[k].toolCalls == [])
    ensures !continueLoop ==> (Carried(chat.messages, chat.streamingMessageId, plan.items, history, requests, tools.calls)
      == ends[k])
  {
    history := h0;
    requests := [];
    continueLoop := true;
    var isFirstCall := true;
    failure := None;
    k := 0;
    while continueLoop && !c.aborted
      invariant 0 <= k <= |script| && continueLoop && failure.None? && isFirstCall == (k == 0)
      invariant streaming.controller == Some(c) && streaming.isStreamingLocal
      invariant chat.isStreaming && chat.Input() == old(chat.Input())
      invariant Carried(chat.messages, chat.streamingMessageId, plan.items, history, requests, tools.calls) == table[k]
      invariant c.aborted <==> k == |script|
      invariant k > 0 ==> script[k - 1].thrown.None? && script[k - 1].toolCalls != []
      decreases |script| - k
    {
      var more;
      more, failure, history, requests := Round(k, isFirstCall, script, ids, env, base, content, h0, r0,
                                                chat, plan, tools, streaming, c, history, requests, table, ends);
      if !more {
        continueLoop := false;
        break;
      }
      isFirstCall := false;
      ghost var done := script[k];
      k := k + 1;
      assert script[k - 1] == done;
    }
  }

  /** `handleSendMessage(content)`: clears the plan, adds the user message
      and an empty streaming reply, asks the shortcut hook, then calls the
      backend until a round ends the turn, finalising each reply and running
      each round's tools; a throw turns the reply into an error message
      unless the user cancelled, a cancel marks the last reply interrupted,
      and streaming is switched off at the end. */
  method HandleSendMessage(content: string, chat: ChatStore, plan: PlanStore, tools: ToolCallStore,
                           streaming: Streaming, shortcut: SmartShortcut, messageCount: int, now: int,
                           ids: seq<MessageId>, script: seq<StreamCall>, env: ToolRegistry.ToolEnv)
    returns (requests: seq<StreamRequest>, shortcutRequest: Option<string>)
    requires Script(script) && IdsOk(chat.messages, ids, script)
    modifies chat, plan, tools, streaming, shortcut
    ensures chat.messages == old(chat.messages) + TurnMessages(script, ids, content)
    ensures requests == Requests(script, |script|, ExecutorOf(env), InitialHistory(old(chat.messages), content))
    ensures plan.items == PlanAfter(script, ToolRounds(script), ExecutorOf(env))
    ensures tools.calls == TurnRecords(script, ids, ExecutorOf(env), old(tools.calls))
    ensures |tools.calls| == |old(tools.calls)| + Announced(script, |script|)
    ensures !chat.isStreaming && chat.streamingMessageId == None && chat.Input() == old(chat.Input())
    ensures streaming.controller == None && !streaming.isStreamingLocal
    ensures ShouldRequest(messageCount, old(shortcut.pending)) ==> shortcutRequest == Some(Summary(old(chat.messages), content)) && shortcut.pending
    ensures !ShouldRequest(messageCount, old(shortcut.pending)) ==> shortcutRequest == None && shortcut.pending == old(shortcut.pending)
  {
    ghost var base := chat.messages;
    var history;
    history, shortcutRequest := Begin(content, chat, plan, streaming, shortcut, messageCount, now, ids, script);
    var c := streaming.controller.value;
    AllFresh(base, ids, content, script);
    ghost var exec := ExecutorOf(env);
    ghost var r0 := tools.calls;
    ghost var table := Table(script, ids, exec, base, content, history, r0);
    ghost var ends := Ends(script, ids, exec, base, content, history, r0);
    TablesTabled(script, ids, exec, base, content, history, r0);
    assert table[0] == Before(script, ids, exec, base, content, history, r0, 0);
    var k, continueLoop, failure, lastHistory;
    requests, k, continueLoop, failure, lastHistory := Rounds(script, ids, env, base, content, history, r0, table, ends,
                                                              chat, plan, tools, streaming, c);
    assert FreshAt(base, ids, content, script, k);
    CloseTurn(script, ids, env, base, content, history, r0, table, ends, chat, plan, tools, streaming, c,
              requests, lastHistory, k, continueLoop, failure);
  }

  /** What follows the loop: the `catch` and `finally` for the reply of
      the last round, and the state the whole turn leaves. */
  method CloseTurn(script: seq<StreamCall>, ids: seq<MessageId>, env: ToolRegistry.ToolEnv,
                   ghost base: seq<ChatMessage>, ghost content: string, ghost h0: seq<ApiMessage>, ghost r0: seq<ToolCall>,
                   ghost table: seq<Carried>, ghost ends: seq<Carried>,
                   chat: ChatStore, plan: PlanStore, tools: ToolCallStore, streaming: Streaming, c: AbortController,
                   ghost requests: seq<StreamRequest>, ghost lastHistory: seq<ApiMessage>,
                   k: nat, continueLoop: bool, failure: Option<string>)
    requires Script(script) && |ids| >= |script| + 2 && k <= |script|
    requires Tabled(script, ids, ExecutorOf(env), base, content, h0, r0, table, ends)
    requires FreshAt(base, ids, content, script, k) && streaming.controller == Some(c)
    requires continueLoop ==> k == |script| && c.aborted && failure.None?
    requires continueLoop ==> script[k - 1].thrown.None? && script[k - 1].toolCalls != []
    requires continueLoop ==> (Carried(chat.messages, chat.streamingMessageId, plan.items, lastHistory, requests, tools.calls)
      == table[k])
    requires !continueLoop ==> k == |script| - 1 && c.aborted == script[k].cancel
    requires !continueLoop ==> failure == script[k].thrown && (failure.None? ==> script[k].toolCalls == [])
    requires !continueLoop ==> (Carried(chat.messages, chat.streamingMessageId, plan.items, lastHistory, requests, tools.calls)
      == ends[k])
    modifies chat, streaming
    ensures chat.messages == base + TurnMessages(script, ids, content)
    ensures requests == Requests(script, |script|, ExecutorOf(env), h0)
    ensures plan.items == PlanAfter(script, ToolRounds(script), ExecutorOf(env))
    ensures tools.calls == TurnRecords(script, ids, ExecutorOf(env), r0)
    ensures !chat.isStreaming && chat.streamingMessageId == None && chat.Input() == old(chat.Input())
    ensures streaming.controller == None && !streaming.isStreamingLocal
  {
    if continueLoop {
      assert table[k] == Before(script, ids, ExecutorOf(env), base, content, h0, r0, k);
    } else {
      assert ends[k] == Ending(script, ids, ExecutorOf(env), base, content, h0, r0, k);
    }
    LastRecords(script, ids, ExecutorOf(env), r0, k, continueLoop, tools.calls);
    var currentId := ids[k + 1];
    ghost var reply := if continueLoop then App.Placeholder(currentId) else Streamed(currentId, script[k]);
    Settle(chat, streaming, c, currentId, failure, Head(base, ids, content, script, k), reply);
    FinalMessages(base, ids, content, script, k, continueLoop, c.aborted);
  }

  /** The records the loop leaves, in each of the ways it can end, are
      those of the whole turn. */
  lemma LastRecords(script: seq<StreamCall>, ids: seq<MessageId>, exec: Executor, r0: seq<ToolCall>, k: nat,
                    continued: bool, records: seq<ToolCall>)
    requires Script(script) && |ids| >= |script| + 2 && k <= |script|
    requires continued ==> (k == |script| && script[k - 1].thrown.None? && script[k - 1].toolCalls != []
      && records == RecordsAfter(script, ids, exec, r0, k))
    requires !continued ==> (k == |script| - 1 && (script[k].thrown.None? ==> script[k].toolCalls == [])
      && records == RecordsAfter(script, ids, exec, r0, k) + Registrations(script[k].toolCalls, ids[k + 1]))
    ensures records == TurnRecords(script, ids, exec, r0)
  {
  }

  /** The messages the turn leaves in each of the ways the loop can end. */
  lemma FinalMessages(base: seq<ChatMessage>, ids: seq<MessageId>, content: string, script: seq<StreamCall>,
                      k: nat, continued: bool, aborted: bool)
    requires Script(script) && |ids| >= |script| + 2
    requires continued ==> k == |script| && aborted
    requires continued ==> script[k - 1].thrown.None? && script[k - 1].toolCalls != []
    requires !continued ==> k == |script| - 1 && aborted == script[k].cancel
    requires !continued && script[k].thrown.None? ==> script[k].toolCalls == []
    ensures k == ToolRounds(script)
    ensures var reply := if continued then App.Placeholder(ids[k + 1]) else Streamed(ids[k + 1], script[k]);
      var patch := if !continued && script[k].thrown.Some? && !aborted then ErrorPatch(script[k].thrown.value) else Finalise;
      var settled := ApplyPatch(reply, patch);
      var final := if aborted then ApplyPatch(settled, Interrupt) else settled;
      Head(base, ids, content, script, k) + [final] == base + TurnMessages(script, ids, content)
  {
    if continued {
      FinalContinued(base, ids, content, script);
    } else {
      FinalStopped(base, ids, content, script);
    }
  }

  /** The turn ends after a round that returned tool calls: the fresh reply
      of the next round is closed and marked interrupted. */
  lemma FinalContinued(base: seq<ChatMessage>, ids: seq<MessageId>, content: string, script: seq<StreamCall>)
    requires Script(script) && |ids| >= |script| + 2
    requires script[|script| - 1].thrown.None? && script[|script| - 1].toolCalls != []
    ensures Head(base, ids, content, script, |script|) + [ApplyPatch(ApplyPatch(App.Placeholder(ids[|script| + 1]), Finalise), Interrupt)]
      == base + TurnMessages(script, ids, content)
  {
    var last := |script| - 1;
    HeadSnoc(base, ids, content, script, last);
    assert TurnMessages(script, ids, content) == [App.UserMessage(ids[0], content)] + ClosedRounds(script, ids, last)
      + [Closed(ids[last + 1], script[last]), ChatMessage(ids[last + 2], Ai, "", true, false, true, None)];
  }

  /** The turn ends in a round without tool calls, or one that threw: its
      reply is settled (an error message when it threw without a cancel) and
      marked interrupted if cancelled. */
  lemma FinalStopped(base: seq<ChatMessage>, ids: seq<MessageId>, content: string, script: seq<StreamCall>)
    requires Script(script) && |ids| >= |script| + 2
    requires script[|script| - 1].thrown.None? ==> script[|script| - 1].toolCalls == []
    ensures var k := |script| - 1;
      var patch := if script[k].thrown.Some? && !script[k].cancel then ErrorPatch(script[k].thrown.value) else Finalise;
      var settled := ApplyPatch(Streamed(ids[k + 1], script[k]), patch);
      var final := if script[k].cancel then ApplyPatch(settled, Interrupt) else settled;
      Head(base, ids, content, script, k) + [final] == base + TurnMessages(script, ids, content)
  {
    var k := |script| - 1;
    var patch := if script[k].thrown.Some? && !script[k].cancel then ErrorPatch(script[k].thrown.value) else Finalise;
    var settled := ApplyPatch(Streamed(ids[k + 1], script[k]), patch);
    var final := if script[k].cancel then ApplyPatch(settled, Interrupt) else settled;
    assert LastMessages(script[k], ids[k + 1], ids[k + 2]) == [final];
  }
}
