/** The plan sub-agent (cli/src/agents/plan-agent.ts): asks a model for a
    JSON plan, sanitises whatever array comes back, and stores it unless it
    is all done. `JSON.parse` and `JSON.stringify` are oracles in the
    environment, as is the text-generation call. */
module PlanAgent {
  import opened Common
  import opened Json
  import opened PlanStore
  import opened AgentExecutor
  import PlanWrite

  const NAME := "plan"

  const DESCRIPTION := "Break down a task into short actionable items (2-3 words each, max 8 items)"

  /** The sub-agent's system prompt. */
  const PLAN_SYSTEM_PROMPT := "You are a task planning agent. Your job is to break down tasks into short, actionable items.\n\nRules:\n- Create 2-8 items maximum\n- Each item should be 2-3 words\n- Use action verbs (Create, Update, Add, Fix, Remove, etc.)\n- Items should be sequential steps\n- Mark the first incomplete item as \"in_progress\"\n- Keep completed items as \"completed\"\n\nOutput format (JSON array):\n[\n  {\"id\": \"1\", \"content\": \"Create types\", \"status\": \"completed\"},\n  {\"id\": \"2\", \"content\": \"Add executor\", \"status\": \"in_progress\"},\n  {\"id\": \"3\", \"content\": \"Update handler\", \"status\": \"pending\"}\n]\n\nOnly output the JSON array, nothing else."

  /** At most this many items are kept. */
  const MAX_ITEMS: nat := 8

  /** Item content is cut to this many code units. */
  const MAX_CONTENT: nat := 50

  datatype PlanParams = PlanParams(task: string, currentPlan: Option<seq<PlanItem>>)

  /** What an agent returns; `data` is the plan agent's item list. */
  datatype AgentResult = AgentResult(success: bool, summary: string, data: Option<seq<PlanItem>>)

  /** The world the agent runs in: the OpenRouter key, the generation call,
      `JSON.parse` (None when it throws), `JSON.stringify(plan, null, 2)`, and
      the text of a schema rejection. */
  datatype AgentEnv = AgentEnv(
    apiKey: Option<string>,
    generate: (string, string) -> Generation,
    parse: string -> Option<Json>,
    stringify: seq<PlanItem> -> string,
    schemaError: map<string, Json> -> string)

  /** `planParams.safeParse(params)`: a string `task` and, if present, a
      `currentPlan` array of well-formed items. */
  function ParseParams(params: map<string, Json>): (r: Option<PlanParams>)
    ensures r.Some? ==> "task" in params && params["task"] == JStr(r.value.task)
    ensures r.Some? && r.value.currentPlan.Some? ==>
      "currentPlan" in params && params["currentPlan"].JArr?
      && PlanWrite.ParseItems(params["currentPlan"].elems) == r.value.currentPlan
    ensures r.Some? && r.value.currentPlan.None? ==> "currentPlan" !in params
  {
    if "task" in params && params["task"].JStr? then
      if "currentPlan" !in params then Some(PlanParams(params["task"].s, None))
      else if params["currentPlan"].JArr? && PlanWrite.ParseItems(params["currentPlan"].elems).Some? then
        Some(PlanParams(params["task"].s, PlanWrite.ParseItems(params["currentPlan"].elems)))
      else None
    else None
  }

  /** The user prompt: the task, and the current plan when there is one. */
  function UserPrompt(params: PlanParams, stringify: seq<PlanItem> -> string): (r: string)
    ensures StartsWith(r, "Break down this task: \"" + params.task + "\"")
    ensures params.currentPlan.None? || params.currentPlan.value == [] ==>
      r == "Break down this task: \"" + params.task + "\""
  {
    var base := "Break down this task: \"" + params.task + "\"";
    if params.currentPlan.Some? && |params.currentPlan.value| > 0 then
      base + ("\n\nCurrent plan state:\n" + stringify(params.currentPlan.value))
        + "\n\nUpdate the plan based on progress. Keep completed items, update statuses."
    else base
  }

  function Config(params: PlanParams, context: AgentContext, stringify: seq<PlanItem> -> string): AgentExecutorConfig
  {
    AgentExecutorConfig(NAME, PLAN_SYSTEM_PROMPT, UserPrompt(params, stringify), context)
  }

  /** One element of the parsed array, made into a plan item: a falsy id
      becomes its 1-based position, the content is `String(content)` cut to
      50 code units, and an unknown status becomes pending. A `null` element
      makes the property access throw (None). */
  function SanitiseItem(item: Json, index: nat): (r: Option<PlanItem>)
    ensures r.None? <==> item.JNull?
    ensures r.Some? ==> |r.value.content| <= MAX_CONTENT
    ensures r.Some? ==> var s := ToJsString(Field(item, "content"));
      r.value.content <= s && |r.value.content| == (if |s| < MAX_CONTENT then |s| else MAX_CONTENT)
    ensures r.Some? && !TruthyId(item) ==> r.value.id == NatToString(index + 1)
    ensures r.Some? && TruthyId(item) && Field(item, "id").value.JStr? ==> r.value.id == Field(item, "id").value.s
    ensures r.Some? ==> r.value.status == (if KnownStatus(item).Some? then KnownStatus(item).value else Pending)
  {
    if item.JNull? then None
    else
      Some(PlanItem(
        if TruthyId(item) then JsonToString(Field(item, "id").value) else NatToString(index + 1),
        Take(ToJsString(Field(item, "content")), MAX_CONTENT),
        match KnownStatus(item) case Some(s) => s case None => Pending))
  }

  /** `item.id` is set to a truthy value. */
  predicate TruthyId(item: Json)
  {
    Field(item, "id").Some? && Truthy(Field(item, "id").value)
  }

  /** `item.status` when it is one of the three status strings. */
  function KnownStatus(item: Json): (r: Option<PlanItemStatus>)
    ensures r.Some? ==> Field(item, "status") == Some(JStr(StatusName(r.value)))
  {
    match Field(item, "status")
    case Some(JStr(s)) => ParseStatus(s)
    case _ => None
  }

  /** The `map` over the elements from position i on. */
  function SanitiseFrom(elems: seq<Json>, i: nat): (r: Option<seq<PlanItem>>)
    requires i <= |elems|
    ensures r.Some? ==> |r.value| == |elems| - i
    ensures r.Some? ==> forall k :: 0 <= k < |r.value| ==> SanitiseItem(elems[i + k], i + k) == Some(r.value[k])
    ensures r.None? <==> exists k :: i <= k < |elems| && elems[k].JNull?
    decreases |elems| - i
  {
    if i == |elems| then Some([])
    else
      var head := SanitiseItem(elems[i], i);
      var rest := SanitiseFrom(elems, i + 1);
      if head.None? then
        assert elems[i].JNull?;
        None
      else if rest.None? then
        var k :| i + 1 <= k < |elems| && elems[k].JNull?;
        assert i <= k;
        None
      else
        assert !elems[i].JNull?;
        assert forall k :: i + 1 <= k < |elems| ==> !elems[k].JNull?;
        var r := [head.value] + rest.value;
        assert forall k :: 0 < k < |r| ==> r[k] == rest.value[k - 1];
        Some(r)
  }

  /** `items.slice(0, 8).map(...)` on the parsed value: item k is element k
      sanitised, for the first eight elements in order. Anything but an array,
      or a `null` among those eight, makes the `slice(0, 8).map(...)` chain
      throw. */
  function Sanitise(parsed: Json): (r: Option<seq<PlanItem>>)
    ensures r.Some? ==> parsed.JArr? && |r.value| == (if |parsed.elems| < MAX_ITEMS then |parsed.elems| else MAX_ITEMS)
    ensures r.Some? ==> forall k :: 0 <= k < |r.value| ==> |r.value[k].content| <= MAX_CONTENT
    ensures r.Some? ==> forall k :: 0 <= k < |r.value| ==> SanitiseItem(parsed.elems[k], k) == Some(r.value[k])
    ensures r.None? <==> !parsed.JArr? || exists k :: 0 <= k < |parsed.elems| && k < MAX_ITEMS && parsed.elems[k].JNull?
  {
    match parsed
    case JArr(elems) => SanitiseFrom(if |elems| <= MAX_ITEMS then elems else elems[..MAX_ITEMS], 0)
    case _ => None
  }

  /** An item already in shape (a non-empty id, content within bounds) comes
      through sanitising unchanged. */
  lemma SanitiseWellFormed(item: PlanItem, index: nat)
    requires item.id != "" && |item.content| <= MAX_CONTENT
    ensures SanitiseItem(PlanWrite.EncodeItem(item), index) == Some(item)
  {
    ParseStatusName(item.status);
  }

  /** A list of at most eight items in shape, written out as JSON, is
      sanitised back to itself. */
  lemma {:induction false} SanitiseEncoded(items: seq<PlanItem>)
    requires |items| <= MAX_ITEMS
    requires forall k :: 0 <= k < |items| ==> items[k].id != "" && |items[k].content| <= MAX_CONTENT
    ensures Sanitise(JArr(PlanWrite.EncodeItems(items))) == Some(items)
  {
    EncodedFrom(items, 0);
  }

  lemma {:induction false} EncodedFrom(items: seq<PlanItem>, i: nat)
    requires i <= |items|
    requires forall k :: 0 <= k < |items| ==> items[k].id != "" && |items[k].content| <= MAX_CONTENT
    ensures SanitiseFrom(PlanWrite.EncodeItems(items), i) == Some(items[i..])
    decreases |items| - i
  {
    var elems := PlanWrite.EncodeItems(items);
    if i < |items| {
      EncodedAt(items, i);
      SanitiseWellFormed(items[i], i);
      EncodedFrom(items, i + 1);
      assert items[i..] == [items[i]] + items[i + 1..];
    }
  }

  lemma {:induction false} EncodedAt(items: seq<PlanItem>, i: nat)
    requires i < |items|
    ensures PlanWrite.EncodeItems(items)[i] == PlanWrite.EncodeItem(items[i])
  {
    if i > 0 {
      EncodedAt(items[1..], i - 1);
    }
  }

  function ParseFailure(): AgentResult
  {
    AgentResult(false, "Failed to parse plan", Some([]))
  }

  /** The store update and the result once the items are sanitised. */
  function Settle(items: seq<PlanItem>): (r: (seq<PlanItem>, AgentResult))
    ensures r.1.success && r.1.data == Some(r.0)
    ensures r.0 == [] || HasUnfinished(r.0)
    ensures items != [] && !HasUnfinished(items) ==> r.0 == [] && r.1.summary == "Plan completed"
    ensures items == [] || HasUnfinished(items) ==> r.0 == items && r.1.summary == PlanWrite.ProgressSummary(items)
  {
    AllCompletedIff(items);
    if CountCompleted(items) == |items| && |items| > 0 then ([], AgentResult(true, "Plan completed", Some([])))
    else (items, AgentResult(true, PlanWrite.ProgressSummary(items), Some(items)))
  }

  /** What `planAgent.execute` makes of the model's answer, as a function of
      the plan it starts from: the plan it leaves and the result. */
  function Interpret(llm: AgentExecutorResult, env: AgentEnv, plan: seq<PlanItem>): (r: (seq<PlanItem>, AgentResult))
    ensures !r.1.success ==> r.0 == plan && r.1.data == Some([])
    ensures r.1.success ==> r.0 == [] || HasUnfinished(r.0)
    ensures r.1.success ==> |r.0| <= MAX_ITEMS && forall k :: 0 <= k < |r.0| ==> |r.0[k].content| <= MAX_CONTENT
    ensures r.1.success ==> r.1.data == Some(r.0)
    ensures !llm.success ==> r == (plan, AgentResult(false, "Failed to generate plan", Some([])))
    ensures llm.success && (env.parse(llm.text).None? || Sanitise(env.parse(llm.text).value).None?) ==>
      r == (plan, ParseFailure())
    ensures llm.success && env.parse(llm.text).Some? && Sanitise(env.parse(llm.text).value).Some? ==>
      r == Settle(Sanitise(env.parse(llm.text).value).value)
  {
    if !llm.success then (plan, AgentResult(false, "Failed to generate plan", Some([])))
    else match env.parse(llm.text)
      case None => (plan, ParseFailure())
      case Some(parsed) =>
        match Sanitise(parsed)
        case None => (plan, ParseFailure())
        case Some(items) =>
          AllCompletedIff(items);
          Settle(items)
  }

  /** `planAgent.execute` on parsed parameters: one generation call on the
      plan prompt, interpreted. */
  function Outcome(params: PlanParams, context: AgentContext, env: AgentEnv, plan: seq<PlanItem>): (r: (seq<PlanItem>, AgentResult))
    ensures !Given(env.apiKey) ==> r == (plan, AgentResult(false, "Failed to generate plan", Some([])))
  {
    Interpret(Run(Config(params, context, env.stringify), env.apiKey, env.generate), env, plan)
  }

  /** The user prompt, built the way `planAgent.execute` builds it. */
  method BuildUserPrompt(params: PlanParams, stringify: seq<PlanItem> -> string) returns (userPrompt: string)
    ensures userPrompt == UserPrompt(params, stringify)
  {
    userPrompt := "Break down this task: \"" + params.task + "\"";
    if params.currentPlan.Some? && |params.currentPlan.value| > 0 {
      userPrompt := userPrompt + ("\n\nCurrent plan state:\n" + stringify(params.currentPlan.value));
      userPrompt := userPrompt + "\n\nUpdate the plan based on progress. Keep completed items, update statuses.";
    }
  }

  /** The part of `planAgent.execute` after the generation call: parses and
      sanitises the answer and updates the plan store unless something
      failed. */
  method Apply(result: AgentExecutorResult, env: AgentEnv, store: PlanStore) returns (r: AgentResult)
    modifies store
    ensures (store.items, r) == Interpret(result, env, old(store.items))
  {
    if !result.success {
      return AgentResult(false, "Failed to generate plan", Some([]));
    }
    var parsed := env.parse(result.text);
    if parsed.None? {
      return ParseFailure();
    }
    var validItems := Sanitise(parsed.value);
    if validItems.None? {
      return ParseFailure();
    }
    var items := validItems.value;
    var completed := CountCompleted(items);
    if completed == |items| && |items| > 0 {
      store.Clear();
      return AgentResult(true, "Plan completed", Some([]));
    }
    store.SetItems(items);
    r := AgentResult(true, PlanWrite.ProgressSummary(items), Some(items));
  }

  /** `planAgent.execute`: builds the prompt, calls the model, and updates
      the plan store unless something failed. */
  method Execute(params: PlanParams, context: AgentContext, env: AgentEnv, store: PlanStore) returns (r: AgentResult)
    modifies store
    ensures (store.items, r) == Outcome(params, context, env, old(store.items))
  {
    var userPrompt := BuildUserPrompt(params, env.stringify);
    var result := ExecuteAgentLLM(AgentExecutorConfig(NAME, PLAN_SYSTEM_PROMPT, userPrompt, context), env.apiKey, env.generate);
    r := Apply(result, env, store);
  }
}
