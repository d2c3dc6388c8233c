/** The `plan` tool (cli/src/tools/plan-write.ts): its parameter schema and
    its `execute`, which clears the plan or replaces it and reports what it
    did. */
module PlanWrite {
  import opened Common
  import opened Json
  import opened ChatTypes
  import opened PlanStore

  /** The schema's `.max(8)` on the item list. */
  const MAX_ITEMS: nat := 8

  /** `planItemSchema`: an object with string `id` and `content` and a status
      from the enum; other fields are dropped. */
  function ParseItem(j: Json): (r: Option<PlanItem>)
    ensures r.Some? ==> j.JObj? && Field(j, "id") == Some(JStr(r.value.id))
    ensures r.Some? ==> Field(j, "content") == Some(JStr(r.value.content))
    ensures r.Some? ==> Field(j, "status") == Some(JStr(StatusName(r.value.status)))
  {
    match j
    case JObj(f) =>
      if "id" in f && f["id"].JStr? && "content" in f && f["content"].JStr?
        && "status" in f && f["status"].JStr? && ParseStatus(f["status"].s).Some?
      then Some(PlanItem(f["id"].s, f["content"].s, ParseStatus(f["status"].s).value))
      else None
    case _ => None
  }

  /** `z.array(planItemSchema)`: every element must parse. */
  function ParseItems(js: seq<Json>): (r: Option<seq<PlanItem>>)
    ensures r.Some? ==> |r.value| == |js| && forall i :: 0 <= i < |js| ==> ParseItem(js[i]) == Some(r.value[i])
    ensures r.None? ==> exists i :: 0 <= i < |js| && ParseItem(js[i]).None?
  {
    if js == [] then Some([])
    else match (ParseItem(js[0]), ParseItems(js[1..]))
      case (Some(item), Some(rest)) => Some([item] + rest)
      case (None, _) => None
      case (_, None) => None
  }

  /** `planWriteParams.safeParse(params)`: an `items` array of at most eight
      well-formed items. */
  function ParseParams(params: map<string, Json>): (r: Option<seq<PlanItem>>)
    ensures r.Some? ==> |r.value| <= MAX_ITEMS
    ensures r.Some? ==> "items" in params && params["items"].JArr? && ParseItems(params["items"].elems) == r
  {
    if "items" in params && params["items"].JArr? && |params["items"].elems| <= MAX_ITEMS
    then ParseItems(params["items"].elems)
    else None
  }

  function EncodeItem(item: PlanItem): Json
  {
    JObj(map["id" := JStr(item.id), "content" := JStr(item.content), "status" := JStr(StatusName(item.status))])
  }

  function EncodeItems(items: seq<PlanItem>): (r: seq<Json>)
    ensures |r| == |items|
  {
    if items == [] then [] else [EncodeItem(items[0])] + EncodeItems(items[1..])
  }

  /** The parameters a model call would send for a plan. */
  function EncodeParams(items: seq<PlanItem>): map<string, Json>
  {
    map["items" := JArr(EncodeItems(items))]
  }

  /** Any plan of at most eight items is accepted by the schema unchanged. */
  lemma {:induction false} ParseEncodeItems(items: seq<PlanItem>)
    ensures ParseItems(EncodeItems(items)) == Some(items)
  {
    if items != [] {
      ParseStatusName(items[0].status);
      assert ParseItem(EncodeItem(items[0])) == Some(items[0]);
      var e := EncodeItems(items);
      assert e == [EncodeItem(items[0])] + EncodeItems(items[1..]);
      assert e[0] == EncodeItem(items[0]) && e[1..] == EncodeItems(items[1..]);
      ParseEncodeItems(items[1..]);
      assert ParseItems(e) == Some([items[0]] + items[1..]);
      assert [items[0]] + items[1..] == items;
    }
  }

  lemma ParseEncodeParams(items: seq<PlanItem>)
    requires |items| <= MAX_ITEMS
    ensures ParseParams(EncodeParams(items)) == Some(items)
  {
    ParseEncodeItems(items);
  }

  /** More than eight items are always rejected. */
  lemma TooManyRejected(params: map<string, Json>)
    requires "items" in params && params["items"].JArr? && |params["items"].elems| > MAX_ITEMS
    ensures ParseParams(params) == None
  {
  }

  /** "Plan: c/n done" */
  function ProgressSummary(items: seq<PlanItem>): string
  {
    "Plan: " + NatToString(CountCompleted(items)) + "/" + NatToString(|items|) + " done"
  }

  /** What `execute` does with parsed items: the plan it leaves and its result.
      An empty list and an all-completed list both clear the plan. */
  function Outcome(items: seq<PlanItem>): (r: (seq<PlanItem>, ToolResult))
    ensures r.1.success
    ensures r.0 == [] || r.0 == items
    ensures r.0 == [] || HasUnfinished(r.0)
    ensures items == [] ==> r.1 == ToolResult(true, "Plan cleared", "Plan cleared")
    ensures items != [] && !HasUnfinished(items) ==>
      r.0 == [] && r.1 == ToolResult(true, "Plan completed", "All items done, plan cleared")
    ensures HasUnfinished(items) ==> r.0 == items && r.1.summary == ProgressSummary(items)
    ensures HasUnfinished(items) ==> r.1.fullResult == "Plan updated. " + NatToString(|items|) + " items."
  {
    AllCompletedIff(items);
    if items == [] then ([], ToolResult(true, "Plan cleared", "Plan cleared"))
    else if CountCompleted(items) == |items| then ([], ToolResult(true, "Plan completed", "All items done, plan cleared"))
    else (items, ToolResult(true, ProgressSummary(items), "Plan updated. " + NatToString(|items|) + " items."))
  }

  /** `planWrite.execute`: clears or replaces the plan in the store. */
  method Execute(store: PlanStore, items: seq<PlanItem>) returns (r: ToolResult)
    modifies store
    ensures (store.items, r) == Outcome(items)
  {
    if |items| == 0 {
      store.Clear();
      return ToolResult(true, "Plan cleared", "Plan cleared");
    }
    var completed := CountCompleted(items);
    if completed == |items| {
      store.Clear();
      return ToolResult(true, "Plan completed", "All items done, plan cleared");
    }
    store.SetItems(items);
    r := ToolResult(true, ProgressSummary(items), "Plan updated. " + NatToString(|items|) + " items.");
  }
}
