/** Tool-call bookkeeping (cli/src/hooks/use-tool-executor.ts): a record is
    registered while the reply streams and completed when the tool has run.
    The record list belongs to the hook's caller, which is not part of this
    model; it is modelled as a list whose update patches the first record
    with the id, as the chat store does for messages. */
module ToolExecutor {
  import opened Common
  import opened Json
  import opened ChatTypes
  import opened PlanStore
  import ToolRegistry

  /** The record id derived from a request: "tool-" and the request id. */
  function ToolId(req: ToolCallRequest): (r: string)
    ensures |r| == 5 + |req.id| && r[5..] == req.id
  {
    "tool-" + req.id
  }

  /** Different requests get different record ids. */
  lemma ToolIdInjective(a: ToolCallRequest, b: ToolCallRequest)
    requires a.id != b.id
    ensures ToolId(a) != ToolId(b)
  {
    assert ToolId(a)[5..] == a.id;
  }

  /** The record `registerToolCall` adds. */
  function Registration(req: ToolCallRequest, messageId: MessageId): (r: ToolCall)
    ensures r.id == ToolId(req) && r.toolName == req.name && r.params == req.args
    ensures r.status == Executing && r.messageId == messageId
  {
    ToolCall(ToolId(req), req.name, req.args, Executing, None, None, messageId)
  }

  /** The fields `executeToolCall` updates. */
  datatype ToolCallPatch = ToolCallPatch(status: ToolCallStatus, summary: string, fullResult: string)

  /** The patch for a finished tool: complete on success, error otherwise,
      with the result's texts copied. */
  function Finish(result: ToolResult): (p: ToolCallPatch)
    ensures p.status == Complete <==> result.success
    ensures p.status == Failed <==> !result.success
    ensures p.summary == result.summary && p.fullResult == result.fullResult
  {
    ToolCallPatch(if result.success then Complete else Failed, result.summary, result.fullResult)
  }

  function ApplyToolPatch(c: ToolCall, p: ToolCallPatch): ToolCall
  {
    c.(status := p.status, summary := Some(p.summary), fullResult := Some(p.fullResult))
  }

  /** The index of the first record with the id. */
  function FindToolCall(calls: seq<ToolCall>, id: string): (r: Option<nat>)
    ensures r.Some? ==> r.value < |calls| && calls[r.value].id == id && forall j :: 0 <= j < r.value ==> calls[j].id != id
    ensures r.None? ==> forall j :: 0 <= j < |calls| ==> calls[j].id != id
  {
    if calls == [] then None
    else if calls[0].id == id then Some(0)
    else match FindToolCall(calls[1..], id)
      case None => None
      case Some(k) => Some(k + 1)
  }

  /** `updateToolCall`: the first record with the id is patched; an unknown
      id changes nothing. */
  function PatchToolCall(calls: seq<ToolCall>, id: string, p: ToolCallPatch): (r: seq<ToolCall>)
    ensures |r| == |calls|
    ensures FindToolCall(calls, id).None? ==> r == calls
    ensures FindToolCall(calls, id).Some? ==>
      var k := FindToolCall(calls, id).value;
      r[k] == ApplyToolPatch(calls[k], p) && forall j :: 0 <= j < |calls| && j != k ==> r[j] == calls[j]
  {
    match FindToolCall(calls, id)
    case None => calls
    case Some(k) => calls[k := ApplyToolPatch(calls[k], p)]
  }

  /** No record has this id. */
  predicate FreshToolId(calls: seq<ToolCall>, id: string)
  {
    forall j :: 0 <= j < |calls| ==> calls[j].id != id
  }

  /** Completing a request just registered updates that record and no other. */
  lemma PatchRegistered(before: seq<ToolCall>, after: seq<ToolCall>, r: ToolCall, p: ToolCallPatch)
    requires FreshToolId(before, r.id)
    ensures PatchToolCall(before + [r] + after, r.id, p) == before + [ApplyToolPatch(r, p)] + after
  {
    var all := before + [r] + after;
    assert all[|before|] == r;
    assert forall j :: 0 <= j < |before| ==> all[j] == before[j];
    assert FindToolCall(all, r.id) == Some(|before|);
    var patched := PatchToolCall(all, r.id, p);
    assert forall j :: 0 <= j < |all| ==> patched[j] == (before + [ApplyToolPatch(r, p)] + after)[j];
  }

  class ToolCallStore {
    var calls: seq<ToolCall>

    constructor ()
      ensures calls == []
    {
      calls := [];
    }

    method AddToolCall(c: ToolCall)
      modifies this
      ensures calls == old(calls) + [c]
    {
      calls := calls + [c];
    }

    method UpdateToolCall(id: string, p: ToolCallPatch)
      modifies this
      ensures calls == PatchToolCall(old(calls), id, p)
    {
      var i := 0;
      while i < |calls| && calls[i].id != id
        invariant 0 <= i <= |calls|
        invariant forall j :: 0 <= j < i ==> calls[j].id != id
      {
        i := i + 1;
      }
      if i < |calls| {
        assert FindToolCall(calls, id) == Some(i);
        calls := calls[i := ApplyToolPatch(calls[i], p)];
      }
    }
  }

  /** `registerToolCall`: adds exactly one executing record for the request
      and returns its id. */
  method RegisterToolCall(store: ToolCallStore, req: ToolCallRequest, messageId: MessageId) returns (toolId: string)
    modifies store
    ensures toolId == ToolId(req)
    ensures store.calls == old(store.calls) + [Registration(req, messageId)]
  {
    toolId := "tool-" + req.id;
    store.AddToolCall(ToolCall(toolId, req.name, req.args, Executing, None, None, messageId));
  }

  /** `executeToolCall`: runs the tool through the registry, completes the
      record with the same derived id, and returns the result unchanged. */
  method ExecuteToolCall(store: ToolCallStore, req: ToolCallRequest, env: ToolRegistry.ToolEnv, plan: PlanStore)
    returns (toolId: string, result: ToolResult)
    modifies store, plan
    ensures toolId == ToolId(req)
    ensures (plan.items, result) == ToolRegistry.Outcome(req.name, req.args, env, old(plan.items))
    ensures store.calls == PatchToolCall(old(store.calls), toolId, Finish(result))
  {
    toolId := "tool-" + req.id;
    result := ToolRegistry.ExecuteTool(req.name, req.args, env, plan);
    store.UpdateToolCall(toolId, ToolCallPatch(if result.success then Complete else Failed, result.summary, result.fullResult));
  }
}
