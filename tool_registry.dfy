/** The tool registry (cli/src/tools/registry.ts): tools looked up by name,
    their parameters checked against the tool's schema, then run. The
    environment the tools see is a parameter: the Firecrawl key, the search
    request oracle, and the text of a schema rejection. */
module ToolRegistry {
  import opened Common
  import opened Json
  import opened ChatTypes
  import opened PlanStore
  import PlanWrite
  import SearchOnline

  /** The registered tools, in registration order. */
  const TOOL_NAMES: seq<string> := ["search_online", "plan"]

  datatype ToolEnv = ToolEnv(
    firecrawlKey: Option<string>,
    fetch: (string, string) -> SearchOnline.FetchOutcome,
    schemaError: map<string, Json> -> string)

  /** `getToolNames()` */
  function GetToolNames(): (r: seq<string>)
    ensures |r| == 2 && r[0] == "search_online" && r[1] == "plan"
  {
    TOOL_NAMES
  }

  function UnknownTool(name: string): ToolResult
  {
    ToolResult(false, "Unknown tool: " + name, "No executor found for tool \"" + name + "\"")
  }

  function InvalidParameters(message: string): ToolResult
  {
    ToolResult(false, "Invalid parameters", "Validation error: " + message)
  }

  /** `executeTool` as a function of the plan it starts from: the plan it
      leaves and the result. */
  function Outcome(name: string, params: map<string, Json>, env: ToolEnv, plan: seq<PlanItem>): (r: (seq<PlanItem>, ToolResult))
    ensures name !in GetToolNames() ==> r == (plan, UnknownTool(name))
    ensures name == "search_online" ==> r.0 == plan
    ensures name == "search_online" && SearchOnline.ParseParams(params).None? ==>
      r.1 == InvalidParameters(env.schemaError(params))
    ensures name == "search_online" && SearchOnline.ParseParams(params).Some? ==>
      r.1 == SearchOnline.ExecuteSpec(SearchOnline.ParseParams(params).value, env.firecrawlKey, env.fetch)
    ensures name == "plan" && PlanWrite.ParseParams(params).None? ==>
      r == (plan, InvalidParameters(env.schemaError(params)))
    ensures name == "plan" && PlanWrite.ParseParams(params).Some? ==>
      r == PlanWrite.Outcome(PlanWrite.ParseParams(params).value)
    ensures !r.1.success ==> r.0 == plan
    ensures r.0 == [] || r.0 == plan || HasUnfinished(r.0)
  {
    if name == "search_online" then
      match SearchOnline.ParseParams(params)
      case None => (plan, InvalidParameters(env.schemaError(params)))
      case Some(query) => (plan, SearchOnline.ExecuteSpec(query, env.firecrawlKey, env.fetch))
    else if name == "plan" then
      match PlanWrite.ParseParams(params)
      case None => (plan, InvalidParameters(env.schemaError(params)))
      case Some(items) => PlanWrite.Outcome(items)
    else (plan, UnknownTool(name))
  }

  /** `executeTool`: runs the named tool against the plan store. */
  method ExecuteTool(name: string, params: map<string, Json>, env: ToolEnv, store: PlanStore) returns (r: ToolResult)
    modifies store
    ensures (store.items, r) == Outcome(name, params, env, old(store.items))
  {
    if name == "search_online" {
      var query := SearchOnline.ParseParams(params);
      if query.None? {
        return InvalidParameters(env.schemaError(params));
      }
      r := SearchOnline.Execute(query.value, env.firecrawlKey, env.fetch);
    } else if name == "plan" {
      var items := PlanWrite.ParseParams(params);
      if items.None? {
        return InvalidParameters(env.schemaError(params));
      }
      r := PlanWrite.Execute(store, items.value);
    } else {
      r := UnknownTool(name);
    }
  }
}
