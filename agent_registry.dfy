/** The agent registry (cli/src/agents/registry.ts): agents looked up by
    name, their parameters checked against the agent's schema, then run with
    the caller's context. The plan agent is the only one registered. */
module AgentRegistry {
  import opened Common
  import opened Json
  import opened PlanStore
  import opened AgentExecutor
  import PlanAgent

  const AGENT_NAMES: seq<string> := [PlanAgent.NAME]

  /** `getAgentNames()` */
  function GetAgentNames(): (r: seq<string>)
    ensures r == ["plan"]
  {
    AGENT_NAMES
  }

  /** `getAgentDescriptions()`: each registered name mapped to its description. */
  function GetAgentDescriptions(): (r: map<string, string>)
    ensures r.Keys == set n | n in GetAgentNames()
    ensures r["plan"] == PlanAgent.DESCRIPTION
  {
    map[PlanAgent.NAME := PlanAgent.DESCRIPTION]
  }

  /** `executeAgent` as a function of the plan it starts from. */
  function Outcome(name: string, params: map<string, Json>, context: AgentContext, env: PlanAgent.AgentEnv, plan: seq<PlanItem>)
    : (r: (seq<PlanItem>, PlanAgent.AgentResult))
    ensures name !in GetAgentNames() ==> r == (plan, PlanAgent.AgentResult(false, "Unknown agent: " + name, None))
    ensures name in GetAgentNames() && PlanAgent.ParseParams(params).None? ==>
      r == (plan, PlanAgent.AgentResult(false, "Invalid parameters", None))
    ensures name in GetAgentNames() && PlanAgent.ParseParams(params).Some? ==>
      r == PlanAgent.Outcome(PlanAgent.ParseParams(params).value, context, env, plan)
    ensures !r.1.success ==> r.0 == plan
  {
    if name != PlanAgent.NAME then (plan, PlanAgent.AgentResult(false, "Unknown agent: " + name, None))
    else match PlanAgent.ParseParams(params)
      case None => (plan, PlanAgent.AgentResult(false, "Invalid parameters", None))
      case Some(p) => PlanAgent.Outcome(p, context, env, plan)
  }

  /** `executeAgent`: lookup, validation, then the agent itself. */
  method ExecuteAgent(name: string, params: map<string, Json>, context: AgentContext, env: PlanAgent.AgentEnv, store: PlanStore)
    returns (r: PlanAgent.AgentResult)
    modifies store
    ensures (store.items, r) == Outcome(name, params, context, env, old(store.items))
  {
    if name != PlanAgent.NAME {
      return PlanAgent.AgentResult(false, "Unknown agent: " + name, None);
    }
    var parsed := PlanAgent.ParseParams(params);
    if parsed.None? {
      return PlanAgent.AgentResult(false, "Invalid parameters", None);
    }
    r := PlanAgent.Execute(parsed.value, context, env, store);
  }
}
