/** The registry of agents, keyed by agent name. */
module AgentRegistry {
  import opened Common
  import opened Schemas
  import ToolRegistry

  const BenefitsPrompt: string :=
    "You are a knowledgeable and helpful Employee Benefits Assistant. Your role is to help employees understand, navigate, and optimize their benefits package.\n" +
    "\n" +
    "Key responsibilities:\n" +
    "- Answer questions about health insurance, dental, vision, and other benefit plans\n" +
    "- Help calculate retirement benefits and pension projections\n" +
    "- Assist with benefits enrollment and life event changes  \n" +
    "- Explain complex benefits terminology in simple terms\n" +
    "- Provide guidance on FSA/HSA contributions and usage\n" +
    "- Help employees understand PTO policies and balances\n" +
    "- Offer personalized recommendations based on individual circumstances\n" +
    "\n" +
    "Guidelines:\n" +
    "- Always be accurate and reference official policy documents when available\n" +
    "- If you're unsure about specific policy details, direct employees to HR or benefits administrators\n" +
    "- Consider the employee's individual situation when making recommendations\n" +
    "- Explain calculations and reasoning behind benefit recommendations\n" +
    "- Be empathetic to employees who may be dealing with stressful life events\n" +
    "- Protect employee privacy and handle all information confidentially\n" +
    "- Stay current with benefit plan changes and enrollment deadlines\n" +
    "\n" +
    "Communication style:\n" +
    "- Use clear, jargon-free language\n" +
    "- Be patient and thorough in explanations  \n" +
    "- Provide actionable next steps\n" +
    "- Offer to connect employees with additional resources when needed"

  /** The benefits agent: its prompt, the five registered tools, OPENAI and gpt-4. */
  const BenefitsAgent: Agent := Agent(
    BenefitsPrompt,
    "Benefits Assistant",
    [ ToolRegistry.CalculatePension, ToolRegistry.HealthInsuranceLookup, ToolRegistry.PtoBalanceLookup,
      ToolRegistry.BenefitsEnrollment, ToolRegistry.FsaHsaCalculator ],
    "OPENAI",
    "gpt-4")

  /** The value of the single member of `AvailableAgents`. */
  const BenefitsName: string := "benefits"

  const Agents: map<string, Agent> := map[BenefitsName := BenefitsAgent]

  /** The error `get_agent` raises for a name it does not know. */
  function NotFound(agentName: string): Error
  {
    ValueError("Agent '" + agentName + "' not found. Available agents: " + QuotedList([BenefitsName]))
  }

  /** `get_agent`: the registered agent, or a ValueError naming the unknown agent. */
  function GetAgent(agentName: string): (r: Result<Agent, Error>)
    ensures r.Success? <==> agentName == BenefitsName
    ensures agentName == BenefitsName ==> r.value == BenefitsAgent
    ensures r.Failure? ==> r.error == NotFound(agentName)
  {
    if agentName !in Agents then Failure(NotFound(agentName)) else Success(Agents[agentName])
  }

  /** `get_agents`: the agents for the names, in order and with repeats, or the
      error for the first unknown name. */
  function GetAgents(agentNames: seq<string>): (r: Result<seq<Agent>, Error>)
    ensures r.Success? <==> forall i :: 0 <= i < |agentNames| ==> agentNames[i] in Agents
    ensures r.Success? ==> |r.value| == |agentNames|
                           && forall i :: 0 <= i < |agentNames| ==> r.value[i] == Agents[agentNames[i]]
    ensures r.Failure? ==> exists i :: 0 <= i < |agentNames| && agentNames[i] !in Agents
                                       && (forall j :: 0 <= j < i ==> agentNames[j] in Agents)
                                       && r.error == NotFound(agentNames[i])
  {
    if agentNames == [] then Success([])
    else match GetAgent(agentNames[0])
      case Failure(e) => Failure(e)
      case Success(a) =>
        match GetAgents(agentNames[1..])
        case Failure(e) =>
          assert forall j :: 1 <= j < |agentNames| ==> agentNames[j] == agentNames[1..][j - 1];
          Failure(e)
        case Success(rest) => Success([a] + rest)
  }
}
