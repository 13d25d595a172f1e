/** The request schemas: an `Agent` holds tool instances, an `AgentDefinition`
    (what the workflow receives) holds tool schema records. */
module Schemas {
  import opened ToolBase

  datatype Agent = Agent(systemPrompt: string, name: string, tools: seq<BaseTool>, llmProvider: string, model: string)

  datatype AgentDefinition = AgentDefinition(name: string, systemPrompt: string, tools: seq<Tool>, llmProvider: string, model: string)
}
