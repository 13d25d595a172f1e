/** Tool declarations: the `Tool`/`ToolInput` schema records and the callable
    tool instances (`BaseTool`), whose `__call__` is supplied from outside. */
module ToolBase {
  import opened Enums

  /** One declared input of a tool; `required` defaults to true in the source. */
  datatype ToolInput = ToolInput(name: string, inputType: InputType, description: string, required: bool)

  /** The serialisable tool schema carried in an agent definition. */
  datatype Tool = Tool(name: string, description: string, inputs: seq<ToolInput>)

  /** A callable tool instance: its canonical name, description and declared inputs. */
  datatype BaseTool = BaseTool(name: string, description: string, inputs: seq<ToolInput>)
}
