/** The records the handlers exchange with the protocol library (mcp.types),
    the Option/Result wrappers, and the Python exceptions a handler raises. */
module McpTypes {

  datatype Option<+T> = None | Some(value: T)

  /** A handler either returns a value or raises; Err carries what it raised. */
  datatype Result<+T, +E> = Ok(value: T) | Err(error: E)

  /** The exceptions the handlers raise, with the message Python attaches. */
  datatype Raised =
    | ValueError(message: string)
    | KeyError(key: string)
    | AttributeError(message: string)

  /** What `arguments.get(...)` raises when `arguments` is None. */
  const NoneHasNoGet := "'NoneType' object has no attribute 'get'"

  /** One entry of a tool's JSON input schema ("properties"). */
  datatype SchemaProperty = SchemaProperty(name: string, jsonType: string, description: Option<string>)

  datatype Tool = Tool(name: string, description: string, properties: seq<SchemaProperty>, required: seq<string>)

  datatype TextContent = TextContent(text: string)

  datatype Resource = Resource(uri: string, name: string, mimeType: string)

  datatype PromptArgument = PromptArgument(name: string, description: string, required: bool)

  datatype Prompt = Prompt(name: string, description: string, arguments: seq<PromptArgument>)

  datatype PromptMessage = PromptMessage(role: string, content: TextContent)

  datatype GetPromptResult = GetPromptResult(messages: seq<PromptMessage>)
}
