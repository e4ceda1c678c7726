/** The client's external collaborators, modelled as fixed answers: the MCP
    server (`list_tools`, `list_resources`, `read_resource`, `call_tool`),
    `json.loads` on the model's argument text, and the completion gateway,
    whose replies for one run form a script. */
module Service {
  import opened Wrappers
  import opened Json
  import opened Schema

  /** One content item of a tool or resource result; only text items have a
      `.text` attribute. */
  datatype Content = Text(text: string) | NonText

  /** What the server answers. A missing entry means the call raises. */
  datatype Server = Server(
    tools: Option<seq<Tool>>,                     // list_tools()
    resources: Option<seq<Resource>>,             // list_resources()
    contents: map<string, seq<Content>>,          // read_resource(uri)
    results: map<(string, Value), seq<Content>>)  // call_tool(name, arguments)

  /** `json.loads`: the argument texts that parse, with their value; any other
      text raises. */
  type Decoder = map<string, Value>

  /** One tool call requested by the model: a name and the JSON text of its
      arguments. */
  datatype ToolCall = ToolCall(name: string, arguments: string)

  /** `response.choices[0].message`: optional text content and the requested
      tool calls (an empty list is the same as none). */
  datatype Reply = Reply(content: Option<string>, calls: seq<ToolCall>)

  /** Why a step of the client raises. */
  datatype Fault =
    | ListToolsFailed                                // list_tools raised
    | BadToolSchema(tool: string, error: SchemaError) // convert_tool_to_gemini_tool raised
    | GatewayFailed                                  // every model in MODELS failed
    | UnknownResource(name: string)                  // read_resource(None)
    | ReadFailed(uri: string)                        // read_resource raised
    | ArgumentsNotJson(arguments: string)            // json.loads raised
    | CallFailed(tool: string)                       // call_tool raised
    | NoText                                         // result[0].text: no first item, or not text

  /** `result[0].text`. */
  function FirstText(items: seq<Content>): Result<string, Fault>
  {
    if items == [] || !items[0].Text? then Failure(NoText) else Success(items[0].text)
  }

  /** `(await client.read_resource(uri))[0].text`. */
  function ReadResource(server: Server, uri: string): Result<string, Fault>
  {
    if uri in server.contents then FirstText(server.contents[uri]) else Failure(ReadFailed(uri))
  }

  /** `(await client.call_tool(name, arguments))[0].text`. */
  function CallTool(server: Server, name: string, arguments: Value): Result<string, Fault>
  {
    if (name, arguments) in server.results then FirstText(server.results[(name, arguments)])
    else Failure(CallFailed(name))
  }
}
