/** The MCP protocol records the gateway passes around (the mcp-go types), as
    plain values. */
module McpTypes {
  import opened Wrappers
  import opened Values

  /** One item of a tool result. Text may arrive as a `TextContent` value or as a
      pointer to one; the other content kinds are kept only by name. */
  datatype Content =
    | TextValue(text: string)
    | TextPointer(text: string)
    | OtherContent(kind: string)

  datatype CallToolResult = CallToolResult(meta: map<string, Value>, content: seq<Content>, isError: bool)

  /** A `tools/call` request: the tool name and its arguments (`None` is a nil map). */
  datatype CallToolRequest = CallToolRequest(name: string, arguments: Option<map<string, Value>>)
}
