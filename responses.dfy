/** The two tool-result constructors of pkg/mcp/responses.go. */
module Responses {
  import opened Strs
  import opened McpTypes

  const NoOutput := "There was no output from the tool call"

  /** `ToolError`: an error result carrying exactly the given text. */
  function ToolError(errorText: string): (r: CallToolResult)
    ensures r.isError
    ensures r.content == [TextValue(errorText)]
    ensures r.meta == map[]
  {
    CallToolResult(map[], [TextValue(errorText)], true)
  }

  /** `ToolResult`: a successful result with one text item; text that is empty or
      only white space is replaced by a fixed notice. */
  function ToolResult(text: string): (r: CallToolResult)
    ensures !r.isError && r.meta == map[] && |r.content| == 1 && r.content[0].TextValue?
    ensures TrimSpace(text) != "" ==> r.content[0].text == text
    ensures (forall k :: 0 <= k < |text| ==> IsSpace(text[k])) ==> r.content[0].text == NoOutput
  {
    TrimSpaceEmpty(text);
    var out := if |TrimSpace(text)| == 0 then NoOutput else text;
    CallToolResult(map[], [TextValue(out)], false)
  }

  /** A successful result never shows blank text. */
  lemma ToolResultNeverBlank(text: string)
    ensures TrimSpace(ToolResult(text).content[0].text) != ""
  {
    TrimSpaceKeeps(NoOutput);
  }

  /** The two constructors are told apart by `isError` alone. */
  lemma ErrorAndResultDiffer(a: string, b: string)
    ensures ToolError(a) != ToolResult(b)
  {
  }
}
