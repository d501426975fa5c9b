/** The google-genai / ADK records the agent callbacks work on. Only the
    fields the callbacks read or write are kept; Python `None` is `None`. */
module AdkTypes {
  import opened Wrappers
  import opened Values

  /** A part of a content; only text parts have text. */
  datatype Part = Part(text: Option<string>)

  /** A message: its role and its parts, either of which may be missing. */
  datatype Content = Content(role: Option<string>, parts: Option<seq<Part>>)

  /** An item of `llm_request.contents` as it may arrive: plain text, a
      `Content`, or any other JSON-able value. */
  datatype Input = TextInput(s: string) | ContentInput(content: Content) | OtherInput(value: Value)

  /** The source a grounding chunk was retrieved from. */
  datatype RetrievedContext = RetrievedContext(title: Option<string>, uri: Option<string>, text: Option<string>)

  /** A web page a grounding chunk comes from. */
  datatype Web = Web(title: Option<string>, uri: Option<string>)

  datatype Chunk = Chunk(retrievedContext: Option<RetrievedContext>, web: Option<Web>)

  datatype GroundingMetadata = GroundingMetadata(chunks: Option<seq<Chunk>>)

  /** The model's answer, which the after-model callbacks edit in place. */
  class LlmResponse {
    var content: Option<Content>
    var groundingMetadata: Option<GroundingMetadata>

    constructor(content: Option<Content>, groundingMetadata: Option<GroundingMetadata>)
      ensures this.content == content && this.groundingMetadata == groundingMetadata
    {
      this.content := content;
      this.groundingMetadata := groundingMetadata;
    }
  }

  /** The request to the model, whose contents the before-model callbacks
      replace. */
  class LlmRequest {
    var contents: seq<Input>

    constructor(contents: seq<Input>)
      ensures this.contents == contents
    {
      this.contents := contents;
    }
  }
}
