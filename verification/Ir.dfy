/** The provider-neutral request and response values. All of them are frozen
    models in the proxy, so they are datatypes; a provider's opaque dictionary is `Fields`. */
module Ir {
  import opened Options
  import opened JsonValues

  datatype Block =
    | TextBlock(text: string, providerData: Option<Fields>)
    | ToolUseBlock(id: string, name: string, input: Fields, providerData: Option<Fields>)
    | ToolResultBlock(toolUseId: string, content: seq<Block>, isError: bool, providerData: Option<Fields>)
    | ThinkingBlock(text: string, providerData: Option<Fields>)
    | ImageBlock(source: Fields, providerData: Option<Fields>)
    | UnknownBlock(raw: Fields)

  function WithText(b: Block, text: string): Block
    requires b.TextBlock?
  {
    TextBlock(text, b.providerData)
  }

  /** The text blocks of a tool result, joined. */
  function JoinedText(content: seq<Block>): string {
    if content == [] then ""
    else
      var last := content[|content| - 1];
      JoinedText(content[..|content| - 1]) + if last.TextBlock? then last.text else ""
  }

  datatype SystemPart = SystemPart(text: string, cacheHint: Option<Fields>, providerData: Option<Fields>)

  datatype ToolDef = ToolDef(name: string, description: string, inputSchema: Fields, providerData: Option<Fields>)

  datatype Message = Message(role: string, content: seq<Block>, providerData: Option<Fields>)

  /** `temperature`, `topP` and `topK` are `Null` when unset. */
  datatype Sampling = Sampling(
    maxTokens: int, temperature: Json, topP: Json, topK: Json, stopSequences: seq<string>)

  datatype Metadata = Metadata(
    sessionId: Option<string>, deviceId: Option<string>, accountId: Option<string>,
    providerMetadata: Fields)

  datatype Request = Request(
    model: string, provider: string, system: seq<SystemPart>, tools: seq<ToolDef>,
    messages: seq<Message>, sampling: Sampling, metadata: Metadata, stream: bool,
    providerExtras: Fields)

  /** A run of provider-extras for a carrier: `None` and `{}` restore nothing. */
  function Restore(target: Fields, providerData: Option<Fields>): Fields {
    match providerData
    case None => target
    case Some(extra) => target + extra
  }
}
