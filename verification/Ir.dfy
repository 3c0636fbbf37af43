/** The protocol-neutral representation that every other module works on.

    Strings are sequences of characters; where the Go code counts bytes, a `char`
    stands for one byte (in `ToolDecl`, for a code point).  A nil pointer is `None`, a nil slice is `[]`.  Fields that no
    modelled code reads are carried together in an opaque `rest`, so that a value which
    is only passed through can still be compared for equality. */
module Ir {

  datatype Option<+T> = None | Some(value: T)

  datatype Role = User | Assistant

  datatype BlockKind =
    | BlockText | BlockImage | BlockAudio | BlockDocument | BlockFile
    | BlockToolUse | BlockToolResult | BlockThinking
    | BlockServerToolUse | BlockWebSearchToolResult | BlockContainerUpload
    | BlockRefusal | BlockOpaque

  datatype ToolKind = ToolFunction | ToolCustom

  datatype ToolUse = ToolUse(
    id: string, name: string, kind: ToolKind, input: string, inputText: string,
    signature: string, signatureFrom: string, rest: string)

  datatype ServerToolUse = ServerToolUse(id: string, name: string, input: string, rest: string)

  datatype Thinking = Thinking(
    text: string, signature: string, signatureFrom: string,
    redacted: bool, redactedData: string, rest: string)

  datatype ToolResult = ToolResult(
    toolUseId: string, kind: ToolKind, content: seq<Block>, isError: bool, rest: string)

  datatype Media = Media(mediaType: string, data: string, url: string, fileId: string, rest: string) {
    predicate HasPayload() { data != "" || url != "" }
  }

  datatype OpaqueBody = OpaqueBody(wireType: string, body: string, from: string)

  datatype Citation = Citation(
    raw: string, url: string, start: int, end: int, citedText: string, rest: string)

  datatype Block = Block(
    kind: BlockKind, text: string, media: Option<Media>, toolUse: Option<ToolUse>,
    toolResult: Option<ToolResult>, thinking: Option<Thinking>,
    serverToolUse: Option<ServerToolUse>, webSearch: Option<string>,
    containerUpload: Option<string>, opaqueBody: Option<OpaqueBody>,
    citations: seq<Citation>, cacheCtl: string, cacheTTL: string)

  /** A block of the given kind with every payload absent. */
  function EmptyBlock(kind: BlockKind): Block {
    Block(kind, "", None, None, None, None, None, None, None, None, [], "", "")
  }

  function TextBlock(text: string): Block {
    EmptyBlock(BlockText).(text := text)
  }

  const NO_THINKING := Thinking("", "", "", false, "", "")
  const NO_TOOL_USE := ToolUse("", "", ToolFunction, "", "", "", "", "")
  const NO_SERVER_TOOL_USE := ServerToolUse("", "", "", "")

  datatype Message = Message(role: Role, content: seq<Block>, audioId: string, rest: string)

  datatype StopReason =
    | StopUnset | StopEndTurn | StopMaxTokens | StopSequenceHit | StopToolUse | StopContentFilter
    | StopContextWindow | StopMaxMessages | StopSteered | StopPauseTurn

  datatype Usage = Usage(
    input: int, output: int, cacheRead: int, cacheWrite: int,
    cacheWrite5m: int, cacheWrite1h: int, detailsKnown: bool, reasoning: int,
    webSearches: int, webFetches: int, promptAudio: int, completionAudio: int,
    acceptedPrediction: int, rejectedPrediction: int,
    promptImage: int, promptText: int, completionText: int,
    inferenceGeo: string, iterations: string)

  const ZERO_USAGE := Usage(0, 0, 0, 0, 0, 0, false, 0, 0, 0, 0, 0, 0, 0, 0, 0, 0, "", "")

  /** What an upstream may echo both on the first and on the closing frame. */
  datatype Receipts = Receipts(
    serviceTier: string, systemFingerprint: string, container: Option<string>,
    completedAt: int, promptCacheDiagnostics: string, moderation: string, metadata: map<string, string>)

  const NO_RECEIPTS := Receipts("", "", None, 0, "", "", map[])

  datatype Response = Response(
    id: string, model: string, content: seq<Block>,
    stopReason: StopReason, stopSequence: string, stopDetails: Option<string>, usage: Usage,
    receipts: Receipts, audio: Option<string>, created: int, diagnostics: string)

  const EMPTY_RESPONSE :=
    Response("", "", [], StopUnset, "", None, ZERO_USAGE, NO_RECEIPTS, None, 0, "")

  datatype Event =
    | MessageStart(messageId: string, model: string, receipts: Receipts, audio: Option<string>,
                   created: int, diagnostics: string, usage: Option<Usage>)
    | BlockStart(index: int, block: Option<Block>)
    | TextDelta(index: int, text: string)
    | ThinkingDelta(index: int, text: string)
    | SigDelta(index: int, text: string, signatureFrom: string)
    | ToolInput(index: int, text: string)
    | CitationDelta(index: int, citations: seq<Citation>)
    | BlockStop(index: int)
    | MessageDelta(stopReason: StopReason, stopSequence: string, stopDetails: Option<string>,
                   receipts: Receipts, usage: Option<Usage>)
    | MessageStop
    | Ping
    | StreamError(message: string)

  datatype Tool = Tool(name: string, serverType: string, schema: string, cacheCtl: string, rest: string)

  datatype ToolMode = ModeUnset | ModeAuto | ModeAny | ModeNone | ModeTool

  datatype ToolChoice = ToolChoice(mode: ToolMode, name: string, allowed: seq<string>, rest: string)

  datatype ThinkingConfig = ThinkingConfig(enabled: Option<bool>, budget: int, rest: string) {
    predicate On() { enabled == Some(true) }
  }

  /** A request in flight.  The repair and shaping stages rewrite it in place. */
  class Request {
    var messages: seq<Message>
    var system: seq<Block>
    var tools: seq<Tool>
    var toolChoice: Option<ToolChoice>
    var decodeNotes: seq<string>
    var thinking: Option<ThinkingConfig>
    var maxTokens: int
    var temperature: Option<real>
    var topP: Option<real>
    var stopSequences: seq<string>

    constructor (messages: seq<Message>, tools: seq<Tool>, toolChoice: Option<ToolChoice>)
      ensures this.messages == messages && this.tools == tools && this.toolChoice == toolChoice
      ensures system == [] && decodeNotes == [] && thinking == None && maxTokens == 0
      ensures temperature == None && topP == None && stopSequences == []
    {
      this.messages, this.tools, this.toolChoice := messages, tools, toolChoice;
      system, decodeNotes, thinking, maxTokens := [], [], None, 0;
      temperature, topP, stopSequences := None, None, [];
    }
  }

  /** The next key when a Go loop ranges over a map: any of those left. */
  method Pick<T(==)>(todo: set<T>) returns (x: T)
    requires todo != {}
    ensures x in todo
  {
    x :| x in todo;
  }
}
