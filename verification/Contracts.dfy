/** The data that crosses the crates of p1: history items, tool calls and results, journal
    records. Texts are sequences of Unicode scalar values, so a text's length is the
    number of characters the code counts. */
module Contracts {

  datatype Option<+T> = None | Some(value: T)

  datatype Result<+T, +E> = Ok(value: T) | Err(error: E)

  const U64_MAX: nat := 0xffff_ffff_ffff_ffff

  datatype Origin = Origin(route: string, model: string)

  /** Opaque continuation data; `payload` is its JSON text. */
  datatype ReplayData = ReplayData(origin: Origin, version: nat, payload: string)

  datatype ToolInput = Json(raw: string) | Text(raw: string)

  datatype ToolCall = ToolCall(callId: string, name: string, input: ToolInput)

  datatype AssistantBlock =
    | TextBlock(text: string)
    | Reasoning(text: string, replay: Option<ReplayData>)
    | CallBlock(call: ToolCall)

  datatype AssistantItem = AssistantItem(origin: Origin, blocks: seq<AssistantBlock>)

  /** What a tool says of one call: whether it may overlap others, and what it does. */
  datatype Concurrency = Shared | Exclusive
  datatype Effect = ReadOnly | WritesFiles | Executes | Delegates

  datatype ToolStatus = Okay | Error | Unavailable | Denied | Cancelled | Unknown

  datatype ToolResultItem =
    ToolResultItem(callId: string, name: string, status: ToolStatus, content: string)

  datatype InboxKind = Steering | Notification

  /** A block of user input. `placeholder` and `line` are the texts a text-only wire shows
      for an image and for a file. */
  datatype UserBlock =
    | UserText(text: string)
    | Image(width: nat, height: nat, placeholder: string)
    | File(line: string)

  datatype Item =
    | User(text: string)
    | UserContent(blocks: seq<UserBlock>)
    | Inbox(kind: InboxKind, text: string)
    | Assistant(assistant: AssistantItem)
    | ToolResult(result: ToolResultItem)

  datatype Usage = Usage(
    inputUncached: Option<nat>, cacheRead: Option<nat>, cacheWrite: Option<nat>,
    output: Option<nat>, reasoningOutput: Option<nat>, costMicroUsd: Option<nat>)

  datatype StopReason = EndTurn | ToolUse | MaxOutputTokens | ContextWindowExceeded | Refusal | Paused | Other

  datatype InterruptionReason = ByCancel | ByProvider

  datatype ProviderError = ProviderError(contextWindowExceeded: bool, message: string)

  /** A tool as the journal names it: its call name, the rest of its declaration, its identity. */
  datatype ToolEntry = ToolEntry(name: string, declaration: string, identity: string)

  /** What one agent was assembled from, as its `Environment` record names it. */
  datatype Assembly = Assembly(route: string, systemPrompt: string, tools: seq<ToolEntry>, options: string)

  datatype RecordBody =
    | Environment(assembly: Assembly)
    | UserInputRecord(text: string)
    | UserContentRecord(blocks: seq<UserBlock>)
    | InboxRecord(kind: InboxKind, text: string)
    | AssistantCompleted(item: AssistantItem, stop: StopReason, usage: Option<Usage>)
    | AssistantInterrupted(reason: InterruptionReason, partial: string, error: Option<ProviderError>)
    | ToolStarted(callId: string, identity: string)
    | ToolFinished(result: ToolResultItem, exitCode: Option<int>)
    | ContextReplaced(items: seq<Item>, usage: Option<Usage>)
    | RequestTiming(requestIndex: nat)

  datatype JournalRecord = JournalRecord(seqNo: nat, body: RecordBody)

  /** The tool calls of an assistant item, in block order. */
  function CallsIn(blocks: seq<AssistantBlock>): seq<ToolCall> {
    if blocks == [] then []
    else if blocks[0].CallBlock? then [blocks[0].call] + CallsIn(blocks[1..])
    else CallsIn(blocks[1..])
  }

  function Calls(item: AssistantItem): seq<ToolCall> {
    CallsIn(item.blocks)
  }

  predicate DistinctIds(calls: seq<ToolCall>) {
    forall i, j :: 0 <= i < j < |calls| ==> calls[i].callId != calls[j].callId
  }

  ghost function Ids(calls: seq<ToolCall>): set<string> {
    set c | c in calls :: c.callId
  }
}
