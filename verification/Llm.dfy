/** The provider-neutral vocabulary every component shares: content blocks, usage
    counters and the Option/Result types the model uses for Go's nil and error returns. */
module Llm {
  datatype Option<+T> = None | Some(value: T)

  datatype Result<+T> = Ok(value: T) | Err(reason: string)

  datatype BlockKind =
    | Text
    | Thinking
    | ToolUse
    | ServerToolUse
    | ToolResult
    | WebSearchResult
    | OtherBlock(name: string)

  /** A decoded JSON object. Go tells a nil map from an empty one, so the model does too;
      field values are kept as their canonical JSON text. */
  datatype ToolInput = NilInput | Object(fields: map<string, string>)

  datatype ContentBlock = ContentBlock(
    kind: BlockKind,
    text: string,
    thinking: string,
    signature: string,
    toolUseId: string,
    toolName: string,
    toolInput: ToolInput,
    toolResultId: string,
    toolOutput: string,
    isError: bool,
    payload: string)

  /** A block of the given kind with every other field at Go's zero value. */
  function Blank(kind: BlockKind): ContentBlock {
    ContentBlock(kind, "", "", "", "", "", NilInput, "", "", false, "")
  }

  datatype Usage = Usage(
    promptTokens: int,
    completionTokens: int,
    totalTokens: int,
    cacheCreationTokens: int,
    cacheReadTokens: int,
    durationNs: int)

  const NO_USAGE := Usage(0, 0, 0, 0, 0, 0)

  /** Letters as strings.ToLower maps them on ASCII. */
  function LowerChar(c: char): char {
    if 'A' <= c <= 'Z' then ((c as int) + 32) as char else c
  }

  function Max(a: int, b: int): int {
    if a < b then b else a
  }
}
