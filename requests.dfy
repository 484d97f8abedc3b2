/** The values handed to the provider's client: chat messages and request keyword arguments. */
module Requests {
  import ToolSchema

  /** A chat message `{"role": ..., "content": ...}`. */
  datatype Message = Message(role: string, content: string)

  /** The value of one keyword argument of a provider request. */
  datatype Arg =
    | Str(s: string)                    // model names, `tool_choice`, a plain-text `input`
    | Flag(b: bool)                     // `stream`
    | Messages(messages: seq<Message>)  // `messages`, or a message-list `input`
    | Tools(tools: seq<ToolSchema.Tool>)  // `tools`
    | Integer(n: int)                   // integer options a caller may pass, such as `max_tokens`
}
