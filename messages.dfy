/** Chat messages as the agent, the conversation history and the model
    provider exchange them (Python dicts with a "role" and a "content"). */
module Messages {

  /** A tool call requested by the model: its id, the tool's name and the
      decoded JSON arguments (string values only). */
  datatype ToolCall = ToolCall(id: string, name: string, arguments: map<string, string>)

  /** The keys a message dict carries beyond "role" and "content". */
  datatype Extra =
    | Recorded(timestamp: int, metadata: map<string, string>)  // written by `add_message`
    | Plain                                                    // `{"role", "content"}` only
    | Requests(toolCalls: seq<ToolCall>)                       // an assistant turn and its "tool_calls"
    | Reply(toolCallId: string)                                // a "tool" message answering one call

  datatype Message = Message(role: string, content: string, extra: Extra)
}
