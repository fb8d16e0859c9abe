/** Transcript entries of the chat framework, as plain data. */
module Chat {

  /** A tool invocation requested by the model: the tool's name and its arguments. */
  datatype ToolCall = ToolCall(name: string, args: map<string, string>)

  /** The three message classes the graphs exchange. */
  datatype Message =
    | HumanMessage(content: string)
    | AIMessage(content: string, toolCalls: seq<ToolCall>)
    | ToolMessage(content: string)

  /** `messages[-1]`. */
  function Last(messages: seq<Message>): Message
    requires messages != []
  {
    messages[|messages| - 1]
  }
}
