/** Chat messages as the agent, the HTTP endpoint and the model adapter exchange them. */
module Messages {

  datatype Role = System | Human | AI | Tool

  /**
   * A chat message: who speaks, the text, the tool calls an AI message
   * requests, and the extra keyword data it carries (only string-list values
   * are modelled, which is what `references` holds).
   */
  datatype Message = Message(role: Role, content: string, toolCalls: seq<string>, additionalKwargs: map<string, seq<string>>)

  function SystemMessage(content: string): Message
  {
    Message(System, content, [], map[])
  }

  function HumanMessage(content: string): Message
  {
    Message(Human, content, [], map[])
  }
}
