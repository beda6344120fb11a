/** The unified chat message shared by thread persistence and model requests. */
module ChatModel {
  import opened Wrappers

  datatype Role = System | User | Assistant | Toolcall | ToolResult

  datatype ToolCall = ToolCall(id: string, name: string, arguments: string)

  datatype Message = Message(role: Role, content: string, toolCalls: seq<ToolCall>, toolCallId: Option<string>)

  /** `ChatMessage::new`: no tool metadata. */
  function NewMessage(role: Role, content: string): Message {
    Message(role, content, [], None)
  }

  /** All tool calls carried by a history, in order. */
  function CallsOf(messages: seq<Message>): seq<ToolCall> {
    if messages == [] then [] else messages[0].toolCalls + CallsOf(messages[1..])
  }

  lemma {:induction false} CallsOfAppend(a: seq<Message>, b: seq<Message>)
    ensures CallsOf(a + b) == CallsOf(a) + CallsOf(b)
  {
    if a == [] {
      assert a + b == b;
    } else {
      assert (a + b)[1..] == a[1..] + b;
      CallsOfAppend(a[1..], b);
    }
  }
}
