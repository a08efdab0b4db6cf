/** The chat transcript entries shown in the coach panel. */
module AskCoach {
  import opened JsonValues

  datatype Role = User | Assistant

  datatype ChatMessage = ChatMessage(role: Role, content: string)

  function RoleName(r: Role): string {
    match r
    case User => "user"
    case Assistant => "assistant"
  }

  /** The value `JSON.stringify` is given when the transcript is persisted. */
  function ChatToJson(messages: seq<ChatMessage>): Json {
    Arr(seq(|messages|, i requires 0 <= i < |messages| =>
      Obj(map["role" := Str(RoleName(messages[i].role)), "content" := Str(messages[i].content)])))
  }
}
