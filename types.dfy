/** The records of types.ts. */
module Types {
  import opened Wrappers

  /** Who wrote a chat message. */
  datatype Role = User | Model

  /** One `{ text }` entry of a message's `parts`. */
  datatype TextPart = TextPart(text: string)

  /** A web citation returned with a grounded answer. */
  datatype Source = Source(uri: string, title: string)

  /** A message of the chat transcript; `sources` is present only on replies
      to a web search. */
  datatype ChatMessage = ChatMessage(role: Role, parts: seq<TextPart>, sources: Option<seq<Source>>)

  /** One entry of the post-operative care schedule. */
  datatype CareTask = CareTask(day: int, title: string, description: string, icon: string)

  /** A message with a single text part and no sources, the shape every
      handler of the chat view builds. */
  function TextMessage(role: Role, text: string): ChatMessage
  {
    ChatMessage(role, [TextPart(text)], None)
  }
}
