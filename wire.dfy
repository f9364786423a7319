/**
 * The JSON shapes exchanged between the browser client and the `chat`
 * relay function: the relay request body and the buffered
 * (non-streaming) chat-completion reply as the client reads it, and
 * the values a `throw` may carry.
 */
module Wire {
  import opened Wrappers

  datatype Role = User | Assistant | System

  /** A thrown value: an `Error` carries a message, anything else does not. */
  datatype Thrown = ErrorObject(message: string) | OtherThrown

  /** One conversation turn as sent to the relay: `{role, content}`. */
  datatype Message = Message(role: Role, content: string)

  /**
   * The relay request body. A missing string field is modelled as the
   * empty string (both are falsy). `stream` and `systemPrompt` may be
   * absent.
   */
  datatype ChatRequest = ChatRequest(
    messages: seq<Message>,
    baseUrl: string,
    apiKey: string,
    modelName: string,
    stream: Option<bool>,
    systemPrompt: Option<string>)

  /**
   * What the client reads from a buffered JSON reply: `data.error`
   * (already converted to its message text) and
   * `data.choices?.[0]?.message?.content`.
   */
  datatype BufferedReply = BufferedReply(error: Option<string>, content: Option<string>)

  /** `if (data.error)`: the error field is present and truthy. */
  predicate HasError(reply: BufferedReply)
  {
    reply.error.Some? && reply.error.value != ""
  }

  /** `data.choices?.[0]?.message?.content || fallback`. */
  function ContentOr(reply: BufferedReply, fallback: string): (r: string)
    ensures reply.content.Some? && reply.content.value != "" ==> r == reply.content.value
    ensures reply.content.None? || reply.content.value == "" ==> r == fallback
  {
    match reply.content
    case Some(c) => if c != "" then c else fallback
    case None => fallback
  }
}
