/**
 * The records exchanged between the browser controllers and the API, and
 * the two ways a call can end: the handler's HTTP result on the server side,
 * and what the awaited `axios` promise settles to on the client side.
 */
module Protocol {
  import opened Wrappers

  datatype Role = User | Assistant

  /** `{role, content}` */
  datatype Message = Message(role: Role, content: string)

  /** Body of `POST /api/chat`. */
  datatype ChatBody = ChatBody(message: string, conversation_history: seq<Message>)

  /** Success body of `POST /api/chat`. */
  datatype ChatReply = ChatReply(response: string, conversation_history: seq<Message>)

  /** Body of `POST /api/diagram`. */
  datatype DiagramBody = DiagramBody(description: string)

  /** Success body of `POST /api/diagram`. */
  datatype DiagramReply = DiagramReply(diagram: string)

  /** A request a controller hands to the transport. */
  datatype Post<B> = Post(url: string, body: B)

  /** What a route handler produces: a body with status 200, or an error status with its detail text. */
  datatype Http<T> = Ok(body: T) | HttpError(status: nat, detail: string)

  /** What an awaited `axios` call settles to: the response data, or a rejection. */
  datatype Outcome<T> = Resolved(data: T) | Rejected

  const ChatPath := "/api/chat"
  const DiagramPath := "/api/diagram"
  const ConfigPath := "/api/mcp/config"

  /** `axios` rejects every non-2xx status, so the client sees a handler error as a rejection. */
  function Settle<T>(h: Http<T>): (o: Outcome<T>)
    ensures o.Resolved? <==> h.Ok?
    ensures o.Resolved? ==> o.data == h.body
  {
    match h
    case Ok(body) => Resolved(body)
    case HttpError(_, _) => Rejected
  }

  /**
   * `process.env.REACT_APP_API_URL || ''`: the configured origin, or the
   * page's own origin (the empty prefix) when it is unset or empty.
   */
  function ApiUrlFromEnv(env: Option<string>): (r: string)
    ensures env.Some? ==> r == env.value
    ensures env.None? ==> r == ""
  {
    match env
    case Some(url) => url
    case None => ""
  }
}
