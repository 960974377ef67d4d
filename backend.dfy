/**
 * The API routes of main.py.  Each handler builds its result from its
 * request by list concatenation and dictionary literals; the Bedrock call is
 * an oracle `invoke` from the messages sent to the model to what the call
 * returned (the text of the first content block) or raised.
 */
module Backend {
  import opened Wrappers
  import opened JsonText
  import opened Protocol
  import Text

  /** Result of `invoke_model` followed by `json.loads(...)['content'][0]['text']`. */
  datatype Invocation = Reply(text: string) | Raised(detail: string)

  /** `ChatRequest`: `conversation_history` is `[]` when the body omits it. */
  function ReadChatRequest(message: string, history: Option<seq<Message>>): (r: ChatBody)
    ensures r.message == message
    ensures history.None? ==> r.conversation_history == []
    ensures history.Some? ==> r.conversation_history == history.value
  {
    ChatBody(message, if history.Some? then history.value else [])
  }

  /** The messages the chat route sends to the model: the prior history, then the new user turn. */
  function ChatModelMessages(req: ChatBody): (ms: seq<Message>)
    ensures |ms| == |req.conversation_history| + 1
    ensures ms[..|req.conversation_history|] == req.conversation_history
    ensures ms[|ms| - 1] == Message(User, req.message)
  {
    req.conversation_history + [Message(User, req.message)]
  }

  /**
   * `POST /api/chat`.  On a reply the returned history is the sent messages
   * followed by the assistant's turn, and `response` is that turn's text;
   * anything raised becomes status 500.
   */
  function Chat(req: ChatBody, invoke: seq<Message> -> Invocation): (r: Http<ChatReply>)
    ensures r.Ok? <==> invoke(ChatModelMessages(req)).Reply?
    ensures r.Ok? ==>
      var h := r.body.conversation_history;
      var n := |req.conversation_history|;
      |h| == n + 2 && h[..n] == req.conversation_history
      && h[n] == Message(User, req.message)
      && h[n + 1] == Message(Assistant, invoke(ChatModelMessages(req)).text)
      && r.body.response == h[|h| - 1].content
    ensures r.HttpError? ==> r.status == 500 && r.detail == invoke(ChatModelMessages(req)).detail
  {
    var messages := ChatModelMessages(req);
    match invoke(messages)
    case Reply(text) =>
      var history := messages + [Message(Assistant, text)];
      assert history[..|req.conversation_history|] == messages[..|req.conversation_history|];
      Ok(ChatReply(text, history))
    case Raised(detail) => HttpError(500, detail)
  }

  const PromptHead := "\n以下の説明に基づいて、AWS構成図をMermaid記法で生成してください。\n適切なAWSサービスを選択し、それらの関係を示してください。\n\n説明: "
  const PromptTail := "\n\nMermaid記法のみを返してください（コードブロックなし）。\n"

  /** The f-string prompt of the diagram route, with the description embedded as given. */
  function DiagramPrompt(description: string): (p: string)
    ensures Text.Contains(p, description)
    ensures |p| == |PromptHead| + |description| + |PromptTail|
    ensures p[..|PromptHead|] == PromptHead && p[|PromptHead|..|PromptHead| + |description|] == description
    ensures p[|PromptHead| + |description|..] == PromptTail
  {
    Text.ContainsMiddle(PromptHead, description, PromptTail);
    PromptHead + description + PromptTail
  }

  /** The diagram route sends the model exactly one user message, the prompt. */
  function DiagramModelMessages(req: DiagramBody): (ms: seq<Message>)
    ensures |ms| == 1 && ms[0].role == User
    ensures Text.Contains(ms[0].content, req.description)
  {
    [Message(User, DiagramPrompt(req.description))]
  }

  /** `POST /api/diagram`: `{diagram: text}` on a reply, status 500 for anything raised. */
  function GenerateDiagram(req: DiagramBody, invoke: seq<Message> -> Invocation): (r: Http<DiagramReply>)
    ensures r.Ok? <==> invoke(DiagramModelMessages(req)).Reply?
    ensures r.Ok? ==> r.body.diagram == invoke(DiagramModelMessages(req)).text
    ensures r.HttpError? ==> r.status == 500 && r.detail == invoke(DiagramModelMessages(req)).detail
  {
    match invoke(DiagramModelMessages(req))
    case Reply(text) => Ok(DiagramReply(text))
    case Raised(detail) => HttpError(500, detail)
  }

  const DefaultDescription := "MCP Server Configuration"

  /** `GET /api/mcp/config`: the fixed document with no servers. */
  function GetMcpConfig(): (r: Json)
    ensures Lookup(r, "servers") == Some(JArray([]))
    ensures Lookup(r, "description") == Some(JString(DefaultDescription))
    ensures r.JObject? && |r.fields| == 2
    ensures r.fields[0].key == "servers" && r.fields[1].key == "description"
  {
    var fields := [Member("servers", JArray([])), Member("description", JString(DefaultDescription))];
    assert fields[0].key != "description";
    assert LookupField(fields[1..], "description") == Some(JString(DefaultDescription));
    JObject(fields)
  }

  /**
   * `POST /api/mcp/config`: the body must be a JSON object (the `dict`
   * annotation; FastAPI answers anything else with 422) and is echoed back
   * unchanged beside `status: "success"`.
   */
  function UpdateMcpConfig(config: Json): (r: Http<Json>)
    ensures r.Ok? <==> config.JObject?
    ensures r.Ok? ==> Lookup(r.body, "status") == Some(JString("success"))
    ensures r.Ok? ==> Lookup(r.body, "config") == Some(config)
    ensures r.Ok? ==> r.body.JObject? && |r.body.fields| == 2
                      && r.body.fields[0].key == "status" && r.body.fields[1].key == "config"
    ensures r.HttpError? ==> r.status == 422
  {
    var fields := [Member("status", JString("success")), Member("config", config)];
    assert fields[0].key != "config";
    assert LookupField(fields[1..], "config") == Some(config);
    if config.JObject? then Ok(JObject(fields))
    else HttpError(422, "Input should be a valid dictionary")
  }
}
