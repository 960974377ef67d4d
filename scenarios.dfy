/**
 * The controllers driven against the API routes: each client method mounts a
 * view, runs one workflow through its request, lets the route handler answer
 * it, and settles the request, so that what the user ends up seeing is stated
 * in terms of the inputs and the model's reply.
 */
module Scenarios {
  import opened Wrappers
  import opened JsonText
  import opened Protocol
  import Text
  import Backend
  import Chat
  import Diagram
  import McpConfig

  // ---------------------------------------------------------------- chat

  /**
   * One accepted chat turn handled by the API.  The server's history keeps
   * the optimistic list and appends exactly the model's turn; a failed call
   * leaves the optimistic turn followed by the error turn.
   */
  method ChatTurn(c: Chat.ChatController, input: string, invoke: seq<Message> -> Backend.Invocation)
    returns (sent: Post<ChatBody>)
    requires c.Valid() && !c.isLoading && !Text.IsBlank(input)
    modifies c
    ensures c.Valid() && !c.isLoading && c.inputMessage == ""
    ensures sent == Post(c.apiUrl + ChatPath, ChatBody(input, old(c.messages)))
    ensures invoke(old(c.messages) + [Chat.UserMessage(input)]).Reply? ==>
      c.messages == old(c.messages) + [Chat.UserMessage(input),
                                       Message(Assistant, invoke(old(c.messages) + [Chat.UserMessage(input)]).text)]
    ensures invoke(old(c.messages) + [Chat.UserMessage(input)]).Raised? ==>
      c.messages == old(c.messages) + [Chat.UserMessage(input), Chat.ErrorMessage]
  {
    ghost var prior := c.messages;
    c.SetInput(input);
    var request := c.Submit();
    sent := request.value;
    assert Backend.ChatModelMessages(sent.body) == prior + [Chat.UserMessage(input)];
    var response := Backend.Chat(sent.body, invoke);
    if response.Ok? {
      var h := response.body.conversation_history;
      ExtendedByTwo(h, prior, h[|prior|], h[|prior| + 1]);
    }
    c.Complete(Settle(response));
  }

  /** A list that starts with `prior` and has exactly two more entries is `prior` followed by them. */
  lemma ExtendedByTwo<T>(h: seq<T>, prior: seq<T>, a: T, b: T)
    requires |h| == |prior| + 2 && h[..|prior|] == prior && h[|prior|] == a && h[|prior| + 1] == b
    ensures h == prior + [a, b]
  {
    assert forall i :: 0 <= i < |prior| ==> h[i] == h[..|prior|][i];
  }

  /** The first turn of a freshly mounted chat view: the request carries an empty history. */
  method FirstChatTurn(env: Option<string>, input: string, invoke: seq<Message> -> Backend.Invocation)
    returns (sent: Post<ChatBody>, final: seq<Message>)
    requires !Text.IsBlank(input)
    ensures sent == Post(ApiUrlFromEnv(env) + ChatPath, ChatBody(input, []))
    ensures invoke([Message(User, input)]).Reply? ==>
      final == [Message(User, input), Message(Assistant, invoke([Message(User, input)]).text)]
    ensures invoke([Message(User, input)]).Raised? ==> final == [Message(User, input), Chat.ErrorMessage]
  {
    var c := new Chat.ChatController(env);
    assert [] + [Chat.UserMessage(input)] == [Message(User, input)];
    sent := ChatTurn(c, input, invoke);
    final := c.messages;
  }

  /**
   * A client that omits `conversation_history` is answered as a first turn:
   * the returned history is its user turn and the model's reply.
   */
  lemma OmittedHistory(message: string, invoke: seq<Message> -> Backend.Invocation)
    ensures var r := Backend.Chat(Backend.ReadChatRequest(message, None), invoke);
      (invoke([Message(User, message)]).Reply? ==>
         r.Ok? && r.body.conversation_history
                  == [Message(User, message), Message(Assistant, invoke([Message(User, message)]).text)])
      && (invoke([Message(User, message)]).Raised? ==> r.HttpError? && r.status == 500)
  {
    var req := Backend.ReadChatRequest(message, None);
    assert Backend.ChatModelMessages(req) == [Message(User, message)];
    var r := Backend.Chat(req, invoke);
    if r.Ok? {
      var h := r.body.conversation_history;
      ExtendedByTwo(h, [], h[0], h[1]);
    }
  }

  /** "Hello" answered with "Hi" from an empty conversation ends with exactly those two turns. */
  method HelloHi() returns (final: seq<Message>)
    ensures final == [Message(User, "Hello"), Message(Assistant, "Hi")]
  {
    Text.NotBlankWhenSomeVisible("Hello", 0);
    var _, f := FirstChatTurn(None, "Hello", (ms: seq<Message>) => Backend.Reply("Hi"));
    final := f;
  }

  /** A second turn whose call fails keeps the first exchange and the second user turn, then the error turn. */
  method HelloThenFailure() returns (final: seq<Message>)
    ensures final == [Message(User, "Hello"), Message(Assistant, "Hi"), Message(User, "Bye"), Chat.ErrorMessage]
  {
    var c := new Chat.ChatController(None);
    Text.NotBlankWhenSomeVisible("Hello", 0);
    var _ := ChatTurn(c, "Hello", (ms: seq<Message>) => Backend.Reply("Hi"));
    Text.NotBlankWhenSomeVisible("Bye", 0);
    var _ := ChatTurn(c, "Bye", (ms: seq<Message>) => Backend.Raised("throttled"));
    final := c.messages;
  }

  // ------------------------------------------------------------- diagram

  /** What the preview shows once the effect has run on a stored source. */
  function PaneFor(source: string, render: string -> Diagram.RenderOutcome): (p: Diagram.Pane)
    ensures source == "" <==> p == Diagram.Unmounted
    ensures source != "" && render(source).RenderFailed? ==> p == Diagram.Html(Diagram.FailureNotice)
    ensures source != "" && render(source).Rendered? ==> p == Diagram.Svg(render(source).svg)
  {
    if source == "" then Diagram.Unmounted
    else match render(source)
      case Rendered(svg) => Diagram.Svg(svg)
      case RenderFailed => Diagram.Html(Diagram.FailureNotice)
  }

  /**
   * One generation from a freshly mounted diagram view, followed by the
   * render effect.  A reply is stored as the source and rendered; a failed
   * call stores nothing and raises one alert.
   */
  method FirstGenerate(env: Option<string>, render: string -> Diagram.RenderOutcome, description: string,
                       invoke: seq<Message> -> Backend.Invocation)
    returns (sent: Post<DiagramBody>, source: Option<string>, pane: Diagram.Pane, alerts: seq<string>)
    requires !Text.IsBlank(description)
    ensures sent == Post(ApiUrlFromEnv(env) + DiagramPath, DiagramBody(description))
    ensures invoke(Backend.DiagramModelMessages(sent.body)).Reply? ==>
      var text := invoke(Backend.DiagramModelMessages(sent.body)).text;
      source == (if text == "" then None else Some(text)) && pane == PaneFor(text, render) && alerts == []
    ensures invoke(Backend.DiagramModelMessages(sent.body)).Raised? ==>
      source == None && pane == Diagram.Unmounted && alerts == [Diagram.AlertText]
  {
    var c := new Diagram.DiagramController(env, render);
    c.SetDescription(description);
    var request := c.Generate();
    sent := request.value;
    c.Complete(Settle(Backend.GenerateDiagram(sent.body, invoke)));
    c.RenderEffect();
    source, pane, alerts := c.ShownSource(), c.pane, c.alerts;
  }

  /**
   * "two services connected" answered with `graph TD; A-->B` that Mermaid
   * renders: the source is kept and the pane shows the SVG, not the notice.
   */
  method TwoServices() returns (source: Option<string>, pane: Diagram.Pane)
    ensures source == Some("graph TD; A-->B")
    ensures pane == Diagram.Svg("<svg/>") && pane != Diagram.Html(Diagram.FailureNotice)
  {
    Text.NotBlankWhenSomeVisible("two services connected", 0);
    var render := (s: string) => Diagram.Rendered("<svg/>");
    var _, src, p, _ := FirstGenerate(None, render, "two services connected",
                                      (ms: seq<Message>) => Backend.Reply("graph TD; A-->B"));
    source, pane := src, p;
  }

  /** A source Mermaid rejects stays in the `<pre>` block while the pane shows the failure notice. */
  method UnrenderableSource(description: string) returns (source: Option<string>, pane: Diagram.Pane)
    requires !Text.IsBlank(description)
    ensures source == Some("not mermaid") && pane == Diagram.Html(Diagram.FailureNotice)
  {
    var _, src, p, _ := FirstGenerate(None, (s: string) => Diagram.RenderFailed, description,
                                      (ms: seq<Message>) => Backend.Reply("not mermaid"));
    source, pane := src, p;
  }

  /** After a result is shown, generating from an empty or all-space description sends nothing and keeps the result. */
  method BlankGenerateKeepsResult() returns (sentEmpty: Option<Post<DiagramBody>>, sentSpaces: Option<Post<DiagramBody>>, source: string)
    ensures sentEmpty == None && sentSpaces == None
    ensures source == "graph TD; A-->B"
  {
    var c := new Diagram.DiagramController(None, (s: string) => Diagram.Rendered("<svg/>"));
    Text.NotBlankWhenSomeVisible("two services connected", 0);
    c.SetDescription("two services connected");
    var _ := c.Generate();
    c.Complete(Resolved(DiagramReply("graph TD; A-->B")));
    c.RenderEffect();
    c.SetDescription("");
    sentEmpty := c.Generate();
    c.SetDescription("   ");
    assert Text.IsBlank("   ");
    sentSpaces := c.Generate();
    source := c.diagram;
  }

  // -------------------------------------------------------------- config

  /**
   * A document of the default's shape, `{servers: [], <k1>: <d>}` with keys
   * and description that need no escapes, is written as two lines.
   */
  lemma TemplateText(k0: string, k1: string, d: string)
    requires NeedsNoEscape(k0) && NeedsNoEscape(k1) && NeedsNoEscape(d)
    ensures Stringify2(JObject([Member(k0, JArray([])), Member(k1, JString(d))]))
         == "{\n" + ("  " + ("\"" + k0 + "\"") + ": " + "[]")
            + ",\n" + ("  " + ("\"" + k1 + "\"") + ": " + ("\"" + d + "\"")) + "\n}"
  {
    TwoMembersText(Member(k0, JArray([])), Member(k1, JString(d)));
    QuoteVerbatim(k0);
    QuoteVerbatim(k1);
    QuoteVerbatim(d);
    assert Indent(1) == "  ";
    assert Serialize(JArray([]), 1) == "[]";
  }

  // The lemmas below take the default's literals as parameters
  // (`requires k0 == "servers"`) instead of writing them out.  Applied to
  // literal arguments, the verifier would evaluate `Quote` and `Serialize`
  // character by character and exceed its resource bound; with parameters
  // each lemma only compares a few short pieces.

  /** No character of the default's keys or description needs an escape. */
  lemma DefaultNeedsNoEscape(k0: string, k1: string, d: string)
    requires k0 == "servers" && k1 == "description" && d == Backend.DefaultDescription
    ensures NeedsNoEscape(k0) && NeedsNoEscape(k1) && NeedsNoEscape(d)
  {
  }

  lemma QuotedLiteral(s: string, lit: string, t: string)
    requires s == lit && t == "\"" + lit + "\""
    ensures "\"" + s + "\"" == t
  {
  }

  /** The default's keys and description, written into the two-line shape, give the fallback text. */
  lemma TemplateIsFallback(k0: string, k1: string, d: string)
    requires k0 == "servers" && k1 == "description" && d == Backend.DefaultDescription
    ensures "{\n" + ("  " + ("\"" + k0 + "\"") + ": " + "[]")
            + ",\n" + ("  " + ("\"" + k1 + "\"") + ": " + ("\"" + d + "\"")) + "\n}" == McpConfig.FallbackText
  {
    QuotedLiteral(k0, "servers", "\"servers\"");
    QuotedLiteral(k1, "description", "\"description\"");
    QuotedLiteral(d, "MCP Server Configuration", "\"MCP Server Configuration\"");
  }

  /**
   * The editor's fallback text is exactly what `JSON.stringify(_, null, 2)`
   * writes for the document `GET /api/mcp/config` returns, so a failed fetch
   * shows the same text as a successful one.
   */
  lemma FallbackIsServerDefault()
    ensures Stringify2(Backend.GetMcpConfig()) == McpConfig.FallbackText
  {
    DefaultText("servers", "description", Backend.DefaultDescription);
  }

  lemma DefaultText(k0: string, k1: string, d: string)
    requires k0 == "servers" && k1 == "description" && d == Backend.DefaultDescription
    ensures Stringify2(JObject([Member(k0, JArray([])), Member(k1, JString(d))])) == McpConfig.FallbackText
  {
    DefaultNeedsNoEscape(k0, k1, d);
    TemplateText(k0, k1, d);
    TemplateIsFallback(k0, k1, d);
  }

  /** The document `GET /api/mcp/config` returns is one `JSON.parse` gives back as it is. */
  lemma DefaultIsCanonical()
    ensures Canonical(Backend.GetMcpConfig())
  {
    var fields := Backend.GetMcpConfig().fields;
    assert fields[0].key[0] == 's' && fields[1].key[0] == 'd';
    assert !DigitsOnly(fields[0].key) && !DigitsOnly(fields[1].key);
  }

  /** With a parser that reads back canonical values, the fallback text parses to the server's default document. */
  lemma FallbackParsesToDefault(parse: string -> Option<Json>)
    requires McpConfig.ReadsBackCanonical(parse, Stringify2)
    ensures parse(McpConfig.FallbackText) == Some(Backend.GetMcpConfig())
  {
    FallbackIsServerDefault();
    DefaultIsCanonical();
  }

  /**
   * Mounting the editor: the GET goes to the URL `getApiUrl` chose; when the
   * API answers, the text is the serialised default document, otherwise the
   * fallback text, and no message is shown either way.
   */
  method MountEditor(hostname: string, parse: string -> Option<Json>, stringify: Json -> string, reachable: bool)
    returns (url: string, text: string, message: string)
    ensures url == McpConfig.GetApiUrl(hostname) + ConfigPath
    ensures reachable ==> text == stringify(Backend.GetMcpConfig())
    ensures !reachable ==> text == McpConfig.FallbackText
    ensures message == ""
  {
    var c := new McpConfig.ConfigController(hostname, parse, stringify);
    url := c.Fetch();
    c.FetchComplete(if reachable then Resolved(Backend.GetMcpConfig()) else Rejected);
    text, message := c.configJson, c.message;
  }

  /** With the standard serialiser, whether the fetch succeeds or fails makes no difference to the editor. */
  method MountEditorStandard(hostname: string, parse: string -> Option<Json>, reachable: bool)
    returns (text: string)
    ensures text == McpConfig.FallbackText
  {
    FallbackIsServerDefault();
    var _, t, _ := MountEditor(hostname, parse, Stringify2, reachable);
    text := t;
  }

  /** Saving text that does not parse sends nothing and shows the malformed message, styled as an error. */
  method SaveMalformed(hostname: string, parse: string -> Option<Json>, stringify: Json -> string, text: string)
    returns (sent: Option<Post<Json>>, box: Option<(string, McpConfig.Style)>, busy: bool)
    requires parse(text).None?
    ensures sent == None && !busy
    ensures box == Some((McpConfig.MalformedText, McpConfig.Error))
  {
    var c := new McpConfig.ConfigController(hostname, parse, stringify);
    c.SetConfigJson(text);
    sent := c.Save();
    McpConfig.MalformedIsError();
    box, busy := McpConfig.MessageBox(c.message), c.isLoading;
  }

  /**
   * Saving a parsed document through `POST /api/mcp/config`.  An object is
   * accepted: the saved message shows until its 3000 ms timer fires.  Any
   * other value is refused by the route: the save-failed message shows and
   * no timer is armed to clear it.
   */
  method SaveDocument(hostname: string, parse: string -> Option<Json>, stringify: Json -> string, text: string)
    returns (sent: Post<Json>, shown: string, timers: seq<nat>, afterTimers: string)
    requires parse(text).Some?
    ensures sent == Post(McpConfig.GetApiUrl(hostname) + ConfigPath, parse(text).value)
    ensures parse(text).value.JObject? ==>
      shown == McpConfig.SavedText && timers == [McpConfig.SavedDelay] && afterTimers == ""
    ensures !parse(text).value.JObject? ==>
      shown == McpConfig.SaveFailedText && timers == [] && afterTimers == McpConfig.SaveFailedText
  {
    var c := new McpConfig.ConfigController(hostname, parse, stringify);
    c.SetConfigJson(text);
    var request := c.Save();
    sent := request.value;
    c.SaveComplete(Settle(Backend.UpdateMcpConfig(sent.body)));
    shown, timers := c.message, c.timers;
    if |c.timers| > 0 {
      c.TimerFires(0);
    }
    afterTimers := c.message;
  }

  /**
   * The clear armed by a successful save does not check what it clears: a
   * malformed-JSON message shown by a later Format is wiped when it fires.
   */
  method SavedTimerClearsLaterMessage(hostname: string, parse: string -> Option<Json>, stringify: Json -> string,
                                      good: string, bad: string)
    returns (before: string, after: string)
    requires parse(good).Some? && parse(good).value.JObject? && parse(bad).None?
    ensures before == McpConfig.MalformedText && after == ""
  {
    var c := new McpConfig.ConfigController(hostname, parse, stringify);
    c.SetConfigJson(good);
    var request := c.Save();
    c.SaveComplete(Settle(Backend.UpdateMcpConfig(request.value.body)));
    c.SetConfigJson(bad);
    c.Format();
    before := c.message;
    c.TimerFires(0);
    after := c.message;
  }

  /** Format is idempotent: formatting the formatted text again gives the same text. */
  method FormatTwice(hostname: string, parse: string -> Option<Json>, stringify: Json -> string, text: string)
    returns (first: string, second: string)
    requires McpConfig.ReadsBackOwn(parse, stringify) && parse(text).Some?
    ensures first == stringify(parse(text).value) && second == first
  {
    var c := new McpConfig.ConfigController(hostname, parse, stringify);
    c.SetConfigJson(text);
    c.Format();
    first := c.configJson;
    c.Format();
    second := c.configJson;
  }
}
