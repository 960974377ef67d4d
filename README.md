# bedrock-ui session controllers in Dafny

This project models the session logic of bedrock-ui. The web app offers three views over Amazon Bedrock: a chat with Claude, a generator of AWS architecture diagrams in Mermaid notation, and an editor for an MCP server configuration document. A FastAPI backend (`backend/main.py`) serves the API routes behind them.

The project has these parts:

- **Frontend controllers.** Each view is a class with the fields the view updates and a `Valid()` invariant. Each network call is split at its `await`: one method builds and returns the request (`Submit`, `Generate`, `Fetch`, `Save`) and `Complete`-style methods apply the settled outcome.
  - `Chat.ChatController` models `Chat.js`.
  - `Diagram.DiagramController` models `DiagramGenerator.js`.
  - `McpConfig.ConfigController` models `MCPConfig.js`.
- **Backend routes.** `Backend` holds the route handlers as pure functions. `Chat`, `GenerateDiagram` and `UpdateMcpConfig` map a request to an `Http` result. `GetMcpConfig` takes no request and returns the bare `Json` document.
- **Foreign code as parameters.** These are passed in as functions:
  - the Bedrock call: `invoke`, from the messages sent to the model to a reply text or a raised error;
  - Mermaid: `render`;
  - `JSON.parse`: `parse`;
  - `JSON.stringify(_, null, 2)`: `stringify`.
- **Helpers.**
  - `Text` models JavaScript's `trim` and `includes`.
  - `JsonText` holds JSON values and a reference 2-space serialiser, `Stringify2`. Its numbers are integers, written out in full as `JSON.stringify` does below 10^21.
- **Scenarios.** `Scenarios` runs each workflow end to end against the route handlers. It also proves that the editor's hard-coded fallback text is exactly the serialisation of the document `GET /api/mcp/config` returns.

Where the code's behaviour differs from a first reading, the model follows the code:

- The chat sends and stores the input as typed, not trimmed. The trim only guards emptiness.
- A diagram request that fails leaves the result cleared. The clear happens before the request.
- The save-failed message has no timer, so it stays until something else replaces it.
- `handleSave` has no busy guard of its own. Only the button is disabled, so saves in flight are counted (`savesInFlight`).
- A message-clearing timer clears whatever message is showing when it fires, including one shown after it was armed (`Scenarios.SavedTimerClearsLaterMessage`).

## Model

| member | source | states |
|---|---|---|
| Text.TrimStart | frontend/src/components/Chat.js:26 | The result is the suffix of the input that starts at its first non-whitespace character; everything dropped is ECMAScript whitespace |
| Text.TrimEnd | frontend/src/components/Chat.js:26 | The result is the prefix of the input that ends at its last non-whitespace character; everything dropped is whitespace |
| Text.Trim | frontend/src/components/Chat.js:26 | `s.trim()` is no longer than `s`, and neither starts nor ends with whitespace |
| Text.TrimDropsOnlyWhitespace | frontend/src/components/Chat.js:26 | `s.trim()` is a slice of `s` with only whitespace before and after it |
| Text.TrimEmptyIffAllWhitespace | frontend/src/components/Chat.js:26 | Trimming leaves the empty string exactly when every character is whitespace (both directions) |
| Text.IsBlank | frontend/src/components/DiagramGenerator.js:32 | `!s.trim()` holds exactly when every character of `s` is whitespace (both directions) |
| Text.NotBlankWhenSomeVisible | frontend/src/components/DiagramGenerator.js:32 | A string with some non-whitespace character passes the emptiness guard |
| Text.Contains | frontend/src/components/MCPConfig.js:97 | `s.includes(sub)`; when it holds, the pattern is no longer than the string. Its meaning is proved by `ContainsIffOccurs` |
| Text.ContainsIffOccurs | frontend/src/components/MCPConfig.js:97 | `includes` holds exactly when the pattern occurs at some position (both directions) |
| Text.ContainsMiddle | frontend/src/components/MCPConfig.js:97 | `(a + b + c).includes(b)` always holds |
| Text.NotContainsWithoutFirstChar | frontend/src/components/MCPConfig.js:97 | A pattern whose first character is absent from the string is not included in it |
| JsonText.Lookup | backend/main.py:113-116 | A key is found exactly when the object has a member with that key, and the value found is that of the first such member |
| JsonText.EscapeVerbatim | frontend/src/components/MCPConfig.js:27 | `JSON.stringify` writes a string with no quote, backslash or control character unchanged |
| JsonText.QuoteVerbatim | frontend/src/components/MCPConfig.js:27 | Such a string is serialised as itself between double quotes |
| JsonText.NatText | frontend/src/components/MCPConfig.js:27 | The decimal text of a natural number: digits only, no leading zero, and its decimal value is the number |
| JsonText.Stringify2 | frontend/src/components/MCPConfig.js:27 | `JSON.stringify(_, null, 2)` on JSON whose numbers are integers of magnitude below 10^21: never empty; objects are written between braces, arrays between brackets, strings between double quotes. Its layout is proved by `TwoMembersText` and `Scenarios.TemplateText` |
| JsonText.TwoMembersText | frontend/src/components/MCPConfig.js:27 | A two-member object is serialised as its two indented `"key": value` lines, comma-separated, between braces |
| Protocol.Settle | frontend/src/components/Chat.js:37-49 | Definition: the awaited call resolves exactly when the handler answered 200, with that body; an error status rejects |
| Protocol.ApiUrlFromEnv | frontend/src/components/Chat.js:7 | Definition: the API base is the configured origin, or the empty prefix when none is configured |
| Backend.ReadChatRequest | backend/main.py:25-27 | Definition: the message is kept and an omitted history defaults to `[]` |
| Backend.ChatModelMessages | backend/main.py:49-51 | The model is sent the request history followed by one user turn carrying the message |
| Backend.Chat | backend/main.py:44-75 | Succeeds exactly when the model replies. The returned history is two entries longer than the request history, starts with the request history, continues with the user turn and ends with the assistant's reply, and `response` is the last turn's content. Anything raised gives status 500 with its text |
| Backend.DiagramPrompt | backend/main.py:81-88 | The prompt is the fixed head, then the description verbatim, then the fixed tail |
| Backend.DiagramModelMessages | backend/main.py:93 | Exactly one user message is sent, and its content contains the description |
| Backend.GenerateDiagram | backend/main.py:77-107 | Succeeds exactly when the model replies, with `diagram` equal to the reply text; anything raised gives status 500 |
| Backend.GetMcpConfig | backend/main.py:109-116 | The document is an object with exactly two members, in the order `servers` then `description`: `servers` is `[]`, `description` is `"MCP Server Configuration"` |
| Backend.UpdateMcpConfig | backend/main.py:118-125 | An object body is accepted and answered with an object of exactly two members, in order: `status: "success"` and the body echoed unchanged as `config`; any other value is refused with 422 |
| Chat.UserMessage | frontend/src/components/Chat.js:28-31 | Definition: the user turn carries the input exactly as typed |
| Chat.ChatController.constructor | frontend/src/components/Chat.js:7-12 | A mounted chat starts with no messages, an empty input, not busy, and nothing pending |
| Chat.ChatController.SetInput | frontend/src/components/Chat.js:94 | Only the input changes |
| Chat.ChatController.Submit | frontend/src/components/Chat.js:23-41 | A blank input or a busy controller changes nothing and sends nothing. An accepted submit appends exactly one raw user turn, empties the input, turns busy, and sends the raw input with the history as it was before the append |
| Chat.ChatController.Complete | frontend/src/components/Chat.js:37-58 | Success replaces the list with the server's history; failure keeps the optimistic user turn and appends exactly one fixed error turn; busy is cleared either way |
| Chat.ChatController.SendEnabled | frontend/src/components/Chat.js:99-102 | The send button is enabled exactly when idle and the input has a non-whitespace character |
| Chat.ChatController.InputDisabled | frontend/src/components/Chat.js:97 | While the input is disabled the send button is disabled too |
| Diagram.DiagramController.constructor | frontend/src/components/DiagramGenerator.js:11-15 | A mounted view starts with no description, no result, not busy, and no alerts |
| Diagram.DiagramController.SetDescription | frontend/src/components/DiagramGenerator.js:58 | Only the description changes |
| Diagram.DiagramController.Generate | frontend/src/components/DiagramGenerator.js:29-40 | A blank description or a busy controller leaves everything as it was, the previous result included. Otherwise the controller turns busy, clears the result and sends the description untrimmed |
| Diagram.DiagramController.Complete | frontend/src/components/DiagramGenerator.js:37-48 | Success stores the returned source; failure leaves the result empty and raises exactly one alert; busy is cleared either way |
| Diagram.DiagramController.RenderEffect | frontend/src/components/DiagramGenerator.js:17-27 | Nothing happens to an empty result. A non-empty one makes the pane show the SVG, or the fixed failure notice when Mermaid rejects it. The source is never changed |
| Diagram.DiagramController.ShownSource | frontend/src/components/DiagramGenerator.js:73-81 | Definition: the `<pre>` block is present exactly when there is a result, and shows it as it is |
| Diagram.DiagramController.GenerateEnabled | frontend/src/components/DiagramGenerator.js:64-67 | The generate button is enabled exactly when idle and the description has a non-whitespace character |
| McpConfig.GetApiUrl | frontend/src/components/MCPConfig.js:6-11 | `http://localhost:8000` exactly for the hostnames `localhost` and `127.0.0.1`, otherwise the empty prefix |
| McpConfig.MessageBox | frontend/src/components/MCPConfig.js:96-100 | No box for the empty message; otherwise the box shows the message and is styled as an error exactly when the classifier says so |
| McpConfig.IsErrorMessage | frontend/src/components/MCPConfig.js:97 | A message is styled as an error exactly when `失敗` or `正しくありません` occurs in it at some position (both directions) |
| McpConfig.MalformedIsError | frontend/src/components/MCPConfig.js:47 | The malformed-JSON message is classed as an error |
| McpConfig.SaveFailedIsError | frontend/src/components/MCPConfig.js:49 | The save-failed message is classed as an error |
| McpConfig.SuccessWithoutMarkers | frontend/src/components/MCPConfig.js:97 | A message containing neither marker's first character is classed as a success |
| McpConfig.ConfirmationsAreSuccesses | frontend/src/components/MCPConfig.js:43 | The saved and the formatted messages are classed as successes |
| McpConfig.Reformat | frontend/src/components/MCPConfig.js:58-60 | Definition: nothing when the text does not parse; otherwise the serialisation of the parsed value |
| McpConfig.ReformatIdempotent | frontend/src/components/MCPConfig.js:57-66 | With a parser that reads back the serialisation of any value it has itself produced (`ReadsBackOwn`), reformatting formatted text gives the same text |
| McpConfig.ConfigController.constructor | frontend/src/components/MCPConfig.js:13-18 | A mounted editor uses `getApiUrl`'s base and starts empty, idle, with no message and no timers |
| McpConfig.ConfigController.SetConfigJson | frontend/src/components/MCPConfig.js:90 | Only the text changes |
| McpConfig.ConfigController.Fetch | frontend/src/components/MCPConfig.js:24-26 | The GET goes to the config route; no visible field changes |
| McpConfig.ConfigController.FetchComplete | frontend/src/components/MCPConfig.js:27-31 | Success sets the text to the serialised response; failure sets it to the fixed template; the message is untouched |
| McpConfig.ConfigController.Save | frontend/src/components/MCPConfig.js:34-47 | Text that does not parse sends nothing, shows the malformed message and leaves the editor idle. Parsed text clears the message, turns busy and posts the parsed value |
| McpConfig.ConfigController.SaveComplete | frontend/src/components/MCPConfig.js:42-54 | Success shows the saved message and arms one 3000 ms clear; failure shows the save-failed message and arms nothing; busy is cleared either way |
| McpConfig.ConfigController.Format | frontend/src/components/MCPConfig.js:57-66 | Parsed text is replaced by its serialisation, the formatted message is shown and one 2000 ms clear is armed; other text is kept and the malformed message is shown |
| McpConfig.ConfigController.TimerFires | frontend/src/components/MCPConfig.js:44 | The fired timer is removed and the message is cleared; nothing else changes |
| McpConfig.ConfigController.SaveEnabled | frontend/src/components/MCPConfig.js:105 | The save button is disabled only while some save is in flight |
| Scenarios.ChatTurn | frontend/src/components/Chat.js:23-58 | An accepted turn ends idle with an empty input. On a model reply, the list is the prior list plus the user turn and the reply; on a failure, the prior list plus the user turn and the error turn |
| Scenarios.FirstChatTurn | frontend/src/components/Chat.js:38-41 | The first turn of a fresh view sends an empty history and ends with exactly two turns |
| Scenarios.OmittedHistory | backend/main.py:25-27 | A request read without a history is answered, on a reply, with exactly the user turn and the reply; on a raised error, with status 500 |
| Scenarios.HelloHi | backend/main.py:68-72 | "Hello" answered with "Hi" ends with the user's "Hello" and the assistant's "Hi" |
| Scenarios.HelloThenFailure | frontend/src/components/Chat.js:49-55 | A failing second turn keeps the first exchange and the second user turn, followed by the error turn |
| Scenarios.PaneFor | frontend/src/components/DiagramGenerator.js:17-27 | Definition: what the preview shows for a source: unmounted when it is empty, the SVG when it renders, the notice when it does not |
| Scenarios.FirstGenerate | frontend/src/components/DiagramGenerator.js:29-48 | A reply is stored and rendered without an alert; a failed call stores nothing, leaves the preview unmounted, and raises exactly one alert |
| Scenarios.TwoServices | frontend/src/components/DiagramGenerator.js:42 | A returned source that renders is kept and its SVG shown, not the notice |
| Scenarios.UnrenderableSource | frontend/src/components/DiagramGenerator.js:22-24 | A source Mermaid rejects is still shown in `<pre>` while the pane shows the failure notice |
| Scenarios.BlankGenerateKeepsResult | frontend/src/components/DiagramGenerator.js:32 | After a result is shown, empty and all-space descriptions send nothing and keep the result |
| Scenarios.TemplateText | frontend/src/components/MCPConfig.js:27 | A document `{"servers": [], key: text}` whose key and text need no escapes is serialised as its two lines between braces |
| Scenarios.FallbackIsServerDefault | frontend/src/components/MCPConfig.js:30 | The fallback template is exactly the 2-space serialisation of the document `get_mcp_config` returns |
| Scenarios.DefaultIsCanonical | backend/main.py:113-116 | The default document is canonical: its keys are distinct and not array indices, and its numbers are safe integers |
| Scenarios.FallbackParsesToDefault | backend/main.py:113-116 | With a parser that reads back the serialisation of canonical values (`ReadsBackCanonical`), the fallback template parses to the server's default document |
| Scenarios.MountEditor | frontend/src/components/MCPConfig.js:20-32 | Mounting sends the GET to `getApiUrl`'s base; success shows the serialised default document, failure the template; no message either way |
| Scenarios.MountEditorStandard | frontend/src/components/MCPConfig.js:27-30 | With the standard serialiser, success and failure of the fetch show the same text |
| Scenarios.SaveMalformed | frontend/src/components/MCPConfig.js:45-47 | Saving unparseable text sends nothing, ends idle, and shows the malformed message styled as an error |
| Scenarios.SaveDocument | frontend/src/components/MCPConfig.js:40-50 | An object is accepted: the saved message shows and its single 3000 ms timer clears it. Any other value is refused: the save-failed message shows, no timer is armed, and it stays |
| Scenarios.SavedTimerClearsLaterMessage | frontend/src/components/MCPConfig.js:44 | The saved message's timer also clears a malformed-JSON message that a later Format showed |
| Scenarios.FormatTwice | frontend/src/components/MCPConfig.js:57-62 | With a parser that reads back the serialisation of its own results (`ReadsBackOwn`), formatting twice gives the same text as formatting once |

## Left out

- `frontend/src/App.js`, all JSX markup and CSS, `scrollToBottom`, and the loading indicator. These are presentation only.
- The Bedrock call inside the routes: the request body, model ID, `max_tokens`, the float `temperature` and reading the response JSON. It becomes the `invoke` parameter, and any exception it or the response parsing raises becomes `Raised`.
- The CORS middleware and the `/` and `/health` routes. These are framework configuration and fixed answers.
- The behaviour of `axios`, Mermaid, `JSON.parse` and `JSON.stringify`. These are parameters.
  - `JsonText.Stringify2` is a reference serialiser for integer-valued JSON only. It is used only to relate the fallback template to the backend's default document.
  - `JsonText.Stringify2` writes every integer digit by digit. From 10^21 in magnitude up, `JSON.stringify` uses exponent form (`1e+21`), so the two agree only below 10^21. Canonical values, safe integers at most, stay below that bound.
  - JSON numbers are integers: floating point is not modelled.
  - `McpConfig.ReformatIdempotent`, `Scenarios.FormatTwice` and `Scenarios.FallbackParsesToDefault` assume how `JSON.parse` relates to the serialiser instead of modelling it. `ReadsBackOwn` says a value the parser produced reads back from its serialisation. `ReadsBackCanonical` says the same for canonical values only, because `JSON.parse` keeps the last of repeated keys and moves array-index keys first.
- Real timers, async interleaving and unmounting. Each `setTimeout` is an armed entry that `TimerFires` fires in any order. Requests settle one at a time through their `Complete` method, after their begin method.
- `console.error`. The `alert` call is recorded as its text in `alerts`.
- The quirk that `Chat.js` reads `response.data.response` into an unused variable. It has no effect.
- `Backend.UpdateMcpConfig`: its 422 stands for FastAPI's validation of the `dict` parameter. Its `try`/`except` around the dictionary literal cannot fail, so its 500 path is not modelled.
- `Backend.Chat`: the history entries are typed `Message` records here. In the code they are untyped dictionaries, and the route does not validate their shape.
