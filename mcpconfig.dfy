/**
 * The configuration editor's controller (MCPConfig.js): the editor text, the
 * busy flag and the status message.  `JSON.parse` and
 * `JSON.stringify(_, null, 2)` are the oracles `parse` and `stringify`;
 * `setTimeout` clears are armed timers, each fired by `TimerFires`.
 */
module McpConfig {
  import opened Wrappers
  import opened JsonText
  import opened Protocol
  import Text

  const DevApiUrl := "http://localhost:8000"

  /** `getApiUrl()`: the development server for a local page, the page's own origin otherwise. */
  function GetApiUrl(hostname: string): (r: string)
    ensures r == DevApiUrl <==> hostname == "localhost" || hostname == "127.0.0.1"
    ensures r != DevApiUrl ==> r == ""
  {
    if hostname == "localhost" || hostname == "127.0.0.1" then DevApiUrl else ""
  }

  /**
   * The editor text used when the initial fetch fails.  It is written here
   * piece by piece, one parenthesised group per line of the template, in the
   * grouping `Stringify2` produces: the proof that the two agree then only
   * compares short pieces, since comparing whole long string literals is
   * more than the verifier can do within its resource bound.
   */
  const FallbackText :=
    "{\n" + ("  " + "\"servers\"" + ": " + "[]")
    + ",\n" + ("  " + "\"description\"" + ": " + "\"MCP Server Configuration\"") + "\n}"

  const MalformedText := "JSONの形式が正しくありません"
  const SaveFailedText := "設定の保存に失敗しました"
  const SavedText := "設定を保存しました"
  const FormattedText := "フォーマットしました"

  const SavedDelay := 3000
  const FormattedDelay := 2000

  /** The message box's class: `error` when the text mentions a failure or an invalid input. */
  predicate IsErrorMessage(message: string)
    ensures IsErrorMessage(message) <==>
      (exists k :: Text.OccursAt(message, "失敗", k)) || (exists k :: Text.OccursAt(message, "正しくありません", k))
  {
    Text.ContainsIffOccurs(message, "失敗");
    Text.ContainsIffOccurs(message, "正しくありません");
    Text.Contains(message, "失敗") || Text.Contains(message, "正しくありません")
  }

  datatype Style = Error | Success

  /** The message box: absent for the empty message, otherwise styled by the classifier. */
  function MessageBox(message: string): (r: Option<(string, Style)>)
    ensures r.None? <==> message == ""
    ensures r.Some? ==> r.value.0 == message && (r.value.1 == Error <==> IsErrorMessage(message))
  {
    if message == "" then None
    else Some((message, if IsErrorMessage(message) then Error else Success))
  }

  /** The malformed-JSON message is styled as an error. */
  lemma MalformedIsError()
    ensures IsErrorMessage(MalformedText)
  {
    assert MalformedText == "JSONの形式が" + "正しくありません" + "";
    Text.ContainsMiddle("JSONの形式が", "正しくありません", "");
  }

  /** The save-failed message is styled as an error. */
  lemma SaveFailedIsError()
    ensures IsErrorMessage(SaveFailedText)
  {
    assert SaveFailedText == "設定の保存に" + "失敗" + "しました";
    Text.ContainsMiddle("設定の保存に", "失敗", "しました");
  }

  /** A message with neither marker's first character is styled as a success. */
  lemma SuccessWithoutMarkers(message: string)
    requires '失' !in message && '正' !in message
    ensures !IsErrorMessage(message)
  {
    Text.NotContainsWithoutFirstChar(message, "失敗");
    Text.NotContainsWithoutFirstChar(message, "正しくありません");
  }

  /** The saved and formatted messages are styled as successes. */
  lemma ConfirmationsAreSuccesses()
    ensures !IsErrorMessage(SavedText) && !IsErrorMessage(FormattedText)
  {
    NoMarkerIsSuccess(SavedText);
    NoMarkerIsSuccess(FormattedText);
  }

  lemma NoMarkerIsSuccess(message: string)
    requires message == SavedText || message == FormattedText
    ensures !IsErrorMessage(message)
  {
    assert '失' !in message && '正' !in message;
    SuccessWithoutMarkers(message);
  }

  /** Parsing, then re-serialising with 2-space indentation; nothing when the text does not parse. */
  function Reformat(parse: string -> Option<Json>, stringify: Json -> string, text: string): (r: Option<string>)
    ensures r.None? <==> parse(text).None?
    ensures r.Some? ==> r.value == stringify(parse(text).value)
  {
    match parse(text)
    case Some(j) => Some(stringify(j))
    case None => None
  }

  /** `parse` gives back any value it produced itself once `stringify` has written it out. */
  ghost predicate ReadsBackOwn(parse: string -> Option<Json>, stringify: Json -> string) {
    forall t :: parse(t).Some? ==> parse(stringify(parse(t).value)) == parse(t)
  }

  /** `parse` gives back every canonical value once `stringify` has written it out. */
  ghost predicate ReadsBackCanonical(parse: string -> Option<Json>, stringify: Json -> string) {
    forall j :: Canonical(j) ==> parse(stringify(j)) == Some(j)
  }

  /** Formatting an already formatted text changes nothing. */
  lemma ReformatIdempotent(parse: string -> Option<Json>, stringify: Json -> string, text: string)
    requires ReadsBackOwn(parse, stringify)
    requires Reformat(parse, stringify, text).Some?
    ensures Reformat(parse, stringify, Reformat(parse, stringify, text).value) == Reformat(parse, stringify, text)
  {
    assert parse(text).Some?;
  }

  class ConfigController {
    const apiUrl: string
    const parse: string -> Option<Json>
    const stringify: Json -> string
    var configJson: string
    var isLoading: bool
    var message: string
    /** Delays of the armed message-clearing timers, in the order they were armed. */
    var timers: seq<nat>
    var fetchPending: bool
    /** Saves sent and not yet settled; the handler itself has no busy guard. */
    var savesInFlight: nat

    /** Busy only while some save is in flight; every armed timer is one of the two delays the editor uses. */
    ghost predicate Valid()
      reads this
    {
      (isLoading ==> savesInFlight > 0) &&
      forall k :: 0 <= k < |timers| ==> timers[k] == SavedDelay || timers[k] == FormattedDelay
    }

    /** Mounting the view with the page's `hostname`. */
    constructor (hostname: string, parse: string -> Option<Json>, stringify: Json -> string)
      ensures Valid()
      ensures apiUrl == GetApiUrl(hostname) && this.parse == parse && this.stringify == stringify
      ensures configJson == "" && !isLoading && message == "" && timers == []
      ensures !fetchPending && savesInFlight == 0
    {
      apiUrl := GetApiUrl(hostname);
      this.parse := parse;
      this.stringify := stringify;
      configJson := "";
      isLoading := false;
      message := "";
      timers := [];
      fetchPending := false;
      savesInFlight := 0;
    }

    /** The textarea's `onChange`. */
    method SetConfigJson(text: string)
      requires Valid()
      modifies this
      ensures Valid()
      ensures configJson == text
      ensures isLoading == old(isLoading) && message == old(message) && timers == old(timers)
      ensures fetchPending == old(fetchPending) && savesInFlight == old(savesInFlight)
    {
      configJson := text;
    }

    /** `fetchConfig` up to the `await`: the GET it issues on mount; no field the view shows changes. */
    method Fetch() returns (url: string)
      requires Valid()
      modifies this
      ensures Valid()
      ensures url == apiUrl + ConfigPath && fetchPending
      ensures configJson == old(configJson) && isLoading == old(isLoading) && message == old(message)
      ensures timers == old(timers) && savesInFlight == old(savesInFlight)
    {
      fetchPending := true;
      url := apiUrl + ConfigPath;
    }

    /**
     * The settled fetch: the document serialised with 2-space indentation,
     * or the fixed template when the request was rejected.  The message and
     * the busy flag are left alone.
     */
    method FetchComplete(outcome: Outcome<Json>)
      requires Valid() && fetchPending
      modifies this
      ensures Valid()
      ensures outcome.Resolved? ==> configJson == stringify(outcome.data)
      ensures outcome.Rejected? ==> configJson == FallbackText
      ensures !fetchPending && isLoading == old(isLoading) && message == old(message)
      ensures timers == old(timers) && savesInFlight == old(savesInFlight)
    {
      match outcome {
        case Resolved(data) => configJson := stringify(data);
        case Rejected => configJson := FallbackText;
      }
      fetchPending := false;
    }

    /**
     * `handleSave` up to the `await`.  It turns busy and clears the message,
     * then parses the editor text: text that does not parse ends the handler
     * with the malformed message, idle, and no request; a parsed document is
     * posted and the controller stays busy.
     */
    method Save() returns (sent: Option<Post<Json>>)
      requires Valid()
      modifies this
      ensures Valid()
      ensures sent.None? <==> parse(old(configJson)).None?
      ensures configJson == old(configJson) && timers == old(timers) && fetchPending == old(fetchPending)
      ensures sent.None? ==> message == MalformedText && !isLoading && savesInFlight == old(savesInFlight)
      ensures sent.Some? ==>
        sent.value == Post(apiUrl + ConfigPath, parse(old(configJson)).value)
        && message == "" && isLoading && savesInFlight == old(savesInFlight) + 1
    {
      isLoading := true;
      message := "";
      match parse(configJson) {
        case None =>
          message := MalformedText;
          isLoading := false;
          sent := None;
        case Some(config) =>
          savesInFlight := savesInFlight + 1;
          sent := Some(Post(apiUrl + ConfigPath, config));
      }
    }

    /**
     * A settled save.  Success shows the saved message and arms a 3000 ms
     * clear; a rejection shows the save-failed message and arms nothing.
     * Either way the busy flag is cleared.
     */
    method SaveComplete(outcome: Outcome<Json>)
      requires Valid() && savesInFlight > 0
      modifies this
      ensures Valid()
      ensures !isLoading && savesInFlight == old(savesInFlight) - 1
      ensures configJson == old(configJson) && fetchPending == old(fetchPending)
      ensures outcome.Resolved? ==> message == SavedText && timers == old(timers) + [SavedDelay]
      ensures outcome.Rejected? ==> message == SaveFailedText && timers == old(timers)
    {
      match outcome {
        case Resolved(_) =>
          message := SavedText;
          timers := timers + [SavedDelay];
        case Rejected =>
          message := SaveFailedText;
      }
      isLoading := false;
      savesInFlight := savesInFlight - 1;
    }

    /**
     * `handleFormat`.  Text that parses is replaced by its 2-space
     * serialisation, the formatted message is shown and a 2000 ms clear is
     * armed; other text is left as it is and the malformed message is shown.
     */
    method Format()
      requires Valid()
      modifies this
      ensures Valid()
      ensures isLoading == old(isLoading) && fetchPending == old(fetchPending) && savesInFlight == old(savesInFlight)
      ensures parse(old(configJson)).None? ==>
        configJson == old(configJson) && message == MalformedText && timers == old(timers)
      ensures parse(old(configJson)).Some? ==>
        configJson == stringify(parse(old(configJson)).value)
        && message == FormattedText && timers == old(timers) + [FormattedDelay]
    {
      match Reformat(parse, stringify, configJson) {
        case Some(text) =>
          configJson := text;
          message := FormattedText;
          timers := timers + [FormattedDelay];
        case None =>
          message := MalformedText;
      }
    }

    /** The `k`th armed timer fires: whatever message is showing is cleared. */
    method TimerFires(k: nat)
      requires Valid() && k < |timers|
      modifies this
      ensures Valid()
      ensures message == "" && timers == old(timers)[..k] + old(timers)[k + 1..]
      ensures configJson == old(configJson) && isLoading == old(isLoading)
      ensures fetchPending == old(fetchPending) && savesInFlight == old(savesInFlight)
    {
      message := "";
      timers := timers[..k] + timers[k + 1..];
    }

    /** The save button is disabled exactly while busy, which happens only while some save is in flight. */
    predicate SaveEnabled()
      reads this
      ensures Valid() && !SaveEnabled() ==> savesInFlight > 0
    {
      !isLoading
    }
  }
}
