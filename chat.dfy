/**
 * The chat view's controller (Chat.js): the message list, the input field
 * and the busy flag.  `handleSendMessage` is split at its `await` into
 * `Submit` (everything up to the request) and `Complete` (the `try`,
 * `catch` and `finally` once the request settles).
 */
module Chat {
  import opened Wrappers
  import opened Protocol
  import Text

  const ErrorText := "エラーが発生しました。もう一度お試しください。"

  /** The assistant turn appended when a request fails. */
  const ErrorMessage := Message(Assistant, ErrorText)

  /** The user turn built from the input field, exactly as typed. */
  function UserMessage(input: string): (m: Message)
    ensures m.role == User && m.content == input
  {
    Message(User, input)
  }

  class ChatController {
    /** `API_URL`, resolved once when the module loads. */
    const apiUrl: string
    var messages: seq<Message>
    var inputMessage: string
    var isLoading: bool
    /** The request awaiting its response, if any. */
    var pending: Option<Post<ChatBody>>

    /**
     * Busy exactly while a request is in flight; during that time the list
     * is the history that request carries plus the optimistic user turn.
     */
    ghost predicate Valid()
      reads this
    {
      (isLoading <==> pending.Some?) &&
      (pending.Some? ==>
         pending.value.url == apiUrl + ChatPath &&
         messages == pending.value.body.conversation_history + [UserMessage(pending.value.body.message)])
    }

    /** Mounting the view: empty conversation, empty input, idle. */
    constructor (env: Option<string>)
      ensures Valid()
      ensures apiUrl == ApiUrlFromEnv(env)
      ensures messages == [] && inputMessage == "" && !isLoading && pending == None
    {
      apiUrl := ApiUrlFromEnv(env);
      messages := [];
      inputMessage := "";
      isLoading := false;
      pending := None;
    }

    /** The input's `onChange`. */
    method SetInput(text: string)
      requires Valid()
      modifies this
      ensures Valid()
      ensures inputMessage == text
      ensures messages == old(messages) && isLoading == old(isLoading) && pending == old(pending)
    {
      inputMessage := text;
    }

    /**
     * `handleSendMessage` up to the `await`.  A blank input or a busy
     * controller returns early with nothing changed and nothing sent.
     * Otherwise the raw input is appended as a user turn, the field is
     * cleared, the controller turns busy, and the request carries the raw
     * input and the list as it was before the append.
     */
    method Submit() returns (sent: Option<Post<ChatBody>>)
      requires Valid()
      modifies this
      ensures Valid()
      ensures sent.None? <==> Text.IsBlank(old(inputMessage)) || old(isLoading)
      ensures sent.Some? <==> old(SendEnabled())
      ensures sent.None? ==>
        messages == old(messages) && inputMessage == old(inputMessage)
        && isLoading == old(isLoading) && pending == old(pending)
      ensures sent.Some? ==>
        sent.value == Post(apiUrl + ChatPath, ChatBody(old(inputMessage), old(messages)))
        && messages == old(messages) + [UserMessage(old(inputMessage))]
        && inputMessage == "" && isLoading && pending == sent
    {
      if Text.IsBlank(inputMessage) || isLoading {
        return None;
      }
      var request := Post(apiUrl + ChatPath, ChatBody(inputMessage, messages));
      messages := messages + [UserMessage(inputMessage)];
      inputMessage := "";
      isLoading := true;
      pending := Some(request);
      sent := pending;
    }

    /**
     * The settled request.  On success the server's history replaces the
     * list wholesale; on failure the optimistic user turn stays and one
     * error turn follows it.  Either way the controller is idle again.
     */
    method Complete(outcome: Outcome<ChatReply>)
      requires Valid() && isLoading
      modifies this
      ensures Valid()
      ensures !isLoading && pending == None && inputMessage == old(inputMessage)
      ensures outcome.Resolved? ==> messages == outcome.data.conversation_history
      ensures outcome.Rejected? ==>
        messages == old(messages) + [ErrorMessage]
        && messages == old(pending).value.body.conversation_history
                       + [UserMessage(old(pending).value.body.message), ErrorMessage]
    {
      match outcome {
        case Resolved(reply) =>
          messages := reply.conversation_history;
        case Rejected =>
          messages := messages + [ErrorMessage];
      }
      isLoading := false;
      pending := None;
    }

    /** The send button's `disabled` is false exactly when the controller is idle and the input has a visible character. */
    predicate SendEnabled()
      reads this
      ensures SendEnabled() <==>
        !isLoading && exists i :: 0 <= i < |inputMessage| && !Text.IsWhitespace(inputMessage[i])
    {
      !(isLoading || Text.IsBlank(inputMessage))
    }

    /** The input field is disabled exactly while busy, and then the send button is disabled too. */
    predicate InputDisabled()
      reads this
      ensures InputDisabled() ==> !SendEnabled()
    {
      isLoading
    }
  }
}
