/**
 * The message log of the AI assistant page (src/pages/ChatAIPage.tsx): a log
 * that starts with one greeting, grows by one user message per accepted
 * submit and by one assistant message per completed request.
 */
module ChatAI {
  import opened JsString

  /** A log entry; its `timestamp` is not modelled. */
  datatype ChatMessage = ChatMessage(id: string, content: string, isUser: bool)

  const GreetingText := "Hello! I'm your AI assistant. How can I help you today?"
  const Greeting := ChatMessage("1", GreetingText, false)
  const ErrorReplyText := "Sorry, I'm having trouble responding right now. Please try again."

  /** `!inputMessage.trim() || isLoading`: the submit guard and the send button's `disabled`. */
  predicate SendBlocked(inputMessage: string, isLoading: bool)
  {
    Trim(inputMessage) == [] || isLoading
  }

  /** The guard rejects exactly the inputs that are all white space, and any input while loading. */
  lemma SendBlockedMeaning(inputMessage: string, isLoading: bool)
    ensures SendBlocked(inputMessage, isLoading) <==> isLoading || AllWhiteSpace(inputMessage)
  {
    TrimEmptyIffAllWhiteSpace(inputMessage);
  }

  /** `prev` is kept, unaltered, at the front of `next`. */
  ghost predicate Extends(prev: seq<ChatMessage>, next: seq<ChatMessage>)
  {
    |prev| <= |next| && next[..|prev|] == prev
  }

  lemma AppendExtends(log: seq<ChatMessage>, m: ChatMessage)
    ensures Extends(log, log + [m])
    ensures |log| >= 1 ==> (log + [m])[0] == log[0]
  {
    assert (log + [m])[..|log|] == log;
  }

  /**
   * The page's state. `sent` records the text of every request handed to the
   * AI mutation; `isLoading` is the mutation's in-flight flag.
   */
  class ChatAIPage {
    var messages: seq<ChatMessage>
    var inputMessage: string
    var isLoading: bool
    var sent: seq<string>

    /** The greeting stays at the head of the log. */
    ghost predicate Valid()
      reads this
    {
      |messages| >= 1 && messages[0] == Greeting
    }

    constructor ()
      ensures Valid()
      ensures messages == [Greeting] && inputMessage == "" && !isLoading && sent == []
    {
      messages := [Greeting];
      inputMessage := "";
      isLoading := false;
      sent := [];
    }

    /** Whether the send button is disabled (line 173). */
    predicate SendDisabled()
      reads this
    {
      SendBlocked(inputMessage, isLoading)
    }

    /** The input's `onChange`. */
    method SetInput(text: string)
      modifies this`inputMessage
      ensures inputMessage == text
    {
      inputMessage := text;
    }

    /**
     * `handleSendMessage`, with `now` the text of the clock reading used for
     * the id. An accepted submit appends the trimmed input as a user message,
     * clears the input and sends the trimmed text; a rejected one changes
     * nothing. It is accepted exactly when the send button is enabled.
     */
    method HandleSendMessage(now: string) returns (accepted: bool)
      requires Valid()
      modifies this
      ensures Valid() && Extends(old(messages), messages)
      ensures accepted <==> !old(SendBlocked(inputMessage, isLoading))
      ensures accepted <==> !old(SendDisabled())
      ensures !accepted ==>
        && messages == old(messages) && inputMessage == old(inputMessage)
        && isLoading == old(isLoading) && sent == old(sent)
      ensures accepted ==>
        && messages == old(messages) + [ChatMessage(now + "_user", Trim(old(inputMessage)), true)]
        && inputMessage == ""
        && sent == old(sent) + [Trim(old(inputMessage))]
        && isLoading
    {
      if SendBlocked(inputMessage, isLoading) {
        return false;
      }
      var text := Trim(inputMessage);
      var userMessage := ChatMessage(now + "_user", text, true);
      AppendExtends(messages, userMessage);
      messages, inputMessage, sent, isLoading := messages + [userMessage], "", sent + [text], true;
      accepted := true;
    }

    /** The mutation's `onSuccess`: one assistant message carrying the response. */
    method OnSuccess(response: string, now: string)
      requires Valid()
      modifies this`messages, this`isLoading
      ensures Valid() && Extends(old(messages), messages)
      ensures messages == old(messages) + [ChatMessage(now + "_ai", response, false)]
      ensures !isLoading
    {
      messages := messages + [ChatMessage(now + "_ai", response, false)];
      isLoading := false;
    }

    /** The mutation's `onError`: one assistant message with the fixed apology. */
    method OnError(now: string)
      requires Valid()
      modifies this`messages, this`isLoading
      ensures Valid() && Extends(old(messages), messages)
      ensures messages == old(messages) + [ChatMessage(now + "_error", ErrorReplyText, false)]
      ensures !isLoading
    {
      messages := messages + [ChatMessage(now + "_error", ErrorReplyText, false)];
      isLoading := false;
    }
  }

  /**
   * One exchange from a fresh page: a padded question at clock reading
   * `askedAt`, then a reply at `repliedAt`. A second submit while the reply is
   * pending is rejected.
   */
  method Exchange(question: string, reply: string, askedAt: string, repliedAt: string)
    returns (log: seq<ChatMessage>, sent: seq<string>)
    requires Trim(question) != []
    ensures log == [Greeting, ChatMessage(askedAt + "_user", Trim(question), true),
                    ChatMessage(repliedAt + "_ai", reply, false)]
    ensures sent == [Trim(question)]
  {
    var page := new ChatAIPage();
    page.SetInput(question);
    var ok := page.HandleSendMessage(askedAt);
    assert ok;
    page.SetInput(question);
    ok := page.HandleSendMessage(askedAt);
    assert !ok;
    page.OnSuccess(reply, repliedAt);
    log, sent := page.messages, page.sent;
  }
}
