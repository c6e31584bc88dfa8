/**
 * The Heroku web app's `ChatBot`: one message history per conversation,
 * kept as alternating user/assistant messages and truncated to its last 20,
 * and the `/chat` route that feeds it. The model service is outside the
 * model: `outcome` is what the call made with `sent` came to.
 */
module AppChatbot {
  import opened Common
  import opened Text
  import opened ChatMessages

  /** The configured history cap, in messages. */
  const MaxConversationHistory := 20

  const MissingKeyError :=
    "Error: OpenRouter API key not configured. Please set the OPENROUTER_API_KEY environment variable."

  /**
   * `get_real_time_context`: three labelled lines, one per clock rendering
   * (`dateTime` as "%Y-%m-%d %H:%M:%S", `longDate` as "%A, %B %d, %Y",
   * `clock` as "%I:%M %p").
   */
  function RealTimeContext(dateTime: string, longDate: string, clock: string): (text: string)
    ensures text == Join("\n", ["Current date and time: " + dateTime, "Today is " + longDate, "Current time: " + clock])
  {
    var lines := ["Current date and time: " + dateTime, "Today is " + longDate, "Current time: " + clock];
    assert Join("\n", lines[2..]) == lines[2];
    assert Join("\n", lines[1..]) == lines[1] + "\n" + lines[2];
    "Current date and time: " + dateTime + "\nToday is " + longDate + "\nCurrent time: " + clock
  }

  const SystemOpening := "You are a helpful AI assistant with access to real-time information.\n                \n"
  const SystemClosing :=
    "\n\nYou can provide current information and help with various tasks. Be conversational, helpful, and informative."

  /** The system message's text around the real-time context. */
  function SystemContent(realTimeContext: string): string {
    SystemOpening + realTimeContext + SystemClosing
  }

  /** How the call to the model service ended. */
  datatype Outcome =
    | Replied(content: string)
    | ConnectionFailed(detail: string)   // a `requests` exception, including a non-2xx status
    | Unparsable(detail: string)         // a `KeyError` while reading the reply
    | Crashed(detail: string)            // any other exception

  /** The string returned for a failed call. */
  function FailureText(outcome: Outcome): (text: string)
    requires !outcome.Replied?
  {
    match outcome
    case ConnectionFailed(detail) => "Error connecting to AI service: " + detail
    case Unparsable(detail) => "Error parsing AI response: " + detail
    case Crashed(detail) => "Unexpected error: " + detail
  }

  /** A stored history: user and assistant messages alternate, user first, at most 20 of them. */
  predicate Alternating(history: seq<Message>) {
    && |history| % 2 == 0
    && |history| <= MaxConversationHistory
    && forall k :: 0 <= k < |history| ==> history[k].role == (if k % 2 == 0 then User else Assistant)
  }

  /** `history[-20:]` when the history has grown past the cap. */
  function Truncate(history: seq<Message>): (r: seq<Message>)
    ensures |r| == Min(MaxConversationHistory, |history|)
    ensures r == history[|history| - |r|..]
  {
    if |history| > MaxConversationHistory then history[|history| - MaxConversationHistory..] else history
  }

  /** The history after a successful exchange. */
  function Exchanged(history: seq<Message>, message: string, reply: string): seq<Message> {
    Truncate(history + [Message(User, message), Message(Assistant, reply)])
  }

  /**
   * Appending a user/assistant pair and truncating keeps a history
   * alternating: the cap is even, so truncation drops whole pairs.
   */
  lemma {:induction false} ExchangeKeepsAlternation(history: seq<Message>, message: string, reply: string)
    requires Alternating(history)
    ensures Alternating(Exchanged(history, message, reply))
    ensures var r := Exchanged(history, message, reply);
            r[|r| - 2] == Message(User, message) && r[|r| - 1] == Message(Assistant, reply)
  {
    var full := history + [Message(User, message), Message(Assistant, reply)];
    var r := Exchanged(history, message, reply);
    var drop := |full| - |r|;
    assert drop == 0 || drop == 2;
    forall k | 0 <= k < |r|
      ensures r[k].role == (if k % 2 == 0 then User else Assistant)
    {
      assert r[k] == full[k + drop];
      assert (k + drop) % 2 == k % 2;
    }
  }

  /** The success step: append the user message, then the reply, then truncate to the cap. */
  method RecordExchange(history: seq<Message>, message: string, reply: string) returns (updated: seq<Message>)
    requires Alternating(history)
    ensures updated == Exchanged(history, message, reply)
    ensures Alternating(updated)
  {
    ExchangeKeepsAlternation(history, message, reply);
    updated := history + [Message(User, message)];
    updated := updated + [Message(Assistant, reply)];
    assert updated == history + [Message(User, message), Message(Assistant, reply)];
    if |updated| > MaxConversationHistory {
      updated := updated[|updated| - MaxConversationHistory..];
    }
  }

  class ChatBot {
    var conversations: map<string, seq<Message>>

    ghost predicate Valid()
      reads this
    {
      forall id :: id in conversations ==> Alternating(conversations[id])
    }

    constructor ()
      ensures Valid() && conversations == map[]
    {
      conversations := map[];
    }

    /** The stored history of `id`; none for an id never seen. */
    function History(id: string): seq<Message>
      reads this
    {
      if id in conversations then conversations[id] else []
    }

    /**
     * `get_ai_response`. `apiKey` is the environment variable (`None` when
     * unset); `dateTime`, `longDate` and `clock` the clock readings of the
     * moment. `sent` is the request made, `None` when no request was made.
     */
    method GetAiResponse(message: string, conversationId: string, apiKey: Option<string>,
                         dateTime: string, longDate: string, clock: string, outcome: Outcome)
      returns (response: string, sent: Option<seq<Message>>)
      requires Valid()
      modifies this
      ensures Valid()
      ensures apiKey.None? || apiKey.value == "" ==>
                response == MissingKeyError && sent.None? && conversations == old(conversations)
      ensures apiKey.Some? && apiKey.value != "" ==>
                var history := old(History(conversationId));
                && sent == Some([Message(System, SystemContent(RealTimeContext(dateTime, longDate, clock)))] + history
                                + [Message(User, message)])
                && (outcome.Replied? ==>
                      && response == outcome.content
                      && conversations == old(conversations)[conversationId := Exchanged(history, message, outcome.content)])
                && (!outcome.Replied? ==>
                      && response == FailureText(outcome)
                      && conversations == old(conversations)[conversationId := history])
    {
      if apiKey.None? || apiKey.value == "" {
        return MissingKeyError, None;
      }
      if conversationId !in conversations {
        conversations := conversations[conversationId := []];
      }
      var messages := [Message(System, SystemContent(RealTimeContext(dateTime, longDate, clock)))];
      messages := messages + conversations[conversationId];
      messages := messages + [Message(User, message)];
      sent := Some(messages);
      if !outcome.Replied? {
        return FailureText(outcome), sent;
      }
      var history := RecordExchange(conversations[conversationId], message, outcome.content);
      conversations := conversations[conversationId := history];
      response := outcome.content;
    }
  }

  /** The JSON body of `/chat`; an absent key is `None`. */
  datatype ChatBody = ChatBody(message: Option<string>)

  datatype ChatReply = ChatReply(response: string, timestamp: string)

  const EmptyMessage := HttpError(400, "Empty message")

  /**
   * `/chat`. A missing body makes the handler raise, which its catch-all
   * turns into a 500. The message is stripped before it is checked and
   * before it is passed on. The session's conversation id is reused, or a
   * fresh one is taken and stored in the session.
   */
  method Chat(bot: ChatBot, body: Option<ChatBody>, sessionId: Option<string>, freshId: string,
              apiKey: Option<string>, dateTime: string, longDate: string, clock: string,
              outcome: Outcome, now: string)
    returns (r: Result<ChatReply, HttpError>, newSessionId: Option<string>, sent: Option<seq<Message>>)
    requires bot.Valid()
    modifies bot
    ensures bot.Valid()
    ensures body.None? ==>
              r.Failure? && r.error.status == 500 && newSessionId == sessionId && sent.None? && unchanged(bot)
    ensures body.Some? && IsBlank(body.value.message.GetOr("")) ==>
              r == Failure(EmptyMessage) && newSessionId == sessionId && sent.None? && unchanged(bot)
    ensures body.Some? && !IsBlank(body.value.message.GetOr("")) ==>
              var message := Strip(body.value.message.GetOr(""));
              var id := sessionId.GetOr(freshId);
              var history := old(bot.History(id));
              && newSessionId == Some(id)
              && ((apiKey.None? || apiKey.value == "") ==>
                    && r == Success(ChatReply(MissingKeyError, now))
                    && sent.None?
                    && bot.conversations == old(bot.conversations))
              && (apiKey.Some? && apiKey.value != "" ==>
                    && sent == Some([Message(System, SystemContent(RealTimeContext(dateTime, longDate, clock)))]
                                    + history + [Message(User, message)])
                    && (outcome.Replied? ==>
                          && r == Success(ChatReply(outcome.content, now))
                          && bot.conversations == old(bot.conversations)[id := Exchanged(history, message, outcome.content)])
                    && (!outcome.Replied? ==>
                          && r == Success(ChatReply(FailureText(outcome), now))
                          && bot.conversations == old(bot.conversations)[id := history]))
  {
    if body.None? {
      return Failure(HttpError(500, "'NoneType' object has no attribute 'get'")), sessionId, None;
    }
    var message := Strip(body.value.message.GetOr(""));
    StripEmptyIffBlank(body.value.message.GetOr(""));
    if message == "" {
      return Failure(EmptyMessage), sessionId, None;
    }
    var id := sessionId.GetOr(freshId);
    newSessionId := Some(id);
    var response;
    response, sent := bot.GetAiResponse(message, id, apiKey, dateTime, longDate, clock, outcome);
    r := Success(ChatReply(response, now));
  }
}
