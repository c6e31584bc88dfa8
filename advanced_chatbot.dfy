/**
 * The Streamlit chatbot's session state and its send path: a capped
 * history of exchanges, a running token total, and real-time data folded
 * into both the request and the stored reply. Widget values (the text box,
 * the buttons, the model picker, the real-time checkbox), the API key read
 * from the secrets file, the model service's reply and the clock are
 * parameters.
 */
module AdvancedChatbot {
  import opened Common
  import opened Text
  import opened ChatMessages
  import opened RealtimeData

  const MaxHistory := 50

  const DefaultSystemPrompt :=
    "You are a helpful AI assistant. You are knowledgeable, friendly, and provide accurate information. \n    Always be concise but comprehensive in your responses."

  /** The data provider answers every request with a payload of that request's kind, or an error. */
  ghost predicate WellTyped(fetch: Request -> Payload) {
    forall q :: Fits(KindOf(q), fetch(q))
  }

  /** `history[-50:]` when the history has grown past its bound. */
  function CapHistory(history: seq<ChatEntry>): (r: seq<ChatEntry>)
    ensures |r| == Min(MaxHistory, |history|)
    ensures r == history[|history| - |r|..]
  {
    if |history| > MaxHistory then history[|history| - MaxHistory..] else history
  }

  /** After an append and the cap, the new entry is the last one kept and the bound holds. */
  lemma NewestEntryKept(history: seq<ChatEntry>, entry: ChatEntry)
    ensures var r := CapHistory(history + [entry]);
            0 < |r| <= MaxHistory && r[|r| - 1] == entry
  {
  }

  /** What the real-time step produced: nothing when the feature is off. */
  function RealtimeResultFor(userInput: string, enabled: bool, fetch: Request -> Payload): Option<RealtimeResult> {
    if enabled then Answer(userInput, fetch) else None
  }

  /** The formatted real-time block; empty when there is no result. */
  function RealtimeInfo(userInput: string, enabled: bool, fetch: Request -> Payload): string
    requires WellTyped(fetch)
  {
    FormatRealtimeData(RealtimeResultFor(userInput, enabled, fetch))
  }

  /** Real-time text appears exactly when the feature is on and the message asks for live data. */
  lemma RealtimeInfoPresence(userInput: string, enabled: bool, fetch: Request -> Payload)
    requires WellTyped(fetch)
    ensures RealtimeInfo(userInput, enabled, fetch) != "" <==> enabled && Classify(userInput).Some?
  {
  }

  function ContextMessage(info: string, userInput: string): string {
    "Current real-time information: " + info + "\n\nUser question: " + userInput
  }

  /**
   * With real-time text, the last message (the user's input) is replaced by
   * one that carries the text and then the question; nothing else moves.
   */
  function WithRealtimeContext(messages: seq<Message>, info: string, userInput: string): (r: seq<Message>)
    requires |messages| > 0
    ensures |r| == |messages|
    ensures r[..|r| - 1] == messages[..|messages| - 1]
    ensures info == "" ==> r == messages
    ensures info != "" ==> r[|r| - 1] == Message(User, ContextMessage(info, userInput))
  {
    if info == "" then messages else messages[|messages| - 1 := Message(User, ContextMessage(info, userInput))]
  }

  /** The request sent for `userInput`. */
  function Outgoing(system: string, history: seq<ChatEntry>, userInput: string, info: string): seq<Message> {
    WithRealtimeContext(Conversation(system, history, userInput), info, userInput)
  }

  /** The stored reply: the real-time block, a blank line, then the model's text. */
  function StoredReply(info: string, content: string): string {
    if info != "" then info + "\n\n" + content else content
  }

  /** A send goes ahead only when the button was pressed on non-blank input with an API key at hand. */
  predicate Submitted(sendPressed: bool, userInput: string, apiKey: string) {
    sendPressed && !IsBlank(userInput) && apiKey != ""
  }

  /**
   * The request-building half of the send path: the real-time lookup (when
   * enabled), the message list, and the context message in place of the
   * last one when there is real-time text.
   */
  method BuildRequest(userInput: string, realtimeEnabled: bool, fetch: Request -> Payload,
                      history: seq<ChatEntry>, system: string)
    returns (messages: seq<Message>, info: string, result: Option<RealtimeResult>)
    requires WellTyped(fetch)
    ensures result == RealtimeResultFor(userInput, realtimeEnabled, fetch)
    ensures info == RealtimeInfo(userInput, realtimeEnabled, fetch)
    ensures info != "" <==> result.Some?
    ensures messages == Outgoing(system, history, userInput, info)
  {
    result := None;
    if realtimeEnabled {
      result := ProcessRealtimeQuery(userInput, fetch);
    }
    messages := ChatMessages.PrepareMessages(userInput, history, system);
    info := "";
    if result.Some? {
      info := FormatRealtimeData(result);
      if info != "" {
        messages := messages[|messages| - 1 := Message(User, ContextMessage(info, userInput))];
      }
    }
  }

  /** The Streamlit session state; a key not yet set is `None`. */
  class SessionState {
    var chatHistory: Option<seq<ChatEntry>>
    var conversationId: Option<string>
    var totalTokens: Option<int>
    var systemPrompt: Option<string>
    /** Whether a `RealTimeDataProvider` has been stored; its behaviour is the `fetch` argument. */
    var hasRealtimeProvider: bool

    ghost predicate Initialized()
      reads this
    {
      chatHistory.Some? && conversationId.Some? && totalTokens.Some? && systemPrompt.Some? && hasRealtimeProvider
    }

    ghost predicate Valid()
      reads this
    {
      chatHistory.Some? ==> |chatHistory.value| <= MaxHistory
    }

    /** A new browser session: no key set. */
    constructor ()
      ensures Valid() && !Initialized()
      ensures chatHistory.None? && conversationId.None? && totalTokens.None? && systemPrompt.None?
      ensures !hasRealtimeProvider
    {
      chatHistory := None;
      conversationId := None;
      totalTokens := None;
      systemPrompt := None;
      hasRealtimeProvider := false;
    }

    /** `init_session_state`: sets each missing key to its default and keeps every key already set. */
    method InitSessionState(freshId: string)
      requires Valid()
      modifies this
      ensures Valid() && Initialized()
      ensures chatHistory == if old(chatHistory).Some? then old(chatHistory) else Some([])
      ensures conversationId == if old(conversationId).Some? then old(conversationId) else Some(freshId)
      ensures totalTokens == if old(totalTokens).Some? then old(totalTokens) else Some(0)
      ensures systemPrompt == if old(systemPrompt).Some? then old(systemPrompt) else Some(DefaultSystemPrompt)
      ensures old(Initialized()) ==> unchanged(this)
    {
      if chatHistory.None? {
        chatHistory := Some([]);
      }
      if conversationId.None? {
        conversationId := Some(freshId);
      }
      if totalTokens.None? {
        totalTokens := Some(0);
      }
      if systemPrompt.None? {
        systemPrompt := Some(DefaultSystemPrompt);
      }
      if !hasRealtimeProvider {
        hasRealtimeProvider := true;
      }
    }

    /** The "Clear Chat History" and "New Conversation" buttons: an empty history under a new id. */
    method ResetConversation(freshId: string)
      requires Valid() && Initialized()
      modifies this
      ensures Valid() && Initialized()
      ensures chatHistory == Some([]) && conversationId == Some(freshId)
      ensures totalTokens == old(totalTokens) && systemPrompt == old(systemPrompt)
    {
      chatHistory := Some([]);
      conversationId := Some(freshId);
    }

    /** The "Update System Prompt" button: the edited prompt replaces the stored one. */
    method UpdateSystemPrompt(prompt: string)
      requires Valid() && Initialized()
      modifies this
      ensures Valid() && Initialized()
      ensures systemPrompt == Some(prompt)
      ensures chatHistory == old(chatHistory) && conversationId == old(conversationId)
      ensures totalTokens == old(totalTokens)
    {
      systemPrompt := Some(prompt);
    }

    /**
     * The send path. `reply` is the model service's answer to `sent`
     * (`None` when the call failed or carried no `choices`); `now` is the
     * formatted clock reading.
     */
    method SendMessage(userInput: string, sendPressed: bool, apiKey: string, realtimeEnabled: bool,
                       fetch: Request -> Payload, selectedModel: string, reply: Option<AiReply>, now: string)
      returns (sent: Option<seq<Message>>)
      requires Valid() && Initialized() && WellTyped(fetch)
      modifies this
      ensures Valid() && Initialized()
      ensures conversationId == old(conversationId) && systemPrompt == old(systemPrompt)
      ensures !Submitted(sendPressed, userInput, apiKey) ==>
                sent.None? && chatHistory == old(chatHistory) && totalTokens == old(totalTokens)
      ensures Submitted(sendPressed, userInput, apiKey) ==>
                var info := RealtimeInfo(userInput, realtimeEnabled, fetch);
                && sent == Some(Outgoing(old(systemPrompt.value), old(chatHistory.value), userInput, info))
                && (reply.None? ==> chatHistory == old(chatHistory) && totalTokens == old(totalTokens))
                && (reply.Some? ==>
                      var entry := ChatEntry(userInput, StoredReply(info, reply.value.content), now, selectedModel,
                                             TokensUsed(reply.value),
                                             Some(RealtimeResultFor(userInput, realtimeEnabled, fetch).Some?));
                      && chatHistory == Some(CapHistory(old(chatHistory.value) + [entry]))
                      && totalTokens == Some(old(totalTokens.value) + TokensUsed(reply.value)))
    {
      StripEmptyIffBlank(userInput);
      if !sendPressed || Strip(userInput) == "" {
        return None;
      }
      if apiKey == "" {
        return None;
      }
      var messages := Deliver(userInput, realtimeEnabled, fetch, selectedModel, reply, now);
      sent := Some(messages);
    }

    /**
     * The body of the send path once the guards have passed: build the
     * request, and on a reply store the exchange and count its tokens.
     */
    method Deliver(userInput: string, realtimeEnabled: bool, fetch: Request -> Payload,
                   selectedModel: string, reply: Option<AiReply>, now: string)
      returns (sent: seq<Message>)
      requires Valid() && Initialized() && WellTyped(fetch)
      modifies this
      ensures Valid() && Initialized()
      ensures conversationId == old(conversationId) && systemPrompt == old(systemPrompt)
      ensures var info := RealtimeInfo(userInput, realtimeEnabled, fetch);
              && sent == Outgoing(old(systemPrompt.value), old(chatHistory.value), userInput, info)
              && (reply.None? ==> chatHistory == old(chatHistory) && totalTokens == old(totalTokens))
              && (reply.Some? ==>
                    var entry := ChatEntry(userInput, StoredReply(info, reply.value.content), now, selectedModel,
                                           TokensUsed(reply.value),
                                           Some(RealtimeResultFor(userInput, realtimeEnabled, fetch).Some?));
                    && chatHistory == Some(CapHistory(old(chatHistory.value) + [entry]))
                    && totalTokens == Some(old(totalTokens.value) + TokensUsed(reply.value)))
    {
      var info, result;
      sent, info, result := BuildRequest(userInput, realtimeEnabled, fetch, chatHistory.value, systemPrompt.value);
      if reply.None? {
        return;
      }
      var entry := ChatEntry(userInput, StoredReply(info, reply.value.content), now, selectedModel,
                             TokensUsed(reply.value), Some(result.Some?));
      RecordEntry(entry);
    }

    /** Stores one exchange: appended to the history, which is capped, and its tokens added to the total. */
    method RecordEntry(entry: ChatEntry)
      requires Valid() && Initialized()
      modifies this
      ensures Valid() && Initialized()
      ensures conversationId == old(conversationId) && systemPrompt == old(systemPrompt)
      ensures chatHistory == Some(CapHistory(old(chatHistory.value) + [entry]))
      ensures totalTokens == Some(old(totalTokens.value) + entry.tokens)
    {
      chatHistory := Some(CapHistory(chatHistory.value + [entry]));
      totalTokens := Some(totalTokens.value + entry.tokens);
    }
  }
}
