/**
 * The `/api/chat` route of the Flask server: validate the body, build the
 * request from the conversation's history, and on a reply store the new
 * exchange. The model service is outside the model: `reply` is what it
 * answered for the request built here (`None` when the call failed or the
 * answer carried no `choices`).
 */
module FlaskChatbot {
  import opened Common
  import opened Text
  import opened ChatMessages
  import opened ConversationStore

  const DefaultModel := "mistralai/mistral-7b-instruct"

  /** The JSON body's keys; an absent key is `None`. */
  datatype ChatRequest = ChatRequest(
    message: Option<string>,
    model: Option<string>,
    conversationId: Option<string>,
    systemPrompt: Option<string>)

  datatype ChatResponse = ChatResponse(
    response: string,
    conversationId: string,
    model: string,
    timestamp: string,
    tokensUsed: int)

  const MessageRequired := HttpError(400, "Message is required")
  const MessageEmpty := HttpError(400, "Message cannot be empty")
  const NoReply := HttpError(500, "Failed to get AI response")

  /** The body carries a message that is not only white space. */
  predicate Accepted(body: Option<ChatRequest>) {
    body.Some? && body.value.message.Some? && !IsBlank(body.value.message.value)
  }

  /**
   * `chat`. `body` is the parsed JSON body (`None` when there is none),
   * `freshId` the id generated for a body without `conversation_id`, and
   * `now` the clock reading. `sent` is the request passed to the model.
   */
  method Chat(store: Store, body: Option<ChatRequest>, freshId: string, reply: Option<AiReply>, now: string)
    returns (r: Result<ChatResponse, HttpError>, sent: Option<seq<Message>>)
    requires store.Valid()
    modifies store
    ensures store.Valid()
    ensures body.None? || body.value.message.None? ==>
              r == Failure(MessageRequired) && sent.None? && unchanged(store)
    ensures body.Some? && body.value.message.Some? && IsBlank(body.value.message.value) ==>
              r == Failure(MessageEmpty) && sent.None? && unchanged(store)
    ensures Accepted(body) ==>
              var request := body.value;
              var message := request.message.value;
              var id := request.conversationId.GetOr(freshId);
              var model := request.model.GetOr(DefaultModel);
              && sent == Some(Conversation(SystemText(request.systemPrompt), old(store.History(id)), message))
              && (reply.None? ==> r == Failure(NoReply) && unchanged(store))
              && (reply.Some? ==>
                    var entry := ChatEntry(message, reply.value.content, now, model, TokensUsed(reply.value), None);
                    && r == Success(ChatResponse(reply.value.content, id, model, now, TokensUsed(reply.value)))
                    && store.conversations == old(store.conversations)[id := old(store.History(id)) + [entry]]
                    && store.ids == if id in old(store.conversations) then old(store.ids) else old(store.ids) + [id])
  {
    if body.None? || body.value.message.None? {
      return Failure(MessageRequired), None;
    }
    var message := body.value.message.value;
    var model := body.value.model.GetOr(DefaultModel);
    var id := body.value.conversationId.GetOr(freshId);
    StripEmptyIffBlank(message);
    if Strip(message) == "" {
      return Failure(MessageEmpty), None;
    }
    var messages := store.PrepareMessages(message, id, body.value.systemPrompt);
    sent := Some(messages);
    if reply.None? {
      return Failure(NoReply), sent;
    }
    var tokens := TokensUsed(reply.value);
    store.Append(id, ChatEntry(message, reply.value.content, now, model, tokens, None));
    r := Success(ChatResponse(reply.value.content, id, model, now, tokens));
  }
}
