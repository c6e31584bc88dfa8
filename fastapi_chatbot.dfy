/**
 * The `/chat` route of the FastAPI server. The conversation store, its
 * read/delete/list routes and the health count are those of
 * `ConversationStore`, which the FastAPI code repeats line for line.
 */
module FastApiChatbot {
  import opened Common
  import opened ChatMessages
  import opened ConversationStore

  const DefaultModel := "mistralai/mistral-7b-instruct"

  /** The validated request body; `model` already holds its default when the client left it out. */
  datatype ChatMessage = ChatMessage(
    message: string,
    model: string,
    conversationId: Option<string>,
    systemPrompt: Option<string>)

  /** The `ChatMessage` body model: an omitted `model` takes the default. */
  function NewChatMessage(message: string, model: Option<string>, conversationId: Option<string>,
                          systemPrompt: Option<string>): (m: ChatMessage)
    ensures m.message == message && m.conversationId == conversationId && m.systemPrompt == systemPrompt
    ensures model.None? ==> m.model == DefaultModel
    ensures model.Some? ==> m.model == model.value
  {
    ChatMessage(message, model.GetOr(DefaultModel), conversationId, systemPrompt)
  }

  datatype ChatResponse = ChatResponse(
    response: string,
    conversationId: string,
    model: string,
    timestamp: string,
    tokensUsed: int)

  /**
   * The 500 raised for a missing reply is caught by the route's own
   * catch-all and raised again with the exception's text as its detail,
   * which renders the status code in front of the message.
   */
  const NoReply := HttpError(500, "500: Failed to get AI response")

  /** `message.conversation_id or str(uuid.uuid4())`: an absent or empty id is replaced. */
  function ConversationIdOf(request: ChatMessage, freshId: string): (id: string)
    ensures request.conversationId.Some? && request.conversationId.value != "" ==> id == request.conversationId.value
    ensures request.conversationId.None? || request.conversationId.value == "" ==> id == freshId
  {
    if request.conversationId.Some? && request.conversationId.value != "" then request.conversationId.value
    else freshId
  }

  /**
   * `chat`. There is no check for a blank message here: any string is sent.
   * `reply` is the model service's answer to `sent`, `None` on failure.
   */
  method Chat(store: Store, request: ChatMessage, freshId: string, reply: Option<AiReply>, now: string)
    returns (r: Result<ChatResponse, HttpError>, sent: seq<Message>)
    requires store.Valid()
    modifies store
    ensures store.Valid()
    ensures var id := ConversationIdOf(request, freshId);
            && sent == Conversation(SystemText(request.systemPrompt), old(store.History(id)), request.message)
            && (reply.None? ==> r == Failure(NoReply) && unchanged(store))
            && (reply.Some? ==>
                  var entry := ChatEntry(request.message, reply.value.content, now, request.model,
                                         TokensUsed(reply.value), None);
                  && r == Success(ChatResponse(reply.value.content, id, request.model, now, TokensUsed(reply.value)))
                  && store.conversations == old(store.conversations)[id := old(store.History(id)) + [entry]]
                  && store.ids == if id in old(store.conversations) then old(store.ids) else old(store.ids) + [id])
  {
    var id := ConversationIdOf(request, freshId);
    sent := store.PrepareMessages(request.message, id, request.systemPrompt);
    if reply.None? {
      return Failure(NoReply), sent;
    }
    var tokens := TokensUsed(reply.value);
    store.Append(id, ChatEntry(request.message, reply.value.content, now, request.model, tokens, None));
    r := Success(ChatResponse(reply.value.content, id, request.model, now, tokens));
  }
}
