/**
 * The message list sent to the model: a system message, the most recent
 * stored exchanges expanded into user/assistant pairs, then the new input.
 * The Flask, FastAPI and Streamlit front ends each compute this same
 * window: the first two look the history up by conversation id and slice it
 * unconditionally, the third slices the list it is given under a length
 * guard.
 */
module ChatMessages {
  import opened Common

  datatype Role = System | User | Assistant

  datatype Message = Message(role: Role, content: string)

  /**
   * One stored exchange. `realtimeData` is absent in the Flask and FastAPI
   * stores and present in the Streamlit history.
   */
  datatype ChatEntry = ChatEntry(
    user: string,
    assistant: string,
    timestamp: string,
    model: string,
    tokens: int,
    realtimeData: Option<bool>)

  /** A model reply that carries `choices`: its first content and its `usage.total_tokens`, if any. */
  datatype AiReply = AiReply(content: string, totalTokens: Option<int>)

  /** `response.get('usage', {}).get('total_tokens', 0)`. */
  function TokensUsed(reply: AiReply): int {
    reply.totalTokens.GetOr(0)
  }

  /** How many stored exchanges go into a request. */
  const HistoryWindow := 20

  /** `history[-20:]`: the most recent exchanges, oldest first. */
  function Recent(history: seq<ChatEntry>): (r: seq<ChatEntry>)
    ensures |r| == Min(HistoryWindow, |history|)
    ensures r == history[|history| - |r|..]
  {
    if |history| > HistoryWindow then history[|history| - HistoryWindow..] else history
  }

  /** Each entry as a user message followed by an assistant message. */
  function Exchanges(entries: seq<ChatEntry>): seq<Message>
    decreases |entries|
  {
    if entries == [] then []
    else [Message(User, entries[0].user), Message(Assistant, entries[0].assistant)] + Exchanges(entries[1..])
  }

  lemma {:induction false} ExchangesAppend(entries: seq<ChatEntry>, entry: ChatEntry)
    decreases |entries|
    ensures Exchanges(entries + [entry]) ==
            Exchanges(entries) + [Message(User, entry.user), Message(Assistant, entry.assistant)]
  {
    if entries == [] {
      assert entries + [entry] == [entry];
    } else {
      assert (entries + [entry])[1..] == entries[1..] + [entry];
      ExchangesAppend(entries[1..], entry);
    }
  }

  /** Entry `k` becomes messages `2k` (its user text) and `2k + 1` (its reply). */
  lemma {:induction false} ExchangesAt(entries: seq<ChatEntry>)
    decreases |entries|
    ensures |Exchanges(entries)| == 2 * |entries|
    ensures forall k :: 0 <= k < |entries| ==>
              Exchanges(entries)[2 * k] == Message(User, entries[k].user) &&
              Exchanges(entries)[2 * k + 1] == Message(Assistant, entries[k].assistant)
  {
    if entries != [] {
      ExchangesAt(entries[1..]);
      var rest := Exchanges(entries[1..]);
      forall k | 1 <= k < |entries|
        ensures Exchanges(entries)[2 * k] == Message(User, entries[k].user)
        ensures Exchanges(entries)[2 * k + 1] == Message(Assistant, entries[k].assistant)
      {
        assert Exchanges(entries)[2 * k] == rest[2 * (k - 1)];
        assert Exchanges(entries)[2 * k + 1] == rest[2 * (k - 1) + 1];
      }
    }
  }

  /** The request for `userInput` after `history`, under the system prompt `system`. */
  function Conversation(system: string, history: seq<ChatEntry>, userInput: string): seq<Message> {
    [Message(System, system)] + Exchanges(Recent(history)) + [Message(User, userInput)]
  }

  /** A message list between a first and a last message: position `i + 1` holds `middle[i]`. */
  lemma Framed(first: Message, middle: seq<Message>, last: Message)
    ensures var c := [first] + middle + [last];
            && |c| == |middle| + 2
            && c[0] == first
            && c[|c| - 1] == last
            && forall i :: 0 <= i < |middle| ==> c[i + 1] == middle[i]
  {
  }

  /**
   * The request starts with the system message, ends with the new input,
   * and in between holds the last min(20, n) entries, in order, each as a
   * user message then an assistant message.
   */
  lemma ConversationShape(system: string, history: seq<ChatEntry>, userInput: string)
    ensures var c := Conversation(system, history, userInput);
            var m := Min(HistoryWindow, |history|);
            && |c| == 2 + 2 * m
            && c[0] == Message(System, system)
            && c[|c| - 1] == Message(User, userInput)
            && (forall k :: 0 <= k < m ==>
                  c[1 + 2 * k] == Message(User, history[|history| - m + k].user) &&
                  c[2 + 2 * k] == Message(Assistant, history[|history| - m + k].assistant))
  {
    var recent := Recent(history);
    var e := Exchanges(recent);
    ExchangesAt(recent);
    var c := Conversation(system, history, userInput);
    var m := Min(HistoryWindow, |history|);
    Framed(Message(System, system), e, Message(User, userInput));
    forall k | 0 <= k < m
      ensures c[1 + 2 * k] == Message(User, history[|history| - m + k].user)
      ensures c[2 + 2 * k] == Message(Assistant, history[|history| - m + k].assistant)
    {
      assert c[1 + 2 * k] == e[2 * k];
      assert c[2 + 2 * k] == e[2 * k + 1];
      assert recent[k] == history[|history| - m + k];
    }
  }

  /** `prepare_messages`: builds the request with an append loop. */
  method PrepareMessages(userInput: string, chatHistory: seq<ChatEntry>, systemPrompt: string)
    returns (messages: seq<Message>)
    ensures messages == Conversation(systemPrompt, chatHistory, userInput)
  {
    messages := [Message(System, systemPrompt)];
    var recent := Recent(chatHistory);
    for i := 0 to |recent|
      invariant messages == [Message(System, systemPrompt)] + Exchanges(recent[..i])
    {
      ExchangesAppend(recent[..i], recent[i]);
      assert recent[..i + 1] == recent[..i] + [recent[i]];
      messages := messages + [Message(User, recent[i].user)];
      messages := messages + [Message(Assistant, recent[i].assistant)];
    }
    assert recent[..|recent|] == recent;
    messages := messages + [Message(User, userInput)];
  }
}
