/**
 * The in-memory `conversations` dictionary of the Flask and FastAPI
 * servers, which both own one and update it with the same code: an
 * exchange list per conversation id, keys kept in insertion order as a
 * Python dict keeps them.
 */
module ConversationStore {
  import opened Common
  import opened ChatMessages

  const DefaultSystemPrompt := "You are a helpful AI assistant. Be concise and accurate."

  /** The system prompt used: the supplied one when it is truthy, else the default. */
  function SystemText(systemPrompt: Option<string>): (text: string)
    ensures systemPrompt.Some? && systemPrompt.value != "" ==> text == systemPrompt.value
    ensures systemPrompt.None? || systemPrompt.value == "" ==> text == DefaultSystemPrompt
  {
    if systemPrompt.Some? && systemPrompt.value != "" then systemPrompt.value else DefaultSystemPrompt
  }

  predicate Distinct(ids: seq<string>) {
    forall i, j :: 0 <= i < j < |ids| ==> ids[i] != ids[j]
  }

  /** `ids` with `id` taken out, the others keeping their order. */
  function Without(ids: seq<string>, id: string): (r: seq<string>)
    decreases |ids|
    ensures forall x :: x in r <==> x in ids && x != id
    ensures Distinct(ids) ==> Distinct(r)
    ensures id !in ids ==> r == ids
  {
    if ids == [] then []
    else if ids[0] == id then Without(ids[1..], id)
    else
      var rest := Without(ids[1..], id);
      assert Distinct(ids) ==> ids[0] !in ids[1..];
      [ids[0]] + rest
  }

  /** Taking out a key that sits at position `k` of a duplicate-free list leaves the others in their order. */
  lemma {:induction false} WithoutKeepsOrder(ids: seq<string>, id: string, k: nat)
    requires Distinct(ids) && k < |ids| && ids[k] == id
    decreases k
    ensures Without(ids, id) == ids[..k] + ids[k + 1..]
  {
    if k == 0 {
      assert id !in ids[1..] by {
        forall j | 0 <= j < |ids[1..]| ensures ids[1..][j] != id {
          assert ids[1..][j] == ids[j + 1];
        }
      }
      assert ids[1..] == ids[k + 1..];
    } else {
      assert ids[0] != id;
      assert Distinct(ids[1..]) by {
        forall i, j | 0 <= i < j < |ids[1..]| ensures ids[1..][i] != ids[1..][j] {
          assert ids[1..][i] == ids[i + 1] && ids[1..][j] == ids[j + 1];
        }
      }
      WithoutKeepsOrder(ids[1..], id, k - 1);
      assert ids[..k] == [ids[0]] + ids[1..][..k - 1];
      assert ids[k + 1..] == ids[1..][k..];
    }
  }

  /** A duplicate-free list has as many elements as the set of its elements. */
  lemma {:induction false} DistinctCardinality(ids: seq<string>, keys: set<string>)
    requires Distinct(ids)
    requires forall x :: x in keys <==> x in ids
    decreases |ids|
    ensures |keys| == |ids|
  {
    if ids != [] {
      var rest := keys - {ids[0]};
      forall x ensures x in rest <==> x in ids[1..] {
        if x in ids[1..] {
          var j :| 0 <= j < |ids[1..]| && ids[1..][j] == x;
          assert ids[j + 1] == x;
        }
      }
      DistinctCardinality(ids[1..], rest);
    }
  }

  /** The body of a successful `GET /conversations/<id>`. */
  datatype ConversationView = ConversationView(conversationId: string, messages: seq<ChatEntry>, totalMessages: nat)

  /** One item of the conversation listing. */
  datatype ConversationSummary = ConversationSummary(id: string, messageCount: nat, lastUpdated: Option<string>)

  /** `messages[-1]["timestamp"] if messages else None`. */
  function LastUpdated(entries: seq<ChatEntry>): Option<string> {
    if entries == [] then None else Some(entries[|entries| - 1].timestamp)
  }

  const NotFound := HttpError(404, "Conversation not found")

  class Store {
    /** The keys of `conversations`, oldest first. */
    var ids: seq<string>
    var conversations: map<string, seq<ChatEntry>>

    ghost predicate Valid()
      reads this
    {
      && Distinct(ids)
      && (forall id :: id in conversations <==> id in ids)
    }

    constructor ()
      ensures Valid() && ids == [] && conversations == map[]
    {
      ids := [];
      conversations := map[];
    }

    /** The stored exchanges of `id`; none for an unknown id. */
    function History(id: string): seq<ChatEntry>
      reads this
    {
      if id in conversations then conversations[id] else []
    }

    /**
     * `prepare_messages`: the request for `userInput` in conversation
     * `conversationId`; an unknown id contributes no history.
     */
    method PrepareMessages(userInput: string, conversationId: string, systemPrompt: Option<string>)
      returns (messages: seq<Message>)
      ensures messages == Conversation(SystemText(systemPrompt), History(conversationId), userInput)
      ensures conversationId !in conversations ==>
                messages == [Message(System, SystemText(systemPrompt)), Message(User, userInput)]
    {
      messages := ChatMessages.PrepareMessages(userInput, History(conversationId), SystemText(systemPrompt));
    }

    /**
     * The store step of a successful chat: one entry appended to `id`'s list,
     * which is created empty first when absent; every other id is untouched.
     */
    method Append(id: string, entry: ChatEntry)
      requires Valid()
      modifies this
      ensures Valid()
      ensures conversations == old(conversations)[id := old(History(id)) + [entry]]
      ensures ids == if id in old(conversations) then old(ids) else old(ids) + [id]
    {
      if id !in conversations {
        conversations := conversations[id := []];
        ids := ids + [id];
      }
      conversations := conversations[id := conversations[id] + [entry]];
    }

    /** `get_conversation`: the stored list, or 404 for an unknown id. */
    method GetConversation(id: string) returns (r: Result<ConversationView, HttpError>)
      ensures id in conversations ==> r == Success(ConversationView(id, conversations[id], |conversations[id]|))
      ensures id !in conversations ==> r == Failure(NotFound)
    {
      if id !in conversations {
        return Failure(NotFound);
      }
      r := Success(ConversationView(id, conversations[id], |conversations[id]|));
    }

    /** `delete_conversation`: 404 and no change for an unknown id, else only that id is removed. */
    method DeleteConversation(id: string) returns (r: Result<string, HttpError>)
      requires Valid()
      modifies this
      ensures Valid()
      ensures id !in old(conversations) ==>
                r == Failure(NotFound) && conversations == old(conversations) && ids == old(ids)
      ensures id in old(conversations) ==>
                && r == Success("Conversation deleted successfully")
                && conversations == old(conversations) - {id}
                && ids == Without(old(ids), id)
    {
      if id !in conversations {
        return Failure(NotFound);
      }
      conversations := conversations - {id};
      ids := Without(ids, id);
      r := Success("Conversation deleted successfully");
    }

    /** `list_conversations`: one summary per id, in insertion order. */
    method ListConversations() returns (items: seq<ConversationSummary>)
      requires Valid()
      ensures |items| == |ids|
      ensures forall k :: 0 <= k < |items| ==>
                && items[k].id == ids[k]
                && items[k].messageCount == |conversations[ids[k]]|
                && items[k].lastUpdated == LastUpdated(conversations[ids[k]])
    {
      items := [];
      for k := 0 to |ids|
        invariant |items| == k
        invariant forall j :: 0 <= j < k ==>
                    items[j] == ConversationSummary(ids[j], |conversations[ids[j]]|, LastUpdated(conversations[ids[j]]))
      {
        var messages := conversations[ids[k]];
        items := items + [ConversationSummary(ids[k], |messages|, LastUpdated(messages))];
      }
    }

    /** `active_conversations` of the health check: the number of stored conversations. */
    function ActiveConversations(): (n: nat)
      reads this
      requires Valid()
      ensures n == |conversations|
    {
      DistinctCardinality(ids, conversations.Keys);
      |ids|
    }
  }

  datatype Health = Health(status: string, timestamp: string, activeConversations: nat)

  /** `health_check`: `active_conversations` is the number of stored conversations. */
  method HealthCheck(store: Store, now: string) returns (h: Health)
    requires store.Valid()
    ensures h == Health("healthy", now, |store.conversations|)
  {
    h := Health("healthy", now, store.ActiveConversations());
  }
}
