# AI-Chatbot, modelled in Dafny

This project models the core of the AI-Chatbot repository: a set of chat
front ends for an OpenRouter-hosted language model. It covers four parts.

- **Training-data classes** (`TrainingSystem`). `TrainingExample` fills in
  defaults for its category, source and creation time. `Document` is a plain
  record of content and title. `TrainingDataManager` is an append-only
  example list. The retrieval, preparation and import classes are stand-ins:
  they return the whole store, their input, or nothing.
- **Real-time query handling** (`RealtimeData`, with the Python string
  operations it needs in `Text`).
  - Each chat message is classified by keyword, in a fixed priority: time,
    weather, stock, news, Wikipedia, exchange rate.
  - The lookup's argument is extracted from the message: time zone, city,
    ticker, news category, or Wikipedia query.
  - The lookup's answer is rendered as chat text.
  - The lookups themselves are an opaque function from request to payload.
- **Chat history.**
  - The message window sent to the model (`ChatMessages`) is shared by three
    front ends.
  - The conversation dictionary of the Flask and FastAPI servers is
    `ConversationStore`, with their chat routes in `FlaskChatbot` and
    `FastApiChatbot`.
  - The Streamlit session state and its send path are `AdvancedChatbot`.
  - The Heroku app's alternating, truncated message history is `AppChatbot`.
- **The model service.** Every call to the model service is a parameter: an
  optional reply, or an outcome. Clock readings and generated UUIDs are
  string parameters. The API key is a parameter.

The repository's tests expect more of the training classes than
`training_system.py` defines. `test_training_system.py:43-46` builds the
manager on a database path, lines 85-107 look for SQLite tables, and lines
245-265 call CSV and JSONL export. None of that is in `training_system.py`,
which holds only the stubs modelled here; this model follows the code.

Some comments disagree with the code; the model follows the code.
- The Flask, FastAPI and Streamlit code says it sends the "last 10
  exchanges". The code keeps the last 20 entries, which is 20 exchanges.
- The comment at `app.py:86` speaks of keeping the last exchanges. Both
  `config.py:9` and the code count `MAX_CONVERSATION_HISTORY` in messages.

## Model

| member | source | states |
|---|---|---|
| TrainingSystem.NewTrainingExample | training_system.py:3-9 | An omitted category becomes "general" and an omitted source "manual". A truthy `created_at` is kept; otherwise the clock's timestamp is used, so the creation time is never empty. |
| TrainingSystem.ConstructorDefaults | test_training_system.py:56-68 | The example built with only a category keeps it, and takes source "manual" and the clock's timestamp. |
| TrainingSystem.CustomValuesKept | training_system.py:4-9 | An example built with category, source and `created_at` all supplied keeps each of them. |
| TrainingSystem.NewDocument | training_system.py:11-14 | A document keeps the content and the title it is built with. |
| TrainingSystem.TrainingDataManager.constructor | training_system.py:17-18 | A new manager holds no examples and has had no additions. |
| TrainingSystem.TrainingDataManager.AddExample | training_system.py:19-20 | The example is appended at the end; earlier examples keep their values and order; the addition count grows by one. |
| TrainingSystem.TrainingDataManager.GetExamples | training_system.py:21-22 | Returns every added example in insertion order; its length equals the number of additions since construction. |
| TrainingSystem.SimpleRAGSystem.constructor | training_system.py:25-26 | The retriever keeps the manager it is given. |
| TrainingSystem.SimpleRAGSystem.Retrieve | training_system.py:27-29 | Returns exactly the manager's example list. |
| TrainingSystem.RetrieveIgnoresQuery | training_system.py:27-29 | Any two queries retrieve the same result. |
| TrainingSystem.Prepare | training_system.py:34-36 | Preparation is the identity. |
| TrainingSystem.ImportData | training_system.py:41-43 | Import yields no examples for every path. |
| Text.Lower | realtime_data.py:188 | Same length; each character is lower-cased. |
| Text.Upper | realtime_data.py:238 | Same length; each character is upper-cased. |
| Text.FindFrom | realtime_data.py:269 | The first occurrence at or after the start position, or -1 exactly when there is none. |
| Text.Find | realtime_data.py:269 | The first occurrence of the substring, or -1 exactly when it never occurs. |
| Text.ContainsFromIffFindFrom | realtime_data.py:268-269 | Containment from a position holds exactly when a search from there finds something. |
| Text.ContainsIffFound | realtime_data.py:268-269 | `phrase in s` holds exactly when `s.find(phrase)` is not -1. |
| Text.WordLength | realtime_data.py:223 | The length of the leading run of non-space characters: every character before it is non-space, and the one after it is space. |
| Text.Split | realtime_data.py:223 | Every word produced by `split()` is non-empty and free of white space. |
| Text.SplitBlank | realtime_data.py:223 | A string of white space only splits into no words. |
| Text.SplitWord | realtime_data.py:223 | A single word splits into exactly itself. |
| Text.SplitAtSpace | realtime_data.py:223 | Splitting at a white-space character gives the words of the left side followed by those of the right. With the two rows above, this makes the words the maximal non-space runs, in order. |
| Text.StripLeft | realtime_data.py:269 | A suffix of the input that starts with a non-space; everything removed is white space. |
| Text.StripRight | realtime_data.py:269 | A prefix of the input that ends with a non-space; everything removed is white space. |
| Text.StripEmptyIffBlank | flask_chatbot.py:121-122 | `s.strip()` is empty exactly when every character of `s` is white space. |
| Text.TitleFrom | realtime_data.py:314 | `title()` keeps the length and leaves non-letters unchanged. A letter that follows a letter is lower-cased; any other letter is upper-cased. |
| Text.DecimalString | realtime_data.py:315-316 | The item number is rendered as decimal digits that read back as the number, with no leading zero. |
| RealtimeData.MappedZonesAreNotLocal | realtime_data.py:193-207 | No mapped time zone equals the default "local", so "local" signals that no location matched. |
| RealtimeData.TimezoneFromIsFirstMatch | realtime_data.py:209-213 | From mapping position i on, the result is the zone of the first location present, or "local" when none is. |
| RealtimeData.TimezoneIsFirstMatch | realtime_data.py:193-213 | The zone is "local" exactly when no mapped location occurs in the lowered message; otherwise it is the zone of the first location in mapping order that occurs. |
| RealtimeData.ExtractTimezone | realtime_data.py:193-213 | The loop with `break` returns exactly the first-match time zone. |
| RealtimeData.CityFromIsFirstMatch | realtime_data.py:225-228 | From word i on, the city is the word after the first in/at/for that has a successor, or "London". |
| RealtimeData.CityIsWordAfterFirstPreposition | realtime_data.py:222-228 | The city is the word, in its original casing, that follows the first case-insensitive in/at/for having a successor; otherwise "London". |
| RealtimeData.ExtractCity | realtime_data.py:222-228 | The loop with `break` returns exactly that city. |
| RealtimeData.SymbolFromIsFirstMatch | realtime_data.py:240-243 | From word i on, the symbol is the first alphabetic word of at most 5 letters, or "AAPL"; the result is always such a word. |
| RealtimeData.SymbolIsFirstShortAlphaWord | realtime_data.py:237-243 | The symbol is the first word of the upper-cased message that is alphabetic with at most 5 letters; otherwise "AAPL". |
| RealtimeData.ExtractSymbol | realtime_data.py:237-243 | The loop with `break` returns exactly that symbol. |
| RealtimeData.NewsCategory | realtime_data.py:252-256 | The category is "tech" exactly when "tech" occurs; "science" exactly when "tech" does not occur and "science" does; otherwise "general". |
| RealtimeData.FirstPhraseFrom | realtime_data.py:267-270 | The index of the phrase chosen lies between the start position and the number of phrases. |
| RealtimeData.FirstPhraseFromIsFirstMatch | realtime_data.py:267-270 | The chosen index is the first phrase present in the lowered message, or the end when none is. |
| RealtimeData.WikipediaQueryIsTextAfterFirstPhrase | realtime_data.py:266-270 | The query is the stripped text after the first occurrence of the first of "what is", "who is", "tell me about" that is present; otherwise the whole message. |
| RealtimeData.ExtractWikipediaQuery | realtime_data.py:266-270 | The loop with `break` returns exactly that query. |
| RealtimeData.FirstKind | realtime_data.py:191-284 | The keyword groups are tried in order: time, weather, stock, news, wikipedia, exchange. There is no kind exactly when no group has a keyword in the lowered message. Otherwise the kind has one, and no earlier group does. |
| RealtimeData.RequestFor | realtime_data.py:191-282 | Each kind's branch builds a request of that same kind, with its argument taken from the message. |
| RealtimeData.Classify | realtime_data.py:188-284 | No request exactly when no kind's keyword occurs. A request's kind has a keyword in the message, and no kind tried before it has one. |
| RealtimeData.TimeKeywordWins | realtime_data.py:190-218 | A message with any time keyword yields a date-time request whatever else it mentions. |
| RealtimeData.ProcessRealtimeQuery | realtime_data.py:185-284 | The dispatch with its extraction loops returns the classified request's kind paired with the provider's answer to it, or nothing. |
| RealtimeData.TruncateSummary | realtime_data.py:105 | A summary of at most 200 characters is unchanged. A longer one becomes its first 200 characters followed by "...". |
| RealtimeData.CollectNews | realtime_data.py:101-108 | Exactly min(limit, entries) items, in feed order. Each item has its summary truncated and "N/A" for a missing publication date. |
| RealtimeData.NewsLinesAppend | realtime_data.py:315-316 | Rendering one more item appends exactly that item's line, numbered after the others. |
| RealtimeData.NewsIgnoresItemsBeyondThird | realtime_data.py:313-317 | News lists that agree on their first three items render identically. |
| RealtimeData.RenderNews | realtime_data.py:313-317 | The `+=` loop yields the header and then the first min(3, n) items, numbered from 1. |
| RealtimeData.FormatRealtimeData | realtime_data.py:287-328 | Empty exactly when there is no result. A payload carrying an error renders as the error line for its type. |
| RealtimeData.SuggestionsBeyondThirdIgnored | realtime_data.py:319-321 | Only the first three disambiguation suggestions affect the rendering. |
| RealtimeData.DisambiguationRendersAsError | realtime_data.py:131-136 | The provider's disambiguation answer carries an error key, so it renders as the error line. |
| ChatMessages.Recent | advanced_chatbot.py:80 | The last min(20, n) entries of the history, in order. |
| ChatMessages.ExchangesAppend | advanced_chatbot.py:81-83 | One more entry adds exactly its user message and then its assistant message. |
| ChatMessages.ExchangesAt | advanced_chatbot.py:81-83 | Entry k becomes message 2k (user text) and message 2k+1 (reply), so the result has twice as many messages. |
| ChatMessages.ConversationShape | advanced_chatbot.py:76-89 | The request has 2 + 2·min(20, n) messages. It starts with the system prompt and ends with the new input. In between come the last min(20, n) entries in order, each as a user message then an assistant message. |
| ChatMessages.PrepareMessages | advanced_chatbot.py:76-89 | The append loop builds exactly that request. |
| ConversationStore.SystemText | flask_chatbot.py:67-73 | The supplied prompt when it is truthy; otherwise the fixed default prompt. |
| ConversationStore.Without | flask_chatbot.py:192 | After the `del`, the ids are the old ones minus the deleted id. A duplicate-free list stays duplicate-free, and deleting an absent id changes nothing. |
| ConversationStore.WithoutKeepsOrder | flask_chatbot.py:160-192 | Deleting the id at position k leaves the ids before and after it in their order, which is the order the listing shows. |
| ConversationStore.DistinctCardinality | flask_chatbot.py:201 | A duplicate-free id list is as long as the set of stored ids. |
| ConversationStore.Store.constructor | flask_chatbot.py:32 | The store starts empty. |
| ConversationStore.Store.PrepareMessages | flask_chatbot.py:63-86 | The request built from the conversation's stored entries under the supplied or default prompt; an unknown id contributes no history, giving just the system message and the input. |
| ConversationStore.Store.Append | flask_chatbot.py:137-146 | Exactly one entry is appended to that id's list, which is created empty first when absent; every other id is untouched, and a new id goes last in listing order. |
| ConversationStore.Store.GetConversation | flask_chatbot.py:174-184 | The stored list with its length, or 404 "Conversation not found" for an unknown id. |
| ConversationStore.Store.DeleteConversation | flask_chatbot.py:186-193 | 404 and no change for an unknown id; otherwise exactly that id is removed. |
| ConversationStore.Store.ListConversations | flask_chatbot.py:160-172 | One item per id in insertion order. Each item's message count is that id's entry count, and its last-updated value is the last entry's timestamp, or nothing for an empty list. |
| ConversationStore.Store.ActiveConversations | flask_chatbot.py:195-202 | Equals the number of stored conversations. |
| ConversationStore.HealthCheck | fastapi_chatbot.py:284-291 | Reports "healthy" and an `active_conversations` count equal to the number of stored conversations. |
| FlaskChatbot.Chat | flask_chatbot.py:107-158 | A missing body or message gives 400 "Message is required". A blank message gives 400 "Message cannot be empty". Both leave the store unchanged and send nothing. A missing reply gives 500 and no change. A reply appends one entry with the default model when none is given. |
| FastApiChatbot.NewChatMessage | fastapi_chatbot.py:19-23 | An omitted model becomes "mistralai/mistral-7b-instruct"; the other fields are kept. |
| FastApiChatbot.ConversationIdOf | fastapi_chatbot.py:140 | An absent or empty conversation id is replaced by a fresh one. |
| FastApiChatbot.Chat | fastapi_chatbot.py:135-176 | Any message is sent, blank ones included. A missing reply gives 500 and no change. A reply appends exactly one entry to that conversation, created if absent. |
| AdvancedChatbot.CapHistory | advanced_chatbot.py:337-341 | The last min(50, n) entries, in order. |
| AdvancedChatbot.NewestEntryKept | advanced_chatbot.py:337-341 | After append and cap, the history has between 1 and 50 entries and ends with the new entry. |
| AdvancedChatbot.RealtimeInfoPresence | advanced_chatbot.py:300-315 | Real-time text is non-empty exactly when the feature is enabled and the message asks for a lookup. |
| AdvancedChatbot.WithRealtimeContext | advanced_chatbot.py:310-315 | Only the final message changes. With real-time text it becomes the context message; without, nothing changes. |
| AdvancedChatbot.BuildRequest | advanced_chatbot.py:300-315 | The result is the lookup when enabled, and the text is non-empty exactly when there is a result. The messages are the window with the context message in place of the last. |
| AdvancedChatbot.SessionState.constructor | advanced_chatbot.py:27-37 | A new session has no keys set. |
| AdvancedChatbot.SessionState.InitSessionState | advanced_chatbot.py:27-37 | Only missing keys are set to their defaults, so a second run changes nothing. |
| AdvancedChatbot.SessionState.ResetConversation | advanced_chatbot.py:236-239 | The history is empty and the id is new. Tokens and prompt are kept. The New Conversation button at 272-275 does the same. |
| AdvancedChatbot.SessionState.UpdateSystemPrompt | advanced_chatbot.py:214-216 | The edited prompt replaces the stored one; nothing else changes. |
| AdvancedChatbot.SessionState.SendMessage | advanced_chatbot.py:294-344 | Nothing is sent or stored unless the button is pressed, the input is non-blank and a key is present. A reply is stored with the real-time text and "\n\n" prefixed exactly when that text is non-empty. The history is capped to its last 50 entries, and tokens grow by the reply's count. |
| AdvancedChatbot.SessionState.Deliver | advanced_chatbot.py:298-344 | Once the guards pass, the request is the window with real-time context. On a reply the entry is appended and capped, and the token total grows by the reply's count. On no reply nothing is stored. |
| AdvancedChatbot.SessionState.RecordEntry | advanced_chatbot.py:337-344 | Storing an exchange appends the entry and caps the history at its last 50 entries. It adds the entry's tokens to the running total and leaves the id and the system prompt alone. |
| AppChatbot.RealTimeContext | app.py:24-29 | The real-time context is three labelled lines joined by newlines: the date and time, the long date, and the clock time. |
| AppChatbot.Truncate | app.py:87-88 | The last min(20, n) messages, in order. |
| AppChatbot.ExchangeKeepsAlternation | app.py:83-88 | Appending a user/reply pair and truncating keeps the history even-length, at most 20, alternating user/assistant from a user message, and ending with the new pair. |
| AppChatbot.RecordExchange | app.py:83-88 | The append-append-truncate steps give exactly that history. |
| AppChatbot.ChatBot.constructor | app.py:21-22 | The bot starts with no conversations. |
| AppChatbot.ChatBot.GetAiResponse | app.py:31-97 | Without a key: the fixed error string, nothing sent and no change. Otherwise the id's history is created if absent, and the request is the system message, the whole stored history and the new message. On a reply the pair is appended and truncated. On an error only the creation remains, and the matching error string is returned. |
| AppChatbot.Chat | app.py:105-127 | A missing body gives a 500 and a blank message gives 400 "Empty message", both with no change. Otherwise the stripped message goes to the session's conversation, or to a fresh id that is stored in the session. The reply is `get_ai_response`'s string: the missing-key text, the model's content, or the error text. The conversation holds the new exchange on success and is unchanged on error. |

## Left out

- The lookups of `RealTimeDataProvider` are left out: clock, weather, stocks, feeds, Wikipedia, exchange rates. They depend on the network, pytz and wall-clock time. They are the opaque `fetch` parameter, constrained only to answer each request with a payload of its kind or an error. Their numeric formatting (prices, percentages) is not modelled. Only the item loop and summary truncation of `get_news` are modelled.
- `search_web` is left out; no modelled code calls it.
- Every call to the model service is left out, as network I/O. It becomes an optional reply (`AiReply`) or an `Outcome` parameter, so any answer, or none, is allowed.
- UUIDs and `datetime.now()` become string parameters. Each route uses one clock reading where the code reads the clock twice (stored entry and response).
- FastAPI's WebSocket loop and `active_connections` are left out: they are asynchronous connection handling. `ConversationStore.HealthCheck` omits the `active_connections` count.
- HTTP routing, JSON encoding, HTML templates and Streamlit widgets are left out. Values that would be non-strings in a JSON body are not represented.
- FastAPI's automatic 422 validation of request bodies is left out; a `ChatMessage` value is already valid.
- The Flask and FastAPI servers' get/delete/list/prepare code is modelled once, in `ConversationStore`: the two copies are identical.
- `format_realtime_data`'s final "unknown type" branch has no counterpart: a result's kind is one of the six, so the branch cannot be reached in this model.
- RealtimeData.CollectNews: a negative `limit` (which Python would treat as counting from the end) is not representable, because the limit is a `nat`. The provider only ever uses 5.
- Python's string operations (`lower`, `upper`, `isalpha`, `split`, `strip`, `title`) are modelled over ASCII. Other characters are neither letters nor white space here, and case mapping leaves them unchanged.
- TrainingSystem.TrainingDataManager.GetExamples: it returns a value, so the aliasing of Python's returned list is not captured. A caller mutating that list would change the store.
- AppChatbot.Chat: for a missing JSON body the 500 detail is whatever the failing call's exception says. The model fixes only the status.
- `models.py`, `init_db.py`, `test_setup.py`, `chatbot.py`, `training_routes.py` and the browser scripts are not part of this model. They are database declarations, set-up scripts and UI code.
- The SQLite training store, category filtering, RAG knowledge base and CSV/JSONL export that the test file exercises are not modelled: that code does not exist in the repository.
- TrainingSystem.NewTrainingExample: an explicit `category=None` or `source=None` is stored as `None` in Python. The model reads `None` as an omitted argument and applies the default, because the record's fields are plain strings.
- The `logger.error` calls of the Flask and FastAPI servers and the `st.error` messages of the Streamlit app are left out. They are logging and display side effects, with no effect on the returned values or the stored state.
- FlaskChatbot.Chat and FastApiChatbot.Chat: a reply that has `choices` but an empty or malformed list raises, and the route answers 500 with the exception's text. `Option<AiReply>` has no value for such a reply, so that error path is not modelled.
