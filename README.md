# WhatsApp memory assistant: a verified model of its retrieval core

This project models, in Dafny, the parts of the WhatsApp-LLM system that decide what is
stored, what is retrieved and what is sent on:

- The C++ core's **vector store** (`VectorIndex.VectorStore`). It is a flat L2 nearest-neighbour
  index over embeddings, with a map from index slots to WhatsApp message ids.
- The **RAG service** (`RagPipeline.RagService`):
  - ingestion of one message;
  - answering a question from the retrieved history;
  - the warm-up that replays stored history.
- The **message database** reads and writes that the pipeline relies on (`MessageDatabase`):
  - the `GetAllMessages` row loop;
  - `GetMessageContentById` formatting;
  - the guards of `upsert_chat` and `insert_message`.
- The **message validator** (`MessageValidator`).
- The Go gateway's **serializer** (`MessageSerializer`). It covers the content, name and type-tag rules.
- The Go gateway's **handler** (`Gateway`). It covers the chat-name priority chain and the filters that drop status updates and empty events.

How things are represented:

- **The vector store** is a class whose fields are the index's vectors, `m_id_map` and `m_current_faiss_id`.
  - `AddIndex` and `Search` are methods proved against the functions `Added` and `SearchResult`. The search loop is the source's label loop.
  - FAISS's exhaustive search is written out. It is the ranking of all slots by exact squared distance (`Rank`), truncated to `k` and padded with `-1` (`Labels`).
  - A vector's components are exact reals.
- **The language model and the repository** are oracles fixed when the service is built (`Llm`, `Repository`).
  - A ghost trace `Calls` records every call the service makes to them and to the store's search. This lets the contracts say which calls a path does not make.
  - `Ask`'s context loop is the method `BuildContext`.
  - The warm-up is a loop over `IngestMessage`, proved against the fold `IngestedAll`.
- **SQL results** are inputs: a failed query, no result set, or rows whose columns may be NULL.
  - `GetAllMessages` keeps the source's fetch loop.
  - The JSON object the database writes read is a `Json.Object`. nlohmann's `value(key, default)` is modelled with its type error. `contains` and `is_boolean` become map membership and a constructor test.
- **The validator and the Go functions** are pure functions.
  - The WhatsApp lookups that `GetChatName` performs (group info, contact store) are `Option` inputs. `None` stands for a lookup that failed.
  - `Content`, `SenderName` and the contact, push-name and number chain of `ChatName` are each proved equal to one reference rule, "first non-empty string of a list" (`FirstNonEmpty`). `MessageType` is a chain over which parts are present, and its contract gives one if-and-only-if per tag.

The module `GatewayToCore` connects the two halves of the system. Every payload the gateway serialises would pass `validate_message`. The `/ingest` route never calls the validator, though: it goes from parsing straight to `upsert_chat`, `insert_message` and `IngestMessage` (whatsapp-core-cpp/src/ingest/ingest_controller.cpp:17-47), so validation is a property of the payload, not a step of handling it. The database writes store rows built from the event's own fields, and the chat row is always named "Desconocido", because the payload carries no `chat_name`.

Choices the model makes where the code leaves room:

- `Ask` returns the same "No encontré información relacionada en tus chats." whether no id comes back or none of the ids resolves to text, and so does the model (`NothingReadable` covers both cases).
- `Ask` asks for 8 neighbours (`AskK`).
- The context joins every non-empty resolution, with no bound on its length.
- FAISS's order for equal distances is not visible in the source, so the model ranks the lower slot first.
- "Content shorter than 2" uses `std::string::length`, which counts bytes. The model counts UTF-8 bytes (`Text.Utf8Length`), not characters.
- `insert_message` reads the timestamp with an `int` default, so nlohmann returns an `int`. The model narrows the number to 32 bits (`Json.IntCast`), and `GatewayToCore.TimestampNarrowing` shows what that does to the 64-bit Unix seconds the gateway sends.

## Model

| member | source | states |
|---|---|---|
| VectorIndex.VectorStore.constructor | whatsapp-core-cpp/src/rag/vector_store.cpp:5-7 | a new store has the given dimension, no vectors, an empty id map and counter 0, and satisfies the store invariant |
| VectorIndex.VectorStore.AddIndex | whatsapp-core-cpp/src/rag/vector_store.cpp:11-23 | a wrong-dimension embedding changes nothing. Otherwise exactly one vector is appended, the old counter is mapped to the message id (it was unmapped before), and the counter grows by one. The invariant is kept |
| VectorIndex.VectorStore.Search | whatsapp-core-cpp/src/rag/vector_store.cpp:25-42 | the label loop returns the search result. An empty query gives []. A non-empty query gives exactly min(k, n) ids, never more than k or than n. Every id is a mapped message id. The store is only read |
| VectorIndex.SqDist | whatsapp-core-cpp/src/rag/vector_store.cpp:6 | the squared L2 distance the flat index ranks by is never negative |
| VectorIndex.SqDistSelf | whatsapp-core-cpp/src/rag/vector_store.cpp:6 | a vector is at distance 0 from itself |
| VectorIndex.Insert | whatsapp-core-cpp/src/rag/vector_store.cpp:31 | inserting a slot into a ranking adds exactly that slot |
| VectorIndex.InsertRanked | whatsapp-core-cpp/src/rag/vector_store.cpp:31 | inserting a new slot into a ranked list keeps it ranked by (distance, slot) |
| VectorIndex.Rank | whatsapp-core-cpp/src/rag/vector_store.cpp:31 | the ranking holds each slot 0..n-1 exactly once, ordered by distance and then by slot |
| VectorIndex.Labels | whatsapp-core-cpp/src/rag/vector_store.cpp:28-31 | the labels buffer has k entries. An entry is -1 exactly at the positions past the number of stored vectors, and is a slot elsewhere |
| VectorIndex.NearestAreClosest | whatsapp-core-cpp/src/rag/vector_store.cpp:31 | the returned slots are distinct, come in non-decreasing distance, and number min(k, n). Every slot left out ranks behind every slot returned |
| VectorIndex.ResolvePadded | whatsapp-core-cpp/src/rag/vector_store.cpp:34-40 | skipping -1 labels over a padded ranking whose slots are all mapped yields one id per ranked slot, in order, with nothing padded |
| VectorIndex.AddedCoherent | whatsapp-core-cpp/src/rag/vector_store.cpp:18-22 | an add keeps the keys exactly [0, counter) and the vector count equal to the counter. It adds the one key that is the old counter and leaves older entries alone |
| VectorIndex.SearchReturnsNearest | whatsapp-core-cpp/src/rag/vector_store.cpp:28-40 | on a coherent index a search returns, in order, the message ids of the min(k, n) nearest slots |
| VectorIndex.SearchIdsWereAdded | whatsapp-core-cpp/src/rag/vector_store.cpp:37-38 | every id a search returns is a value of the id map, which only AddIndex fills |
| VectorIndex.SmallIndexReturnsAll | whatsapp-core-cpp/src/rag/vector_store.cpp:28-40 | with at most k stored vectors a search returns every stored id |
| VectorIndex.StoredVectorRanksFirst | whatsapp-core-cpp/src/rag/vector_store.cpp:31 | querying with a stored vector ranks a vector at distance 0 first |
| Json.IntCast | whatsapp-core-cpp/src/persistence/message_database.cpp:65 | the narrowing to `int` yields a value in the 32-bit range, equal to the input inside that range and congruent to it modulo 2^32 |
| Json.IntegerValue | whatsapp-core-cpp/src/persistence/message_database.cpp:65 | an absent key reads as the default. A present number or boolean reads as a value in the `int` range, a number in range as itself, and any other member is a type error naming the key |
| Text.Utf8Length | whatsapp-core-cpp/src/rag/rag_service.cpp:47 | the byte length lies between the number of characters and four times it |
| Text.ShorterThanTwoBytes | whatsapp-core-cpp/src/rag/rag_service.cpp:47 | content is under two bytes exactly when it is empty or a single ASCII character |
| Text.LabelledRoundTrip | whatsapp-core-cpp/src/rag/rag_service.cpp:50 | the "sender: content" label splits back into sender and content when the sender holds no ": " |
| RagPipeline.RagService.constructor | whatsapp-core-cpp/src/rag/rag_service.cpp:31-34 | the service keeps its model, store and repository and has made no call |
| RagPipeline.RagService.IngestMessage | whatsapp-core-cpp/src/rag/rag_service.cpp:36-63 | content under two bytes returns before any call with the store unchanged. Otherwise exactly "sender: content" is embedded once. An empty embedding leaves the store unchanged, and a non-empty one is added under msg_id |
| RagPipeline.RagService.BuildContext | whatsapp-core-cpp/src/rag/rag_service.cpp:75-89 | the context is one "- text\n" line per id with non-empty text, in rank order. The flag is set exactly when the context is non-empty. One content fetch is made per id |
| RagPipeline.RagService.Ask | whatsapp-core-cpp/src/rag/rag_service.cpp:65-121 | an empty question embedding gives the processing-error text with no search or chat. Otherwise the ids of up to 8 nearest neighbours are fetched in rank order. If none resolves to text, the no-information text is given and Chat is never called. Otherwise Chat gets the fixed system prompt and header + context + footer + question, and its answer or the model-failure text is returned. The store is unchanged |
| RagPipeline.RagService.LoadHistoryFromDB | whatsapp-core-cpp/src/rag/rag_service.cpp:8-29 | fetches GetAllMessages(1000) once, then ingests each message in order. The store and the call trace equal the fold of IngestMessage over that list |
| RagPipeline.IngestedAllGrows | whatsapp-core-cpp/src/rag/rag_service.cpp:18-26 | replaying history keeps the store invariant and keeps earlier vectors and entries. It adds one slot per indexable message, and each new slot maps to one of the messages |
| RagPipeline.IngestAllCallsAreEmbeddings | whatsapp-core-cpp/src/rag/rag_service.cpp:18-26 | replaying history makes only embedding calls, each of the "sender: content" of a message of at least two bytes. Every such message is embedded, and there are no more calls than messages |
| RagPipeline.ContextEmptyIff | whatsapp-core-cpp/src/rag/rag_service.cpp:79-91 | the context is empty exactly when every resolved text is empty |
| RagPipeline.ContextHasLine | whatsapp-core-cpp/src/rag/rag_service.cpp:79-84 | every non-empty resolved text occurs in the context as its own "- text\n" line |
| MessageDatabase.KeptPositions | whatsapp-core-cpp/src/persistence/message_database.cpp:104-114 | the kept messages come from strictly increasing row positions, so the output is a subsequence of the rows in their order |
| MessageDatabase.KeptExactly | whatsapp-core-cpp/src/persistence/message_database.cpp:104-114 | a row is kept exactly when, after defaulting, its id and content are non-empty: every kept message is usable, and every usable row position is among the kept positions. The output is no longer than the rows |
| MessageDatabase.NullIdOrContentDropped | whatsapp-core-cpp/src/persistence/message_database.cpp:106-111 | a row with a NULL id or NULL content never reaches the output |
| MessageDatabase.GetAllMessages | whatsapp-core-cpp/src/persistence/message_database.cpp:87-119 | empty without a connection, after a failed query or without a result set. Otherwise the rows kept in order with a NULL sender as "Unknown". Every message has an id and content, and there are at most limit of them when the server honours LIMIT |
| MessageDatabase.GetMessageContentById | whatsapp-core-cpp/src/persistence/message_database.cpp:122-147 | the text is non-empty exactly when a connection, a result set and a row exist |
| MessageDatabase.ContentByIdSplits | whatsapp-core-cpp/src/persistence/message_database.cpp:136-143 | the text for any first row splits back into its sender and content, a NULL sender read as "Desconocido" and a NULL content as "" |
| MessageDatabase.NullColumnsDefaulted | whatsapp-core-cpp/src/persistence/message_database.cpp:138-139 | a NULL sender is attributed to "Desconocido", and a row with both columns NULL gives "Desconocido: " |
| MessageDatabase.UpsertChat | whatsapp-core-cpp/src/persistence/message_database.cpp:38-54 | nothing happens without a connection. A write is issued exactly when chat_jid is a non-empty string and chat_name is absent or a string, and the write carries that jid. A type error is thrown exactly when either member is present and not a string, so an early return and a throw are told apart |
| MessageDatabase.InsertMessage | whatsapp-core-cpp/src/persistence/message_database.cpp:56-85 | nothing happens without a connection, and a mistyped sender_jid is an error. A write is issued exactly when the id is non-empty and all seven members are absent or well typed, and the write carries that id. A type error is thrown exactly when one of the seven is present and mistyped, even with an empty id |
| MessageValidator.FirstAbsent | whatsapp-core-cpp/src/validation/message_validator.cpp:10-16 | the position found is the first required field absent from the message |
| MessageValidator.ValidateMessage | whatsapp-core-cpp/src/validation/message_validator.cpp:4-21 | passes exactly when all six fields are present and is_from_me is a boolean. A failure carries "Missing field: f" for a required f or the boolean error |
| MessageValidator.ReportsFirstAbsent | whatsapp-core-cpp/src/validation/message_validator.cpp:10-16 | the first absent field in the fixed order is the one reported, whatever the other fields hold |
| MessageValidator.RejectsNonBoolean | whatsapp-core-cpp/src/validation/message_validator.cpp:18-20 | with every field present, a non-boolean is_from_me gives "is_from_me must be boolean" |
| MessageValidator.OnlyPresenceAndFlagMatter | whatsapp-core-cpp/src/validation/message_validator.cpp:4-21 | two messages with the same fields present and the same is_from_me type validate alike: no other type is checked |
| MessageSerializer.FirstNonEmpty | whatsapp-gateway-go/internal/serializer/message_serializer.go:14-25 | the result is "" exactly when every candidate is empty, and otherwise the first non-empty candidate |
| MessageSerializer.FirstNonEmptyIsFirst | whatsapp-gateway-go/internal/serializer/message_serializer.go:14-25 | a non-empty candidate preceded only by empty ones is the one chosen |
| MessageSerializer.FirstNonEmptyIsLast | whatsapp-gateway-go/cmd/gateway/main.go:184-189 | when every candidate but the last is empty the last one is chosen, so an all-empty chain ends in its last fallback |
| MessageSerializer.Content | whatsapp-gateway-go/internal/serializer/message_serializer.go:14-25 | the content is the first non-empty of conversation, extended text, image caption and video caption, else "" |
| MessageSerializer.MessageType | whatsapp-gateway-go/internal/serializer/message_serializer.go:49-67 | "text" exactly when the conversation is non-empty. Otherwise the first present part of image, video, audio and extended text gives the tag, else "unknown". Each tag is one of the six |
| MessageSerializer.TypeBoundsContent | whatsapp-gateway-go/internal/serializer/message_serializer.go:14-66 | an "unknown" message has no content, and a "text" message's content is its conversation |
| MessageSerializer.AudioOnly | whatsapp-gateway-go/internal/serializer/message_serializer.go:14-62 | an audio-only message has content "" and tag "audio" |
| MessageSerializer.TagAndContentDiffer | whatsapp-gateway-go/internal/serializer/message_serializer.go:14-66 | the tag follows the parts present and the content follows the texts, so an extended text beside an uncaptioned image is content under the "image" tag |
| MessageSerializer.SenderName | whatsapp-gateway-go/internal/serializer/message_serializer.go:29-32 | the custom name when it is non-empty, otherwise the push name |
| MessageSerializer.SerializeMessage | whatsapp-gateway-go/internal/serializer/message_serializer.go:9-46 | the payload has exactly the eight keys. The chat and sender are their user parts, the sender and content follow the priority rules (with content as FirstNonEmpty), and the time, self flag and type tag are typed values |
| Gateway.ChatName | whatsapp-gateway-go/cmd/gateway/main.go:150-190 | the self name for one's own messages. In a g.us chat, the group name or "Grupo " + chat user. Otherwise the first non-empty of the found contact's full name and push name, then the message push name, then the sender number |
| Gateway.SelfIgnoresLookups | whatsapp-gateway-go/cmd/gateway/main.go:155-157 | a message of one's own gets "Yo (Sistema)" whatever either lookup returns |
| Gateway.NameIsNonEmpty | whatsapp-gateway-go/cmd/gateway/main.go:171-189 | outside groups the name is never empty when the sender number is not |
| Gateway.StatusBroadcastJid | whatsapp-gateway-go/cmd/gateway/main.go:119 | exactly two JIDs print as "status@broadcast": user "status" on "broadcast", and the empty user on "status@broadcast" |
| Gateway.HandleMessage | whatsapp-gateway-go/cmd/gateway/main.go:116-146 | an event is dropped exactly when its chat is status@broadcast or it has no message. Otherwise it is serialised under its chat name, with the push name as the sender only when that name is empty |
| Gateway.IgnoredEvents | whatsapp-gateway-go/cmd/gateway/main.go:119-125 | the dropped events, in terms of the chat JID's parts |
| GatewayToCore.PayloadValidates | whatsapp-gateway-go/internal/serializer/message_serializer.go:34-45 | every gateway payload would pass validate_message, which the ingest route does not call |
| GatewayToCore.PayloadChatRow | whatsapp-core-cpp/src/persistence/message_database.cpp:38-54 | upsert_chat on a gateway payload writes the chat user named "Desconocido", or skips an empty chat user |
| GatewayToCore.PayloadMessageRow | whatsapp-core-cpp/src/persistence/message_database.cpp:56-85 | insert_message on a gateway payload writes the event's id, chat user, chosen name, content and self flag, and its time narrowed to `int`, or skips an empty id |
| GatewayToCore.TimestampNarrowing | whatsapp-core-cpp/src/persistence/message_database.cpp:65 | a gateway time within the `int` range is stored as sent, and 2^31 (January 2038) is stored as -2^31 |
| GatewayToCore.ForwardedIsStored | whatsapp-gateway-go/cmd/gateway/main.go:129-137 | a forwarded event with an id and a non-empty chat name would pass validate_message, and is stored under that name |

## Left out

- `VectorStore::Save` and `VectorStore::Load` are file I/O and are not modelled. `Load` would replace the index but keep `m_id_map` and the counter, which breaks the store invariant.
- The vector store's floats are exact reals. Rounding, NaN and FAISS's internal heap are not modelled. Ties between equal distances go to the lower slot.
- VectorIndex.VectorStore.Search: requires the query to be empty or of the store's dimension, and takes `k` as a natural number. In the source, FAISS reads `d` floats from any query, and a negative `k` fails to allocate the buffers.
- VectorIndex.VectorStore.constructor: the header's default dimension 1024 and `Search`'s default `k` of 5 are not modelled, since callers pass both.
- RagPipeline.RagService.Ask: requires the question's embedding to be empty or of the store's dimension, for the same reason as `Search`.
- The mutex in `IngestMessage` and the database pool's locking are not modelled. Calls are sequential.
- The Ollama client is an oracle: a deterministic function for embedding and one for chat. Its HTTP traffic, timeouts and model options are not modelled.
- Logging, and `LoadHistoryFromDB`'s progress counter, are not modelled. They affect no state other than the log.
- SQL execution is not modelled: query text, escaping and the MySQL client. `GetAllMessages` and `GetMessageContentById` take the server's answer as a parameter. The writes are modelled as the row they would issue, or the reason none is issued.
- MessageDatabase.GetAllMessages: the bound by `limit` is stated only when the server returned at most `limit` rows, since `LIMIT` is applied by the server.
- Json.IntegerValue: JSON numbers are integers. A floating-point member, which nlohmann would truncate to `int`, is not modelled. Neither is an integer beyond 64 bits, which nlohmann parses as floating point.
- Json.StringValue, Json.IntegerValue and Json.BoolValue: they model `value(key, default)` for the default types the database code uses, which are a string literal, an `int` and a `bool`. Other default types are not modelled.
- JSON parsing and encoding are not modelled. Both halves exchange the same `Json.Object`.
- The HTTP layer is not modelled: routes, status codes, `SendToBackend`, configuration and startup.
- The gateway runtime is not modelled: connection, QR login, contact sync goroutine and signals. The WhatsApp client's lookups are `Option` inputs.
- Gateway.JidString: whatsmeow's device and agent suffixes are not modelled. The model covers the user@server form that `handleMessage` compares.
- MessageSerializer.SerializeMessage: `Timestamp.Unix()` is taken as the timestamp itself, in seconds. Message parts other than conversation, extended text, image, video and audio are not modelled, and such a message reads as one without those parts.
