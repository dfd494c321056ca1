# Notes question-and-answer chat: a Dafny model

This project models the core of a notes application where a signed-in user asks questions about their own notes and watches the answer stream in. Three files make up that core:

- **`app/chat.server.ts`** keeps an in-memory index of note chunks. Adding a note appends its chunks. Removing a note filters its records out by note id. A question searches only the asker's own records. While the answer is generated, one chat event (start, token, end, error) per generation callback goes onto a shared subject, tagged with the asker's user id.
- **`app/routes/api.sse.ts`** is the event-stream route. It forwards to each subscriber, as `"chat"` messages, exactly the events tagged with that subscriber's user id.
- **`app/routes/notes.qna.tsx`** holds the form action, the type guard and the reducer. The action validates the question and lists the related notes. The guard admits start, token and end messages. The reducer builds the `{isResponding, response}` state of the page from those messages.

Modules, one per source file, plus two helpers and one for whole-pipeline properties:

| module | file | models |
|---|---|---|
| `Wrappers` | wrappers.dfy | `Option`, standing for `undefined`/`null` |
| `JsValues` | js_values.dfy | values as `JSON.parse` yields them; JavaScript's `String(v)` as `+` applies it |
| `ChatServer` | chat_server.dfy | `app/chat.server.ts`: `VectorStore` class (field `memoryVectors`), `ChatBus` class (the `chat$` subject), `AskQuestion` |
| `ApiSse` | api_sse.dfy | `app/routes/api.sse.ts`: the filter/map pipeline as the function `Forward` |
| `NotesQna` | notes_qna.dfy | `app/routes/notes.qna.tsx`: `Action`, `IsChatSseResponse`, the `Bot` class with `UpdateResponses` |
| `Pipeline` | pipeline.dfy | from generation callbacks, through the subject and the stream, to the page |

How the external pieces are represented:

- **Store records.** Each record is a `Document(pageContent, metadata)` whose metadata is an untyped map of JSON values. This keeps `typeof doc.metadata.userId === "string"` and `doc.metadata.id !== id` meaningful for any record. The `VectorStore.Valid()` invariant (`AllNoteMetadata`) states that every record has string `id`, `title` and `userId` fields.
- **Text splitting.** The splitter is the store's constant `split: string -> seq<string>`. Every chunk keeps its document's metadata.
- **Embedding and scoring.** These collapse into a parameter `similarity(question, recordText): real`. Ranking is a descending insertion sort, with earlier records first among equal scores, followed by taking the first `k`.
- **Generation.** The language-model run is a parameter `trace: seq<LlmCallback>` holding the callbacks in the order the model fires them. `AskQuestion` runs the matching handler for each one.
- **Embedding failures.** Whether the embedding call rejects is a parameter `embeddingFails`. When it does, `addDocument` appends nothing, `askQuestion` rejects before publishing anything, and the action rejects with it (`Action` returns `None`).
- **Serialisation.** `JSON.stringify` followed by `JSON.parse` is taken as lossless. A message's `data` is the JSON value of the event. The client's step takes `Option<Json>`, where `None` means `JSON.parse` threw.

How removal behaves in the code:

- **Removal.** `removeDocument` reassigns `memoryVectors` to a filtered copy, so removed records are physically gone (`RemoveById`). Records carry no tombstone flag.
- **Absent ids.** Removing an id that no record carries logs the same line as any other removal and changes nothing (`RemoveAbsentIsNoop`). The model has no logging.
- **Search.** Because removed records are gone, no later search can return one (`SearchAfterRemove`).

## Model

| member | source | states |
|---|---|---|
| `ChatServer.CreateDocument` | app/chat.server.ts:35-43 | the page content is the title, a newline, then the body; the metadata has exactly the keys `id`, `title`, `userId`, holding the note's own values as strings |
| `ChatServer.SplitDocuments` | app/chat.server.ts:47-49 | every chunk carries the metadata of the document it came from, and its text is one of the texts the splitter cut from that document; conversely, every text cut from every document is indexed with that document's metadata |
| `ChatServer.SplitOneDocument` | app/chat.server.ts:71 | splitting a single document gives exactly its chunks, in the splitter's order |
| `ChatServer.SplitDocumentsDistributes` | app/chat.server.ts:47-49 | splitting distributes over concatenation, so the chunks come document after document, in corpus order |
| `ChatServer.CreateDocumentsDistributes` | app/chat.server.ts:48 | `notes.map(createDocument)` distributes over concatenation |
| `ChatServer.CreateDocuments` | app/chat.server.ts:48 | `notes.map(createDocument)`: one document per note, in order |
| `ChatServer.SplitNotesHaveNoteMetadata` | app/chat.server.ts:45-62 | every chunk indexed from the corpus has string `id`, `title` and `userId` metadata |
| `ChatServer.VectorStore.FromNotes` | app/chat.server.ts:45-65 | the store built at start-up holds the chunks of every note, in corpus order, and satisfies the store invariant |
| `ChatServer.AppendNote` | app/chat.server.ts:67-75 | the old records stay in place as a prefix, and every record after them carries exactly the note's metadata |
| `ChatServer.AddingExtendsCorpus` | app/chat.server.ts:45-75 | adding a note to the store built at start-up gives the store that start-up would have built with that note at the end of the corpus |
| `ChatServer.AddDocumentAppends` | app/chat.server.ts:67-75 | adding only appends: the old records stay in place as a prefix, including older chunks of the same note; each new record is the i-th chunk of the note's text with exactly the note's metadata |
| `ChatServer.VectorStore.AddDocument` | app/chat.server.ts:67-75 | the store becomes the old records followed by the note's chunks, or stays as it was when the embedding call rejects; the invariant is kept |
| `ChatServer.HasNoteId` | app/chat.server.ts:82 | a record matches exactly when its `id` metadata is the string equal to the given id |
| `ChatServer.RemoveById` | app/chat.server.ts:81-83 | a record remains if and only if it was there and its `metadata.id` is not the given id; the list never grows |
| `ChatServer.RemoveByIdDistributes` | app/chat.server.ts:81-83 | removal distributes over concatenation, so the kept records keep their relative order |
| `ChatServer.RemoveAbsentIsNoop` | app/chat.server.ts:77-84 | removing an id no record carries leaves the list unchanged |
| `ChatServer.RemoveAllMatching` | app/chat.server.ts:81-83 | removing the id every record carries leaves nothing |
| `ChatServer.RemoveIsIdempotent` | app/chat.server.ts:77-84 | a second removal of the same id changes nothing |
| `ChatServer.RemoveIgnoresOwner` | app/chat.server.ts:81-83 | removal matches on the note id only: a note's records go whoever owns them, and the owner's other records stay |
| `ChatServer.AddThenRemove` | app/chat.server.ts:67-84 | adding a note and then removing its id leaves what removing that id from the original records leaves: none of the new chunks survive |
| `ChatServer.VectorStore.RemoveDocument` | app/chat.server.ts:77-84 | the store becomes the filtered list; the invariant is kept |
| `ChatServer.IsOwnedBy` | app/chat.server.ts:106-108 | the filter admits a record exactly when its `userId` metadata is the string equal to the asker's id; missing or non-string owners never pass |
| `ChatServer.NoteDocumentOwnership` | app/chat.server.ts:35-43 | a note's document passes the owner filter for its owner and for no one else, and carries the note's id |
| `ChatServer.OwnedRecords` | app/chat.server.ts:103-109 | the candidates are exactly the store's records that pass the owner filter |
| `ChatServer.InsertRanked` | app/chat.server.ts:103-105 | inserting a candidate into a ranking adds exactly that candidate and loses none |
| `ChatServer.InsertRankedKeepsRanking` | app/chat.server.ts:103-105 | inserting into a list ordered by descending score keeps it ordered |
| `ChatServer.Rank` | app/chat.server.ts:103-105 | ranking reorders the candidates without adding or losing any |
| `ChatServer.RankIsRanked` | app/chat.server.ts:103-105 | the ranking puts the best score first, each record scoring at least as well as every later one |
| `ChatServer.TakeRanked` | app/chat.server.ts:103-105 | the first `n` of a ranking are `n` owned candidates, none repeated beyond its multiplicity, still in descending score order |
| `ChatServer.SimilaritySearch` | app/chat.server.ts:103-109 | exactly `min(k, owned records)` results; each is a record of the store owned by the asker, and none appears more often than among the owned records, so no record is returned twice; ordered by descending similarity |
| `ChatServer.SearchAfterRemove` | app/chat.server.ts:77-109 | after a note's removal no search returns a record with that note id |
| `ChatServer.ErrorMessage` | app/chat.server.ts:131-136 | a thrown string is used verbatim, an `Error` gives its message, anything else gives "An error occurred please try again."; the text is empty only when the model threw an empty text |
| `ChatServer.CallbackEvent` | app/chat.server.ts:124-148 | every event a handler publishes carries the asker's user id |
| `ChatServer.CallbackEventKinds` | app/chat.server.ts:125-147 | start, token and end callbacks publish events of their own kind. An error publishes an `error` event: a thrown string is used verbatim, an `Error` contributes its message, anything else gives "An error occurred please try again." |
| `ChatServer.Events` | app/chat.server.ts:121-150 | one event per callback, in callback order |
| `ChatServer.EventsCarryRequester` | app/chat.server.ts:125-147 | every event one request publishes carries the requester's user id |
| `ChatServer.ChatBus.constructor` | app/chat.server.ts:99 | the subject starts with nothing published |
| `ChatServer.ChatBus.Next` | app/chat.server.ts:126 | publishing appends exactly that event to the history |
| `ChatServer.HandleCallback` | app/chat.server.ts:124-148 | a handler publishes exactly the callback's event for the asker |
| `ChatServer.AskQuestion` | app/chat.server.ts:101-153 | when the search's embedding call rejects, the call rejects and nothing is published. Otherwise the returned sources are the owner-filtered top 5, independent of how generation goes, and the subject receives exactly the events of the generation's callbacks, in order |
| `JsValues.ToJsString` | app/routes/notes.qna.tsx:95 | a string `text` is appended verbatim |
| `JsValues.OptionalToJsString` | app/routes/notes.qna.tsx:95 | a missing `text` appends "undefined"; a string one appends itself |
| `ApiSse.EventToJson` | app/routes/api.sse.ts:16 | an event serialises to an object with a string `type` and the event's own `userId` |
| `ApiSse.DecodeEncode` | app/routes/api.sse.ts:14-17 | the serialised event reads back as the same event |
| `ApiSse.EventToJsonInjective` | app/routes/api.sse.ts:14-17 | different events never serialise alike |
| `ApiSse.ChatMessage` | app/routes/api.sse.ts:14-17 | every message is named `"chat"` and its data reads back as the event it wraps |
| `ApiSse.OwnEvents` | app/routes/api.sse.ts:13 | the filter keeps exactly the events whose `userId` is the subscriber's |
| `ApiSse.Forward` | app/routes/api.sse.ts:11-18 | soundness: every sent message is a `"chat"` message carrying an event of the subscriber. Completeness: every event of the subscriber is sent. Never more messages than events |
| `ApiSse.ForwardIsFilterThenMap` | app/routes/api.sse.ts:11-18 | the i-th message sent is the `"chat"` wrapping of the i-th own event |
| `ApiSse.ForwardDistributes` | app/routes/api.sse.ts:11-24 | the stream splits along the history, so messages keep the publication order |
| `ApiSse.OtherUsersEventsSendNothing` | app/routes/api.sse.ts:13 | inserting another user's event anywhere in the history changes nothing sent |
| `ApiSse.ReceivedEventsAreOwn` | app/routes/api.sse.ts:13-17 | every received message decodes to a published event of the subscriber |
| `ApiSse.TwoUsersIsolated` | app/routes/api.sse.ts:13 | two different users never receive the same message |
| `NotesQna.AcceptedQuestion` | app/routes/notes.qna.tsx:23-25 | the action goes on if and only if the field is present, is text, and is non-empty; the question is that text |
| `NotesQna.Rejected` | app/routes/notes.qna.tsx:25-34 | status 400, `question` and `related` null, `errors.question` is "Question is required" and `errors.title` null |
| `NotesQna.RelatedNotes` | app/routes/notes.qna.tsx:41-44 | one entry per source, in order, holding that source's `metadata.id` and `metadata.title` |
| `NotesQna.Answered` | app/routes/notes.qna.tsx:38-45 | status 200, the question echoed, `errors` null, `related` the projected sources |
| `NotesQna.RelatedNotesOfSearch` | app/routes/notes.qna.tsx:36-45 | on a store satisfying its invariant, the related list has at most 5 entries, one per hit in ranking order, each holding the hit's string id and its title, and every hit belongs to the asker |
| `NotesQna.Action` | app/routes/notes.qna.tsx:20-46 | a rejected question answers 400 and publishes nothing, because `askQuestion` is never called. When `askQuestion` rejects, the action rejects and nothing is published. Otherwise it answers with the search's related notes, at most 5, each with a string id, and publishes the generation's events |
| `NotesQna.IsChatSseResponse` | app/routes/notes.qna.tsx:48-56 | an admitted value is an object whose `type` is one of the strings "start", "end", "token" |
| `NotesQna.GuardAdmitsAllButErrors` | app/routes/notes.qna.tsx:48-56 | of the published event kinds, the guard admits start, token and end and refuses error |
| `NotesQna.Step` | app/routes/notes.qna.tsx:82-106 | a start message begins a fresh, in-progress answer; every other message keeps the answer's text and can only extend it; the in-progress flag changes only to start an answer or to finish one, keeping its text |
| `NotesQna.RefusedMessagesChangeNothing` | app/routes/notes.qna.tsx:82-106 | a message that fails to parse or fails the guard leaves the state unchanged |
| `NotesQna.ChatEventEffects` | app/routes/notes.qna.tsx:87-102 | start sets `response` to "" and `isResponding` to true; token appends its text and keeps `isResponding`; end clears `isResponding` and keeps `response`; error changes nothing |
| `NotesQna.Deliver` | app/routes/notes.qna.tsx:108 | messages under other event names never reach the handler; a "chat" start message begins a fresh answer, and any other message can only extend the answer |
| `NotesQna.Replay` | app/routes/notes.qna.tsx:82-108 | a run of messages with no "chat" message changes nothing; a run with no start message keeps the answer's text and can only extend it |
| `NotesQna.ReplayAppend` | app/routes/notes.qna.tsx:108 | delivering two batches of messages one after the other is delivering them together |
| `NotesQna.ReplayTokens` | app/routes/notes.qna.tsx:92-96 | a run of tokens appends their texts in arrival order and keeps `isResponding` |
| `NotesQna.StartTokensEnd` | app/routes/notes.qna.tsx:87-102 | from any state, start, tokens t1..tn, end leave `response == t1+...+tn` and `isResponding == false` |
| `NotesQna.Bot.constructor` | app/routes/notes.qna.tsx:62-65 | the page starts not responding with an empty answer |
| `NotesQna.Bot.UpdateResponses` | app/routes/notes.qna.tsx:82-106 | the fields after one message are the reducer applied to the fields before |
| `NotesQna.Bot.Listen` | app/routes/notes.qna.tsx:108 | after a sequence of messages the fields are the reducer folded over them; messages named other than "chat" are not delivered |
| `Pipeline.PageSeesOnlyOwnEvents` | app/routes/api.sse.ts:13 | two histories with the same own events send the same messages and leave the page in the same state, whatever other users published |
| `Pipeline.CompletedRunMessages` | app/chat.server.ts:125-147 | a generation that starts, streams t1..tn and ends sends its asker start, the n tokens, then end |
| `Pipeline.AnswerArrivesWhole` | app/routes/notes.qna.tsx:87-102 | amid any other users' traffic, a completed generation leaves the asker's page showing t1+...+tn, not responding |
| `Pipeline.FailedRunLeavesPageResponding` | app/routes/notes.qna.tsx:48-56 | a generation that fails after t1..tn leaves the page showing t1+...+tn and still marked responding, since the guard drops the error event |
| `Pipeline.NobodyElsesRecords` | app/chat.server.ts:103-109 | when no record passes the owner filter, there are no candidates |
| `Pipeline.StrangerGetsNoSources` | app/chat.server.ts:103-109 | a user owning no records gets no sources, whatever other users' notes contain |

## Left out

- **Embeddings, similarity and top-k ranking.** These run in library code that is not part of this model. Similarity is an abstract function of the question and the record text. Ranking is modelled as a stable descending sort, which the library is not shown to guarantee. Only the owner filter, the bound of 5 results and "results come from the filtered store" are taken from this repository.
- **Text splitting.** Splitting is a library call. It is the abstract `split` function, with no claim about chunk size (250) or overlap (0). The line-location metadata the splitter adds to each chunk is not modelled.
- **Prompt assembly and OpenAI streaming.** These are foreign network calls. Only their callbacks are modelled, as a given `trace`, and the `question` reaches the model only through the similarity function.
- **Asynchrony and the subject.** The un-awaited `chain.invoke`, the memoised store promise, the RxJS multicast and `catchError` resubscription are not modelled. The subject is one history of published events. A subscription sees the part of that history published while it is subscribed, given to `Forward` as a sequence. The store is the object built once by `VectorStore.FromNotes`.
- **The event-stream transport.** The `eventStream` helper, `EventSource` lifecycle and teardown, and the text form of `JSON.stringify`/`JSON.parse` are transport. A message's data is the JSON value itself.
- **React updates.** `setBot` updates are applied one message at a time, in arrival order. React's batching is not modelled.
- **Non-string token text.** `ToJsString` does not capture every case of `_bot.response + json.text` (app/routes/notes.qna.tsx:95) for a `text` that is not a string. JSON numbers are integers here, because the floating-point rendering of `String(n)` is out of scope. An object with its own `toString` key, or an array holding one, makes `+` throw a TypeError inside the `setBot` updater, outside the handler's `try`. The model instead appends "[object Object]". Both cases need a token whose `text` is not a string, which the server never sends.
- **Other failures.** Only the embedding call's rejection is modelled. The store's creation rejecting has the same effect as an embedding failure: `AddDocument`, `AskQuestion` and `Action` then leave the store and the subject as they were. A promise left pending is not modelled.
- **Database and session code.** `app/models/note.server.ts` (Prisma queries) and `requireUserId` are not part of this model. The store's contents and the user id are parameters. One coupling is worth recording: `deleteNote` calls `removeDocument(id)` with no owner check while its database delete is owner-scoped (app/models/note.server.ts:49-58). So a request naming another user's note id would drop that note from the index, and `RemoveIgnoresOwner` states the removal half of this.
- **UI.** `app/routes/notes.tsx`, `app/routes/notes._index.tsx`, the page's JSX and `vite.config.ts` are rendering and build configuration.
