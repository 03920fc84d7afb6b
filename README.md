# Session-memory pipeline of the digital-twin chat backend

This project is a Dafny model of the per-turn pipeline in `backend/server.py`. The
pipeline keeps one message log per chat session and sends each user message to a
hosted model (Amazon Bedrock's Converse API, Nova family) together with the most
recent part of that log. Each turn does four things:

1. It resolves the session id. When the request has no id, or an empty one, a fresh one is used.
2. It loads the session's log from the conversation store. The store is an S3 bucket or, by default, a local directory, with one `<session id>.json` record per session. The model keys records by that string. This is exact for S3. For the local directory it is exact only for ids that name distinct files (see "## Left out").
3. It builds the Converse request and calls the model:
   - the request carries the last 20 stored turns, oldest first;
   - the new user message comes last;
   - the system prompt goes in a separate `system` field, not among the messages;
   - replies are capped at 2000 tokens.
4. Only when the model answers, it appends the user turn and then the assistant turn to the full log, saves the whole log back, and returns the reply and the session id.

Files:

- `wrappers.dfy`: module `Wrappers`, with `Option` and `Result`.
- `memory.dfy`: module `Memory`. It holds:
  - `Message`, a stored turn: role, content and timestamp;
  - `MemoryPath`, the record key;
  - the abstract store, as `Lookup`/`Store` on a map from key to log;
  - the `ConversationStore` class, with `Load` and `Save`. The class keeps the backend's contents in a `map` field that `Save` reassigns.
- `bedrock.dfy`: module `Bedrock`. It holds:
  - the history window;
  - the `messages` list, both as a specification function (`Assembled`) and as the source's append loop (`BuildMessages`);
  - the request, and extraction of the reply;
  - `CallBedrock`.
- `chat.dfy`: module `Server`. It holds:
  - `ChatTurn`, the specification of one turn as a function of the store's contents;
  - `Chat`, the handler as a method that changes a `ConversationStore`;
  - `GetConversation`, the history route;
  - the lemmas about turns.

Whatever a turn takes from outside the program is a parameter, gathered in `Server.Environment`:

- the generated uuid, as `freshId`;
- the two clock readings;
- a backend read or write error;
- the model id and the system prompt (`prompt()` from the `context` module, which is not part of this model);
- the model itself, as a total function from the request sent to the service's answer.

Because the model is a function of the request, the contracts can say exactly what was sent.

Three facts about the code that the model keeps:

- The system prompt goes in the request's `system` field, not among the `messages`. So a 25-turn log gives 21 `messages`, or 22 entries counting the system part (`Bedrock.RequestEntries`).
- `message` may be `""`: nothing checks that a user turn has content, and the model does not either.
- Roles are free text that nothing checks, in storage or in the request. The alternation lemmas hold for logs written only by chat turns.

## Model

| member | source | states |
|---|---|---|
| `Memory.MemoryPathInjective` | backend/server.py:74-75 | the record key is the session id followed by ".json", so two sessions share a key exactly when their ids are equal |
| `Memory.LookupAfterStore` | backend/server.py:100-113 | loading a session after saving it yields exactly the saved log |
| `Memory.LookupAfterStoreOther` | backend/server.py:100-113 | saving under one id leaves the log of every other id string unchanged (per key string; see "## Left out" for local aliasing) |
| `Memory.StoreReplaces` | backend/server.py:100-113 | a save replaces the whole record, so the later of two saves wins outright |
| `Memory.LookupAfterSaves` | backend/server.py:78-113 | after any series of saves, a session reads as the log of its latest save under the same id string, or as before when the series never saved that id |
| `Memory.LookupNeverSaved` | backend/server.py:86-88 | an id string that no save ever wrote reads as the empty log, whatever other ids saved |
| `Memory.ConversationStore.Load` | backend/server.py:78-97 | without a fault, load yields the stored log, or [] when the record is missing; any other read error propagates as the result |
| `Memory.ConversationStore.Save` | backend/server.py:100-113 | a save overwrites the session's record with the given log and changes no record under another key string; a write error propagates and leaves the store as it was |
| `Bedrock.WindowIsRecentSuffix` | backend/server.py:125 | the window has min(n, 20) turns and is the suffix of the stored log, in stored order |
| `Bedrock.NovaHistoryAt` | backend/server.py:125-129 | mapping stored turns to request entries keeps the length, and entry i is turn i converted |
| `Bedrock.AssembledShape` | backend/server.py:122-135 | `messages` has min(n, 20) + 1 entries; entry i < k is stored turn n - k + i, so the history is the most recent turns oldest first; entry k is the new user message |
| `Bedrock.AssembledKeepsStoredTurns` | backend/server.py:126-129 | each history entry keeps the stored role unchanged, and its content is a single text part equal to the stored content |
| `Bedrock.AssembledBounded` | backend/server.py:125-135 | whatever the log's length, at most 21 entries are sent, and the last entry is the new message with role "user" |
| `Bedrock.AssembledFirstTurn` | backend/server.py:132-135 | with an empty log the new user message is the only entry |
| `Bedrock.AssembledAlternates` | backend/server.py:124-135 | when the stored log alternates user and assistant turns, the roles of `messages` alternate starting and ending with "user" |
| `Bedrock.BuildMessages` | backend/server.py:122-135 | the append loop over the window, followed by the user entry, produces exactly `Assembled` |
| `Bedrock.RequestEntries` | backend/server.py:138-151 | the request carries the model id, the system prompt as its own single `system` part, min(n, 20) + 1 messages (min(n, 20) + 2 entries counting the system part) and a 2000-token cap |
| `Bedrock.ExtractReply` | backend/server.py:153-156 | the reply is the text of the first content part; a client error fails with its text; an answer with no content part fails |
| `Bedrock.CallBedrock` | backend/server.py:119-156 | the result is the extracted reply of the model's answer to the request built from the log, the message and the system prompt |
| `Server.ChatTurnSessionId` | backend/server.py:183 | a turn answers with the supplied session id when it is non-empty, and with the fresh id when it is absent or "" |
| `Server.ChatTurnSucceeds` | backend/server.py:181-205 | a turn succeeds exactly when the load, the model call and the save all succeed; its reply is the model's first text part for the request built from the stored log |
| `Server.ChatTurnFailureLeavesStore` | backend/server.py:186-203 | a failed turn leaves every stored log as it was |
| `Server.ChatTurnLoadFault` | backend/server.py:86-89 | a read error other than a missing record aborts the turn with that error before the model is asked, and nothing is saved |
| `Server.ChatTurnAppendsTwo` | backend/server.py:192-203 | a successful turn stores the old log plus exactly the user turn and then the assistant turn carrying the returned reply |
| `Server.ChatTurnOtherSessions` | backend/server.py:203 | a turn changes the log of no id string but its own |
| `Server.WindowingOnlyAffectsRequest` | backend/server.py:125-203 | the model is sent min(n, 20) + 1 messages, while the stored log keeps all n earlier turns as a prefix and grows by two |
| `Server.ChatTurnKeepsAlternation` | backend/server.py:192-203 | a turn keeps every session's log alternating user and assistant turns |
| `Server.FreshSessionsIndependent` | backend/server.py:183-203 | two turns without an id, given distinct fresh ids, open two sessions, each holding only its own exchange |
| `Server.Chat` | backend/server.py:181-205 | the handler's result and the store's new contents are those of `ChatTurn`; on failure the store is unchanged; on success the session's log gains the two turns |
| `Server.GetConversation` | backend/server.py:208-213 | the history route returns the session id and its full stored log, and a read error propagates |

## Left out

- The HTTP layer is not modelled: FastAPI, CORS, the `/` and `/health` routes and the uvicorn entry point carry no pipeline logic.
- The boto3 S3 and Bedrock clients, `os.makedirs` and file I/O are not modelled. The store is a map, its faults are parameters, and the model is a function parameter.
- JSON serialisation is not modelled. A save followed by a load is taken to round-trip exactly, as the abstract contract of the store.
- `temperature` 0.7 and `topP` 0.9 are left out: they are floating-point values that are only passed through. The 2000-token cap is kept.
- `prompt()` comes from the `context` module, which is not part of this model. Its value is an uninterpreted string parameter.
- `uuid.uuid4()` is a parameter, so the model does not capture that a generated id is unique.
- `datetime.now().isoformat()` gives the two stamps. They are opaque clock readings, kept in the order they were taken: the user turn gets the first, the assistant turn the second (`Server.ChatTurnAppendsTwo`). Neither the program nor the model guarantees that stamps never decrease, because `datetime.now()` reads the local wall clock, which can step back.
- Exception types are collapsed. A `ClientError` from the model call, and a malformed answer (a `KeyError` or `IndexError` in the source), both become one model failure. The model only keeps the case of an answer whose content list is empty.
- Local-directory aliasing is not modelled. The local branch (the default) reads and writes the file `os.path.join(MEMORY_DIR, id + ".json")`. Ids with path syntax can name another session's file or leave the directory: "./b" names b's file, an absolute id drops the directory, ".." escapes it, and on a case-insensitive file system ids differing only in case share a file. The model keys records by the string `id + ".json"`, so the isolation below holds per key string. It is exact for the S3 branch and for local ids that name distinct files.
- LookupAfterStoreOther (`Memory.LookupAfterStoreOther`): isolation is per key string; in the local branch a save under "./b" does change b's log, which this lemma does not capture.
- LookupAfterSaves (`Memory.LookupAfterSaves`): a save counts only for the session whose id it names; in the local branch a save under an aliasing id ("./b") also changes b's log.
- LookupNeverSaved (`Memory.LookupNeverSaved`): "never saved" means no save under the same id string; in the local branch a save under an aliasing id makes b read non-empty.
- Save (`Memory.ConversationStore.Save`): "changes no other record" holds per key string; in the local branch a save under an aliasing id overwrites another session's file.
- ChatTurnOtherSessions (`Server.ChatTurnOtherSessions`): a turn leaves other id strings untouched; in the local branch a turn under "./b" appends to b's log. FreshSessionsIndependent relies on the same keying, which is sound for generated uuids since they carry no path syntax.
- Save (`Memory.ConversationStore.Save`) and ChatTurnFailureLeavesStore (`Server.ChatTurnFailureLeavesStore`): a local save can fail after the file was truncated, leaving a partial record. This is not modelled: a failed save, and so a turn whose save failed, leaves the map unchanged.
- Two concurrent turns on the same session can race between load and save, and the later save wins. This is not modelled, since each turn is one atomic step here.
- `backend/resources.py` is not modelled: it only extracts PDF text and reads startup files.
