# A verified model of the support-chat backend

The backend answers a customer-support chat. It has three routes:

- `POST /message` validates and sanitises the customer's message. It then finds or opens the conversation (the "session") and reads that conversation's recent turns. It stores the customer's turn, asks the completion provider for a reply, stores the reply and returns it.
- `GET /history/:sessionId` returns a conversation's turns, oldest first.
- `POST /new` starts an empty conversation.

The store holds two tables: conversations and messages. When the provider fails, `POST /message` stores a fixed apology as the assistant turn. It then passes the provider's error on to the error-handling middleware, which turns every kind of error into a status code and a JSON body.

The model consists of one Dafny module per source file:

| module | file | form |
|---|---|---|
| `Types` | `types.dfy` | the records of `backend/src/types/index.ts`, plus `Option` and `Result` (a `Failure` is what the TypeScript code throws) |
| `JsText` | `jstext.dfy` | the parts of JavaScript string semantics the code relies on: the `\s` white-space class, `trim`, `includes` and `' '.repeat` |
| `Validation` | `validation.dfy` | the request schema, the validation middleware, `sanitizeMessage` and `isValidSessionId`, as functions |
| `Database` | `database.dfy` | the store as a class: `Store` has the two tables, the `initialized` flag (the database handle is not null) and a clock; each query is a function over the tables |
| `Llm` | `llm.dfy` | `generateReply` as a function; the provider call is a function parameter |
| `ErrorHandler` | `errorhandler.dfy` | `ApiError`, the error-to-response dispatch and the 404 handler |
| `Chat` | `chat.dfy` | the three route handlers, as methods that change a `Store` |

Modelling choices:

- **Clock.** Every `new Date()` in the source is a clock reading later than the one before it. Timestamps are these readings.
- **Store invariant.** `Store.Valid()` states that:
  - message ids are unique;
  - the message table is in strictly ascending timestamp order;
  - every conversation is filed under its own id and was touched no earlier than it was created.
- **Queries.** `ORDER BY timestamp ASC` is the table's own order. Lemma `AscendingUnique` shows that this is the only ascending arrangement of those rows.
- **`getRecentMessages`.** `DESC LIMIT k` followed by `reverse()` is modelled step by step. It is proved to give the last `min(k, n)` messages of the conversation.
- **Fresh ids.** The ids that `uuidv4()` returns are parameters. Callers promise that they are not already in use.
- **A message of white space only.** The schema checks the raw length before it trims (backend/src/middleware/validation.ts:10-12), so fifteen spaces pass validation and arrive trimmed to the empty string. sanitizeMessage trims again (backend/src/middleware/validation.ts:54) and returns the empty string, which the route refuses with 400 `EMPTY_MESSAGE` (backend/src/routes/chat.ts:25-27). Lemma `FifteenSpacesSanitiseToEmpty` states the first half, and the contract of `Chat.PostMessage` the refusal.

## Model

| member | source | states |
|---|---|---|
| JsText.TrimStart | backend/src/middleware/validation.ts:54 | the result is a suffix of the input; everything dropped is white space; the result does not start with white space |
| JsText.TrimEnd | backend/src/middleware/validation.ts:54 | the result is a prefix of the input; everything dropped is white space; the result does not end with white space |
| JsText.IsWhitespace | backend/src/middleware/validation.ts:54-58 | the white-space set that both `\s` and `trim` use: ECMAScript's WhiteSpace and LineTerminator characters |
| JsText.Trim | backend/src/middleware/validation.ts:12 | the result is never longer; it neither starts nor ends with white space; it is empty exactly when the input is all white space |
| JsText.TrimIsMiddle | backend/src/middleware/validation.ts:12 | the trimmed string is a contiguous middle part of the input, and everything before and after it is white space |
| JsText.TrimOfTrimmed | backend/src/middleware/validation.ts:54 | a string that neither starts nor ends with white space is its own trim |
| JsText.TrimIdempotent | backend/src/middleware/validation.ts:54 | trimming the already trimmed message again changes nothing |
| JsText.Spaces | backend/src/middleware/validation.ts:58 | `' '.repeat(n)` has length n and holds only U+0020 |
| JsText.WhitespaceRun | backend/src/middleware/validation.ts:58 | the run is all white space, and the next character (if any) is not white space |
| JsText.WhitespaceRunOfConcat | backend/src/middleware/validation.ts:58 | a white-space prefix followed by a non-white-space character is exactly one maximal run |
| JsText.Contains | backend/src/services/llm.ts:109 | `includes`: the substring occurs at some position of the string |
| JsText.Length | backend/src/middleware/validation.ts:10-11 | `length` in UTF-16 code units: between one and two per code point, and exactly one each iff no code point lies above U+FFFF |
| JsText.LengthConcat | backend/src/middleware/validation.ts:10-11 | the code-unit length of a concatenation is the sum of the lengths |
| JsText.LengthOfCopies | backend/src/middleware/validation.ts:10-11 | n copies of a code point are n times its code units long |
| Validation.ParseChatMessage | backend/src/middleware/validation.ts:7-17 | parsing succeeds iff the message is present with a raw length between 1 and 2000 UTF-16 code units and any session id passes the UUID check; the value passed on is the trimmed message; a failure lists at least one issue, each on `message` or `sessionId` |
| Validation.ValidateChatMessage | backend/src/middleware/validation.ts:21-44 | success iff the parse succeeds, passing on the parsed body; otherwise a 400 "Validation Error" / "Invalid request data" with the parse issues as details |
| Validation.MessageLengthBoundary | backend/src/middleware/validation.ts:4-11 | a message of 2000 code units passes; one of 2001 code units or an empty one does not |
| Validation.AstralMessageRejected | backend/src/middleware/validation.ts:11 | 1001 characters above U+FFFF are 2002 code units, so such a message is refused although it has fewer than 2000 characters |
| Validation.RemoveNul | backend/src/middleware/validation.ts:56 | no NUL remains, and every other character is kept with its multiplicity; the order is stated by `Validation.RemoveNulConcat` |
| Validation.RemoveNulConcat | backend/src/middleware/validation.ts:56 | NUL removal works character by character: removing from a concatenation concatenates the results, so the kept characters keep their order |
| Validation.RemoveNulWithoutNul | backend/src/middleware/validation.ts:56 | text without NUL is returned unchanged |
| Validation.CollapseWhitespace | backend/src/middleware/validation.ts:58 | the text never grows, and the step introduces no NUL; where each run goes is stated by `Validation.CollapseLongRunAnywhere` and `Validation.CollapseShortRunAnywhere` |
| Validation.CollapseAfterText | backend/src/middleware/validation.ts:58 | text without white space in front of any string is copied unchanged, and the rest is collapsed as it would be on its own |
| Validation.CollapseLongRunAnywhere | backend/src/middleware/validation.ts:58 | at any position, a maximal white-space run of ten or more becomes exactly ten spaces and the scan resumes after it |
| Validation.CollapseShortRunAnywhere | backend/src/middleware/validation.ts:58 | at any position, a maximal white-space run of one to nine characters is kept as it is |
| Validation.Sanitize | backend/src/middleware/validation.ts:53-61 | trim, then NUL removal, then run collapsing; the result has no NUL and is never longer than the input |
| Validation.SanitizeProperties | backend/src/middleware/validation.ts:53-61 | the sanitised message has no NUL, is never longer than the input, keeps the visible characters exactly and in order, has no white-space run longer than ten, and is empty for an all-white-space input |
| Validation.VisibleTrim | backend/src/middleware/validation.ts:54 | trimming keeps every visible character in order |
| Validation.VisibleRemoveNul | backend/src/middleware/validation.ts:56 | NUL removal keeps every visible character in order |
| Validation.VisibleCollapse | backend/src/middleware/validation.ts:58 | collapsing keeps every visible character in order |
| Validation.CollapseRun | backend/src/middleware/validation.ts:58 | a maximal white-space run of ten or more becomes exactly ten spaces, and a shorter run is copied unchanged |
| Validation.CollapseShortRun | backend/src/middleware/validation.ts:58 | a run shorter than ten is copied character for character |
| Validation.CollapseRunsBounded | backend/src/middleware/validation.ts:58 | after collapsing, no white-space run starting anywhere is longer than ten |
| Validation.SanitizeLeavesSpaceAfterNul | backend/src/middleware/validation.ts:54-56 | because trim runs before NUL removal, `"\0 x"` sanitises to `" x"`, so the output need not be trimmed |
| Validation.FifteenSpacesSanitiseToEmpty | backend/src/middleware/validation.ts:53-58 | fifteen spaces pass validation but sanitise to the empty string |
| Validation.UuidV4PatternAt | backend/src/middleware/validation.ts:64 | the pattern has 36 positions: hyphens at 8, 13, 18 and 23, `4` at 14, `[89ab]` at 19, hex elsewhere |
| Validation.IsValidSessionId | backend/src/middleware/validation.ts:63-66 | the anchored, case-insensitive version-4 UUID pattern matches the whole string, position by position; a match has 36 characters |
| Validation.IsValidSessionIdShape | backend/src/middleware/validation.ts:63-66 | isValidSessionId holds iff the string has 36 characters, hyphens at 8, 13, 18 and 23, `4` at 14, one of `89abAB` at 19, and hex digits (either case) everywhere else |
| Database.WellFormedAppend | backend/src/db/database.ts:132-137 | inserting a row with an unused primary key, stamped after every stored row, keeps the tables well formed |
| Database.ConversationMessages | backend/src/db/database.ts:144-149 | the selection holds exactly the conversation's rows |
| Database.ConversationMessagesAppend | backend/src/db/database.ts:134-137 | an insert extends the selection of the row's own conversation by that row and no other selection |
| Database.ConversationMessagesAppendOne | backend/src/db/database.ts:125-142 | after createMessage, the row's conversation gains exactly that row and every other conversation is unchanged |
| Database.ConversationMessagesAppendExchange | backend/src/routes/chat.ts:43-62 | storing the two turns of one exchange keeps the old rows; their conversation gains both turns, in order, and every other conversation gains nothing |
| Database.ConversationMessagesAscending | backend/src/db/database.ts:147 | a selection from a table in timestamp order is in timestamp order |
| Database.AscendingUnique | backend/src/db/database.ts:147 | with distinct timestamps, `ORDER BY timestamp ASC` has a single answer: two ascending sequences holding the same rows are equal |
| Database.SameRowsDropLast | backend/src/db/database.ts:147 | two ascending sequences with the same rows end with the same row, and the rest still hold the same rows |
| Database.Reverse | backend/src/db/database.ts:186 | `reverse()` keeps the length and mirrors the positions |
| Database.ReverseTakeReverse | backend/src/db/database.ts:169-186 | taking the first k of the newest-first order and reversing gives the last k in ascending order |
| Database.RecentMessages | backend/src/db/database.ts:164-187 | the result is the last min(limit, n) of the conversation's n messages, oldest first |
| Database.Touch | backend/src/db/database.ts:116-123 | the conversation's updatedAt is set if the row exists; the key set and every other row are unchanged |
| Database.TouchTwice | backend/src/db/database.ts:116-123 | a later touch supersedes an earlier one |
| Database.Store.constructor | backend/src/db/database.ts:6 | the process starts with no database handle and empty tables |
| Database.Store.InitializeDatabase | backend/src/db/database.ts:25-74 | the handle is open, with the saved tables when a readable file exists and empty tables otherwise; the invariant holds |
| Database.Store.CloseDatabase | backend/src/db/database.ts:189-195 | the handle is dropped, so later operations fail with NotInitialized |
| Database.Store.ReadClock | backend/src/db/database.ts:132 | each reading of the clock is later than the one before |
| Database.Store.CreateConversation | backend/src/db/database.ts:83-94 | fails with NotInitialized when there is no handle and with a primary-key violation for a used id, in both cases leaving the table unchanged; otherwise adds exactly one conversation, created and updated now, with no metadata |
| Database.Store.GetConversation | backend/src/db/database.ts:96-114 | fails only without a handle; returns the row under the id, or nothing (not an error) for an unknown id |
| Database.Store.UpdateConversationTimestamp | backend/src/db/database.ts:116-123 | sets only that conversation's updatedAt to a fresh reading; an unknown id changes no row; messages are unchanged |
| Database.Store.CreateMessage | backend/src/db/database.ts:125-142 | appends exactly one row stamped with a fresh reading, then touches the parent with a later reading; the parent's existence is not checked; a used id fails with the table unchanged; without a handle nothing changes |
| Database.Store.GetMessagesByConversation | backend/src/db/database.ts:144-162 | exactly the conversation's rows, in ascending timestamp order (empty for an unknown conversation) |
| Database.Store.GetRecentMessages | backend/src/db/database.ts:164-187 | the last min(limit, n) of the conversation's messages, ascending |
| Llm.FormatConversationHistory | backend/src/services/llm.ts:30-35 | same length and order; `user` maps to the user role and `ai` to the assistant role; the content is the stored text |
| Llm.PromptMessages | backend/src/services/llm.ts:49-53 | the system prompt, then the formatted history, then the new user turn; length \|history\| + 2; only the first entry has the system role |
| Llm.HasApiKey | backend/src/services/llm.ts:41 | the key check: the key is set and is not the empty string |
| Llm.ApiStatusToError | backend/src/services/llm.ts:78-106 | an API error always maps to one of INVALID_API_KEY, RATE_LIMIT, SERVICE_UNAVAILABLE or API_ERROR, with the status its code calls for |
| Llm.PlainErrorToError | backend/src/services/llm.ts:109-124 | a non-API error becomes TIMEOUT exactly when its message contains "timeout", and UNKNOWN_ERROR otherwise |
| Llm.ClassifyCaught | backend/src/services/llm.ts:77-125 | a provider failure never becomes MISSING_API_KEY or EMPTY_RESPONSE and gets a status that fits its code; a thrown non-Error value becomes UNKNOWN_ERROR; an LLMError raised in the try block becomes TIMEOUT when its message contains "timeout" and is rethrown unchanged otherwise |
| Llm.Attempt | backend/src/services/llm.ts:66-76 | the try block succeeds iff the provider completes with non-empty content, and the reply is that content trimmed; a provider failure goes to the catch block unchanged; a completion without content raises EMPTY_RESPONSE |
| Llm.EmptyResponsePassesThrough | backend/src/services/llm.ts:109-119 | the EMPTY_RESPONSE message does not contain "timeout", so that error is rethrown unchanged |
| Llm.GenerateReply | backend/src/services/llm.ts:37-126 | the provider is called iff an API key is configured, and then with the prompt list; without a key the result is MISSING_API_KEY/500; a success is exactly the trimmed content, and non-empty content always succeeds; every failure has the status its code calls for |
| Llm.ApiStatusMapping | backend/src/services/llm.ts:78-106 | 401 → INVALID_API_KEY/401; 429 → RATE_LIMIT/429; 500, 502, 503 → SERVICE_UNAVAILABLE/503; any other status → API_ERROR with the provider's message and that status, or 500 when it is absent or 0 |
| Llm.PlainErrorMapping | backend/src/services/llm.ts:109-124 | end to end, a non-API provider error becomes TIMEOUT/504 iff its message contains "timeout", and UNKNOWN_ERROR/500 otherwise |
| Llm.NonErrorMapping | backend/src/services/llm.ts:120-124 | end to end, a thrown value that is not an Error becomes UNKNOWN_ERROR/500 |
| Llm.ContentOutcomes | backend/src/services/llm.ts:66-76 | absent or empty content is EMPTY_RESPONSE; any other content succeeds with that content trimmed, so white-space-only content is a successful empty reply |
| ErrorHandler.ApiErrorDefaults | backend/src/middleware/errorHandler.ts:4-13 | an ApiError built from a message alone has status 500 and code INTERNAL_ERROR |
| ErrorHandler.HandleError | backend/src/middleware/errorHandler.ts:15-58 | an LLMError or ApiError answers with its own status, message and code; a SyntaxError with a body answers 400 "Bad Request" / "Invalid JSON in request body" / INVALID_JSON; the remaining errors answer 500 INTERNAL_ERROR with the generic message, and only they are labelled "Internal Server Error" |
| ErrorHandler.InternalErrorsIndistinguishable | backend/src/middleware/errorHandler.ts:53-57 | two unexpected errors get identical responses, so an error's own message is never exposed |
| ErrorHandler.ErrorLabels | backend/src/middleware/errorHandler.ts:26-57 | exactly one branch answers: the label is one of four, and it is "AI Service Error" iff the error is an LLMError and "API Error" iff it is an ApiError |
| ErrorHandler.NotFound | backend/src/middleware/errorHandler.ts:60-66 | always 404 NOT_FOUND, naming the method and path |
| Chat.SessionFor | backend/src/routes/chat.ts:29-39 | the conversation id: the supplied session id when it is a non-empty string, otherwise the fresh id |
| Chat.JoinedByTouch | backend/src/routes/chat.ts:29-44 | opening the conversation and then touching it leaves it present: an existing row differs only in its update time, which is now; a new row has that id, no metadata, a creation time after the previous reading and before the given bound, and update time now; every other conversation is unchanged |
| Chat.OpenConversation | backend/src/routes/chat.ts:29-39 | an existing session creates nothing; an unknown supplied id is created under that same id; no id creates exactly one conversation under the fresh id; messages are untouched; without a handle it fails with nothing changed |
| Chat.SaveUserTurn | backend/src/routes/chat.ts:41-44 | the context is read before the user turn is stored, so it never contains it; then exactly the user turn is appended |
| Chat.SaveReply | backend/src/routes/chat.ts:46-69 | stores the reply, or the apology when generation failed, and answers with the reply or rethrows the same LLMError |
| Chat.RecordExchange | backend/src/routes/chat.ts:41-69 | exactly two rows are appended, the user turn and then the reply or apology; the conversation is touched last; the outcome is the reply or the same LLMError; the context is the conversation's last maxHistory turns before this one |
| Chat.Converse | backend/src/routes/chat.ts:29-69 | session resolution followed by the exchange: an existing conversation row changes only its update time, and a new one has the session id, no metadata and a creation time earlier than the user turn's timestamp, both touched last; exactly the two new turns are appended, in order, stamped after everything earlier; they join that conversation's selection and no other; the user turn stays even when generation fails |
| Chat.PostMessage | backend/src/routes/chat.ts:19-73 | a message that sanitises to nothing is refused with 400 EMPTY_MESSAGE and the store unchanged; otherwise the contract of `Chat.Converse`, for the sanitised text |
| Chat.PostMessageRoute | backend/src/routes/chat.ts:19 | a body that fails validation is answered 400 with the store unchanged and never reaches the handler; a successful reply names a conversation that exists |
| Chat.GetHistory | backend/src/routes/chat.ts:75-100 | checked in order: a malformed id gives 400 INVALID_SESSION_ID; no handle fails; an unknown conversation gives 404 CONVERSATION_NOT_FOUND (not an empty list); otherwise the full ascending list of the conversation's messages; nothing changes |
| Chat.NewConversation | backend/src/routes/chat.ts:102-114 | adds exactly one conversation under the fresh id and no message, and answers with that id |
| Chat.RateLimitedProviderResponse | backend/src/routes/chat.ts:47-59 | a provider 429 reaches the client as 429 RATE_LIMIT "AI Service Error", and the apology is what gets stored |
| Chat.GenerationFailureResponse | backend/src/routes/chat.ts:49-59 | every failed generation reaches the client as "AI Service Error" with its own code and a status that fits the code |

## Left out

- File persistence is not modelled: `saveDatabase`, reading the file and writing it back on close. A saved database is an opaque prior `Snapshot`, and an unreadable file counts as no file. The schema DDL is not modelled either.
- The SQL engine is replaced by the two tables. The FOREIGN KEY clause on `messages` is not enforced: sql.js leaves foreign keys off, so createMessage stores a row for an unknown conversation, and so does the model.
- Two clock readings in the same millisecond are not modelled. Every `new Date()` is strictly later than the one before, so ties under `ORDER BY timestamp` never arise. ISO-8601 strings are replaced by the readings, which keep their order.
- `uuidv4()` is not modelled: the route methods take the new ids as parameters that are not already in use.
- The OpenAI client is not modelled: the lazy client, `client.chat.completions.create`, the model name, MAX_TOKENS and the sampling parameters. The provider is a function from the prompt list to an outcome.
- `checkLLMHealth` and the health route are not modelled: they depend only on network reachability.
- `knowledge.ts` is static prompt text, so the system prompt is an opaque configuration string.
- The zod library's `.uuid()` check is an uninterpreted predicate parameter. Its pattern is not part of this model.
- validateChatMessage's catch branch is not modelled, because `safeParse` does not throw. Request bodies whose fields have other JSON types are not modelled either.
- `MAX_CONVERSATION_HISTORY` is not parsed: the history limit is a `nat` parameter, whose default is 20 (backend/src/routes/chat.ts:17). A value that `parseInt` turns into NaN or a negative number is not modelled.
- Llm.LLMError: an error's message is derived from its code, and API_ERROR carries the provider's message. The source class accepts any message; only the eight kinds generateReply constructs are modelled.
- The rethrow of a non-LLMError at `backend/src/routes/chat.ts:58` is not modelled. generateReply only ever throws LLMError, so that branch cannot be reached.
- Chat.PostMessageRoute: the contract states only the validation decision and that a reply names an existing conversation. Everything the handler does is stated on `Chat.PostMessage`, and the errors on `ErrorHandler.HandleError`.
- Concurrency is not modelled. The `await` on the provider lets requests interleave; the model runs each request atomically and in sequence.
- Logging, the development stack trace, Express wiring (CORS, body limit, signals), the migration script and the frontend are not modelled.
- A model string holds one `char` per Unicode code point, while a JavaScript string is a sequence of UTF-16 code units. The length checks count code units (`JsText.Length`), as the schema does. A lone surrogate code unit cannot be represented, so messages that hold one are not modelled.
