# Lost on Campus: the conversation-session protocol in Dafny

This project models the conversation protocol between the campus-navigation
chat client and its backend, and proves properties about it.

The backend side is `lostOnCampusController`. It keeps a process-wide table
`activeChats` from chat id to a model chat session. A request without a chat
id starts a session, seeded with the grounding prompt and stored under a
fresh `uuidv4` id. A request with a chat id resumes the stored session. Either
way the user's message is sent to the session once. The reply comes back in
one of four forms:

- the parsed JSON;
- the raw text with a parsing-error marker;
- a 404 or 500 error;
- hand-off to the error handler.

The client side is the `ChatBox` component's `handleSubmit`. It appends the
user's message, posts it, takes the chat id from the first reply that carries
one, appends one bot message (the reply or an apology), and resets its
loading flag and input.

Files, one module each:

- `wrappers.dfy`: `Option`.
- `strings.dfy`: substring positions, and JavaScript's `trim` with the
  ECMAScript white-space set.
- `json.dfy`: JSON values and `JSON.stringify`. Number printing and string
  quoting are an oracle `Printer`.
- `gemini_schema.dfy`: the three required response fields and the parsed
  reply shape.
- `navigator_prompt.dfy`: `navigatorPrompt`, with its fixed text copied
  exactly.
- `college_controller.dfy`: the `Session` and `SessionRouter` classes,
  `HandleTurn`, and the pure table model `Admit`/`Step`/`Run` with lemmas
  over sequences of calls.
- `chat_box.dfy`: the `ChatBox` class, its state-transition functions,
  `latestBotMessage`, and two end-to-end lemmas, for a first and a later
  turn, that join the client to the controller.

Oracles and parameters:

- The location fetch is `locations`; `None` means `collection.find` threw.
- `uuidv4` is `freshId`. The caller must pass 36 characters that are not
  already a key.
- The model's reply to `sendMessage` is `reply`.
- `JSON.parse` is `parse`.
- `JSON.stringify` is `Json.Stringify`, up to its `Printer`.
- The HTTP call seen by the client is `HttpOutcome`, and
  `ChatBox.Delivered` maps a backend outcome onto it.

What the code does that is easy to miss:

- The guard at `backend/src/controllers/college.controller.ts:46-49` is
  reachable. `activeChats` is a plain object, so `activeChats[chat_id]` also
  finds the names inherited from `Object.prototype` (`"constructor"`,
  `"__proto__"`, `"toString"`, ...). Each such value is truthy and has no
  `sendMessage` function. Those ids therefore get 500 "Chat instance is not
  valid", not 404. The model keeps this case
  (`CollegeController.InheritedNames`).
- `content?.parts[0]` reads `parts` without `?.`. Content without a parts
  list therefore throws and goes to `next(error)`; it is not treated as an
  empty reply.
- The message is not checked to be non-empty.
- A session is stored before the model is called. A turn that ends in
  "Empty response from model" therefore leaves its new entry in the table.

`navigatorPrompt` is a Dafny function. It gives the same string for the same
inputs by construction, so no lemma states that. A `Session` stores the
arguments `navigatorPrompt` was called with, not the text it returned. Its
`Instruction()` is the prompt of those arguments, so the prompt lemmas apply
to every stored session's instruction.

## Model

| member | source | states |
|---|---|---|
| `CollegeController.SessionRouter.constructor` | backend/src/controllers/college.controller.ts:13 | The session table starts empty. |
| `CollegeController.Session.constructor` | backend/src/controllers/college.controller.ts:28-32 | A started session records the `navigatorPrompt` arguments (its `grounding`) and the schema's required field list, and has been sent nothing. Its system instruction `Instruction()` is the prompt of that grounding. |
| `CollegeController.Session.SendMessage` | backend/src/controllers/college.controller.ts:51 | Sending appends exactly that message to the session's sent messages and yields the model's reply. |
| `CollegeController.SessionRouter.HandleTurn` | backend/src/controllers/college.controller.ts:15-77 | A failed location fetch stops the call with no change. A falsy `chat_id` adds one entry under the fresh id and changes nothing else; the new session's grounding is this turn's coordinate, message and fetched locations, so its instruction is the prompt built from them; it receives just this message. A truthy id never changes the table. An own key resumes exactly `activeChats[chat_id]`, which gets the message once. An inherited name gives 500 "Chat instance is not valid". Any other id gives 404 "Chat not found" and sends nothing. No other session is sent anything. The reply is classified by `Answer`, under the new id if one was created and otherwise the supplied one. |
| `CollegeController.ExtractText` | backend/src/controllers/college.controller.ts:53-54 | Computes `result?.response?.candidates?.[0]?.content?.parts[0]?.text ?? null`. A missing candidate list, candidate, content, part or text gives no text. Content without a `parts` list is a `TypeError`, because `parts` is read without `?.`. Its properties are stated through `Answer`'s contract. |
| `CollegeController.Answer` | backend/src/controllers/college.controller.ts:51-73 | Status 200 happens exactly when the reply has non-empty text, whether or not it parses. The answer carries the turn's chat id. It is parsed exactly when `JSON.parse` accepts the text. Otherwise it holds the raw text unchanged with "Could not parse response as JSON". Missing or empty text is 500 "Empty response from model". A throw from `sendMessage` or from reading `parts` goes to the error handler. |
| `CollegeController.Find` | backend/src/controllers/college.controller.ts:36-49 | Computes what the plain-object read `activeChats[chat_id]` finds: an own key's session, else an inherited `Object.prototype` name, else nothing. Its properties are stated by `HandleTurn`, `SessionContinuity` and `NeverIssuedNeverFound`. |
| `CollegeController.RunKeys` | backend/src/controllers/college.controller.ts:27-39 | Over any sequence of calls, the key set after them is the keys before plus the ids the calls started. Nothing is deleted. |
| `CollegeController.RunKeepsEntries` | backend/src/controllers/college.controller.ts:27-39 | With fresh ids, every existing entry keeps its session through any sequence of later calls. Nothing is overwritten. |
| `CollegeController.StartedIdsDistinct` | backend/src/controllers/college.controller.ts:33-34 | Sequential calls without a chat id store pairwise distinct ids, none already in the table. |
| `CollegeController.SessionContinuity` | backend/src/controllers/college.controller.ts:34-37 | Once a call has started a session under id X, a lookup of X after any further calls finds that same session. |
| `CollegeController.NeverIssuedNeverFound` | backend/src/controllers/college.controller.ts:36-44 | An id neither in the table nor issued by any call never resolves to a session. It is "not found", or an inherited name. |
| `NavigatorPrompt.Prompt` | backend/src/prompts/navigator.prompt.ts:1-49 | `navigatorPrompt` itself: the fixed template with the serialised coordinate, the message and the serialised location array filled in. Its properties are stated by `ContextSectionsInOrder`, `LocationsGrounded` and `ResponseFormatIsFixed`. |
| `NavigatorPrompt.ContextSectionsInOrder` | backend/src/prompts/navigator.prompt.ts:16-21 | The prompt holds the serialised coordinate right after "**Current Location:** ", the user message verbatim right after "**User Message:** ", and the serialised location array right after "**Location Data:** ". The three appear in that order and do not overlap. |
| `NavigatorPrompt.LocationsGrounded` | backend/src/prompts/navigator.prompt.ts:21 | Every location record passed in appears, serialised and unchanged, in the prompt. |
| `NavigatorPrompt.ResponseFormatIsFixed` | backend/src/prompts/navigator.prompt.ts:23-48 | Every prompt ends with the same instruction text, whatever the inputs. That text names, in quotes, each of `agent_message`, `final_query` and `final_coordinates`, which are exactly the fields the response schema requires. |
| `CollegeController.IssuedIdNotInherited` | backend/src/controllers/college.controller.ts:33-34 | An id as long as a `uuidv4` id is never an inherited `Object.prototype` name. New keys therefore never shadow one, which is what `SessionRouter.Valid` keeps. |
| `Strings.TrimEmptyIffBlank` | frontend/src/components/ChatBox.tsx:68 | `query.trim()` is empty (falsy) exactly when every character of the query is ECMAScript white space. |
| `ChatBox.ChatBox.constructor` | frontend/src/components/ChatBox.tsx:37-48 | The component starts with an empty query, the greeting as the only message, no chat id, and not loading. |
| `ChatBox.ChatBox.SetQuery` | frontend/src/components/ChatBox.tsx:428 | Typing replaces the query and nothing else. |
| `ChatBox.ChatBox.HandleSubmit` | frontend/src/components/ChatBox.tsx:66-89 | The new state is `Submitted` of the old state. The request posted carries the current location, the held chat id, and the query; nothing is posted when the submit is ignored. |
| `ChatBox.ChatBox.Resume` | frontend/src/components/ChatBox.tsx:90-125 | The new state and the destination handed to `handleSetDestination` are `Settled` of the old state and the HTTP outcome. |
| `ChatBox.Submitted` | frontend/src/components/ChatBox.tsx:68-78 | The state after `handleSubmit` up to the request: unchanged when ignored, else the user message appended and loading on. Its properties are stated by `SubmitGuard` and `HandleSubmit`. |
| `ChatBox.Settled` | frontend/src/components/ChatBox.tsx:90-125 | The state and destination after the request ends: id adoption, one bot message or the apology, the destination, and the `finally` reset. Its properties are stated by `CompletedSubmit`, `EmptyCoordinatesSetDestination`, `FirstTurnAdoptsIssuedId`, `LaterTurnKeepsId` and `Resume`. |
| `ChatBox.SubmitGuard` | frontend/src/components/ChatBox.tsx:68-78 | A white-space-only query, or a pending request, makes submit change nothing. Otherwise exactly the user's message is appended and loading starts. |
| `ChatBox.CompletedSubmit` | frontend/src/components/ChatBox.tsx:71-125 | A submit carried to its end appends the user message and then exactly one bot message, which becomes the latest bot message. That message is the parsed reply's `agent_message`, or the fixed apology on any failure, including a body without `parsedResponse`. Loading ends and the query is `""`. The destination is set exactly when a parsed reply has `final_coordinates`, and to that value. Any array counts, `[]` included. |
| `ChatBox.EmptyCoordinatesSetDestination` | frontend/src/components/ChatBox.tsx:109-112 | A parsed reply whose `final_coordinates` is the empty array still calls `handleSetDestination`, with `[]`, because every array is truthy. |
| `ChatBox.ReplayKeepsHistory` | frontend/src/components/ChatBox.tsx:38-125 | Over any sequence of typing, submits and responses: messages are only appended, the greeting stays first, a latest bot message always exists, and once a chat id is held it never changes. |
| `ChatBox.LatestBotMessage` | frontend/src/components/ChatBox.tsx:54 | The result is undefined exactly when every message is the user's. Otherwise it is a non-user message with only user messages after it. |
| `ChatBox.FirstTurnAdoptsIssuedId` | frontend/src/components/ChatBox.tsx:92-121 | On a first turn the client sends no id, so the backend starts a session. The client then holds the backend's fresh id exactly when the backend answered 200. A degraded 200 reply is still shown as the apology, with the id already taken. |
| `ChatBox.LaterTurnKeepsId` | frontend/src/components/ChatBox.tsx:84-121 | On a later turn the client sends the id it holds, so the backend adds no table entry (`Admit` leaves the table as it is). Whatever the backend answers, the client still holds the same id. A parsed 200 reply is shown as its `agent_message`; every other answer is shown as the apology. |

## Left out

- Logging (`console.log`, `console.error`) is left out as output only.
- Most of the model configuration in `structuredGeminiModel` (model name,
  temperature, token limit, safety settings) is left out. It only shapes the
  oracle's replies.
- The database: seeding and connection are not part of this model. A fetched
  location document is an opaque JSON value, `_id` included.
- `JSON.parse` is modelled only for the schema's three-field shape.
  `final_coordinates` may be missing or `null`. Other JSON a model could
  return (a bare `null`, an object without `agent_message`) is not modelled.
- Number printing and string escaping in `JSON.stringify` are the `Printer`
  oracle. Coordinates are exact `real` values, with no floating-point
  arithmetic.
- A request body without `user_corrdinate` or `user_message` is not
  modelled. `Request` makes both fields mandatory. In the source,
  `JSON.stringify(undefined)` would put the text "undefined" into the
  prompt, and `undefined` would be passed on as the message.
- A throw from `structuredGeminiModel`, `startChat` or `uuidv4` is not
  modelled. It would go to `next(error)` before the new entry is stored,
  leaving the table unchanged. In the model, a call without a chat id ends
  in `Forwarded` with the table unchanged only when the location fetch
  failed.
- Non-string `chat_id` values in the request body (numbers, booleans) are
  not modelled. `chat_id` is a string, or absent/`null`.
- `backend/src/middleware/errorhandler` is not part of this model. A call
  handed to `next(error)` is assumed to reach the client as a non-2xx
  answer.
- `Session.SendMessage` records only the user messages sent. The SDK's own
  chat history, which also stores the model's answers, is not modelled.
- `result?.response?` is left out; the envelope is modelled from
  `candidates` down.
- Concurrency is left out. Turns on the same chat id, async interleaving,
  React's batching of state updates, and the stale `chatId`/`isLoading`
  captured by the closure are all modelled as strictly sequential events.
- `handleSetDestination` is assumed not to throw. If it threw, the source
  would also append the apology.
- Message timestamps, `formatTime`, rendering, popover timers and scrolling
  are left out as UI.
- Rendering choices are left out: `renderMessages` and the
  `latestBotMessage?.text || "How can I help you?"` fallback.
- `frontend/src/App.tsx` (`handleSearch`), the map and routing components,
  and the backend bootstrap and route files are plumbing and UI, not part of
  this model.
