# abdou-chat server core, modelled in Dafny

This project models the server of the abdou-chat application. The server
stores multi-turn conversations. It relays each user turn to one of two
language-model providers: Groq's chat-completions API or a Gemini chat
session. It then stores both sides of the exchange.

The model covers the conversation handlers and the `/api/chat` pipeline of
`server/index.js`:

- listing, creating, deleting, renaming and fetching conversations;
- the chat turn, step by step:
  1. validate the request;
  2. save the user message;
  3. infer the title on the first message and refresh the activity time;
  4. route on the model name;
  5. project the history without the message just saved;
  6. build the provider's current-turn payload;
  7. apply the image capability gate;
  8. call the provider;
  9. save the bot message and refresh the activity time again.

Files (one module each):

- `wrappers.dfy`: `Option` and `Result`.
- `text.dfy`: the JavaScript string operations the server uses.
  - `includes`, `trim` with the ECMAScript white-space set, `substring(0, n)`.
  - `s || fallback` on strings.
- `schema.dfy`: the `Message` and `Conversation` records of
  `server/models/`.
  - The store-order invariant `Chronological`.
  - The order-preserving `Filter` that stands for the Mongoose queries.
- `routing.dfy`: the default model and the `isGroqModel` substring test.
- `adapters.dfy`: the Groq and Gemini payload shapes.
  - The two history-building loops.
  - The `currentMessageParts` builder.
- `pipeline.dfy`: title inference and `Plan`, the routed payload of a turn.
  - `Dispatch`, the imperative steps 4 to 8, proved equal to `Plan`.
- `store.dfy`: the class `ChatStore`. It holds the fields below, and its
  methods are the HTTP handlers.
  - `convs`: a map from id to `{title, timestamp}`.
  - `msgs`: the message sequence in insertion order.
  - `clock`: the clock.
  - `nextMsg` and `nextConv`: the id counters.

Abstractions:

- **Clock.** `Date.now()` is the store's counter `clock`. Every reading
  advances it by one, because each reading is a separate save.
- **Ids.** Ids are natural numbers handed out by counters.
  - A chat request may name a conversation id that has no record. Saving a
    message then raises `nextConv` past that id, so a conversation created
    later never inherits those messages. This stands for the uniqueness of
    MongoDB ObjectIds.
- **Providers.** Both providers are one oracle `answer: ProviderCall -> Reply`.
  - The oracle gets the exact payload the adapter builds.
  - It answers `Replied(text)` or `Failed(error)`.
  - `Replied("")` stands for a Groq completion with missing or empty content.
  - `Chat` and `Dispatch` also return the call they made, or `None` when the
    capability gate answered without calling anyone.
- **Base64.** Base64 encoding of the uploaded file is kept opaque.
  `Base64(bytes)` records which bytes were encoded.
- **Image URL.** The upload middleware hands over an `Upload`: the bytes,
  the MIME type and the public URL. The URL is an input string.
- **Request fields.** An absent `message` is the empty string. An absent
  `conversationId`, `model`, `title` or file is `None`.

The Groq branch never puts image data into its payload, even for a vision
model (server/index.js:199-202, 209-214). `Pipeline.GroqPayload` proves
the Groq list's length, that it starts with the projected history, and its
last entry. The entries carry no image data because the `GroqMessage`
record has only a role and a text content.

## Model

| member | source | states |
|---|---|---|
| Text.IncludesIff | server/index.js:172 | `s.includes(t)` holds exactly when `t` occurs in `s` at some index |
| Text.Trim | server/index.js:103 | neither end of a trimmed string is white space |
| Text.TrimIsBlock | server/index.js:103 | the trimmed title is the block of the raw title that starts where the leading white space ends |
| Text.TrimCutsWhiteSpace | server/index.js:103 | everything trimming removes, before and after that block, is white space |
| Text.TrimEmptyIff | server/index.js:97 | the trimmed title is empty exactly when the raw title is empty or all white space, which is the `!title.trim()` refusal |
| Routing.ResolveModel | server/index.js:142 | an absent or empty model name becomes `gemini-2.5-flash`, and any other name is kept; the result is never empty |
| Routing.RoutesToGroqIff | server/index.js:172 | a model name goes to Groq exactly when `llama`, `mixtral` or `gemma` occurs in it |
| Routing.DefaultRoutesToGemini | server/index.js:141-142 | a request without a model resolves to `gemini-2.5-flash`, and that name goes to Gemini |
| Schema.FilterMembers | server/index.js:124 | a query returns exactly the stored messages that match its condition |
| Schema.FilterChronological | server/index.js:124 | a query over the chronologically ordered store returns its results in ascending timestamp order |
| Schema.NewestInIsLatest | server/index.js:53 | the latest message is absent exactly when the conversation has none; otherwise it is a message of that conversation, and no message of that conversation is newer |
| Schema.AppendChronological | server/models/Message.js:26-29 | a message stamped after every stored one keeps the store in strictly increasing id and timestamp order |
| Adapters.PriorMembers | server/index.js:183 | the history holds every fetched message except the one just saved |
| Adapters.PriorOfTurn | server/index.js:229 | when the current message was just appended after older ones, the history is exactly the messages from before the turn |
| Adapters.GroqTurnsMapping | server/index.js:180-196 | Groq's history has one entry per message, in order: a user message becomes `user` with its text or `Image uploaded`, and a bot message becomes `assistant` with its text unchanged |
| Adapters.GeminiTurnsMapping | server/index.js:226-242 | Gemini's history has one entry per message, in order, each with one text part: `user` with the text or `Image uploaded`, and `model` with the bot's text unchanged |
| Adapters.BuildGroqHistory | server/index.js:178-196 | the loop's `messages` equals the Groq projection of the fetched messages without the one just saved |
| Adapters.BuildGeminiHistory | server/index.js:224-242 | the loop's `history` equals the Gemini projection of the fetched messages without the one just saved |
| Adapters.BuildCurrentParts | server/index.js:250-263 | an inline-data part carrying the file's bytes and MIME type comes first exactly when an image came along; it is followed by exactly one text part, `message` or `Describe this image.` |
| Pipeline.InferTitle | server/index.js:165 | a message of at most 30 characters is the title unchanged; a longer one gives its first 30 characters followed by `...` |
| Pipeline.Dispatch | server/index.js:171-269 | the routing-and-call steps make exactly the provider call `Plan` prescribes, or none, and return the reply `TurnReply` prescribes |
| Pipeline.GateIff | server/index.js:206-207 | no provider is called exactly when the turn goes to Groq with an image and a model name without `vision`, and then the reply is the fixed explanation whatever the providers would say |
| Pipeline.CallFollowsRoute | server/index.js:172-175 | a provider call goes to the provider the name selects, under the resolved model name |
| Pipeline.GroqPayload | server/index.js:198-202 | Groq's list is the projected history followed by exactly one `user` entry with `message` or `Hello`, and no image data |
| Pipeline.GeminiPayload | server/index.js:244-266 | Gemini's session is seeded with the projected history and sent the current parts; there are two parts exactly when an image came along |
| Pipeline.FailureSurfaces | server/index.js:286-291 | a provider failure becomes the turn's failure, carrying the provider's message |
| Pipeline.HelloGoesToGemini | server/index.js:141-142 | a first turn `Hello` without a model is sent to `gemini-2.5-flash` with an empty history and the single text part `Hello` |
| Store.ChatStore.MessagesOfIsQuery | server/index.js:124 | a conversation's messages are exactly the stored messages that reference it, in ascending timestamp order |
| Store.ChatStore.List | server/index.js:47-62 | every conversation appears exactly once, newest activity first, with its title, its timestamp and its latest message |
| Store.ChatStore.Create | server/index.js:69-73 | a new conversation titled `New Chat` with a fresh id that no stored message references; nothing else changes |
| Store.ChatStore.Delete | server/index.js:80-85 | afterwards no message references the id and the record is gone; every other message and conversation is kept, and the answer is success even for an unknown id |
| Store.ChatStore.Rename | server/index.js:92-111 | a missing or blank title gives 400 before the lookup, an unknown id gives 404, and both change nothing; otherwise only that conversation's title changes, to the trimmed title, and the updated record is returned |
| Store.ChatStore.Get | server/index.js:118-125 | 404 exactly when the id has no record; otherwise the record's fields and exactly its messages, in ascending timestamp order |
| Store.ChatStore.SaveMessage | server/index.js:144-158 | a saved message gets the next id and the next clock tick, and `hasImage` holds exactly when an image URL is stored; the message is appended and nothing stored is changed |
| Store.ChatStore.Refresh | server/index.js:167-168 | only that conversation is rewritten: its title as given and the next clock tick as timestamp |
| Store.ChatStore.NoteUserMessage | server/index.js:160-169 | with a record, the title is inferred when the conversation holds exactly one message and kept otherwise, and the timestamp is always refreshed; without a record, nothing changes |
| Store.ChatStore.BeginTurn | server/index.js:144-169 | steps 2 and 3, then the read-back of lines 178 and 224: the user message is appended; the returned history is exactly the conversation's stored messages after the save, and without the user message it is the history from before the turn |
| Store.ChatStore.SendTurn | server/index.js:144-269 | steps 2 to 8: the user message is appended, title and timestamp follow the first refresh, and the provider call and reply are the ones `Plan` and `TurnReply` prescribe from the history before the turn |
| Store.ChatStore.FinishTurn | server/index.js:271-283 | the bot message is appended, and the timestamp is refreshed only when the conversation has a record |
| Store.ChatStore.Chat | server/index.js:132-293 | no conversation id: 400, no call and no write. Otherwise the provider call is the one `Plan` prescribes from the turn's history, and the outcome follows the reply. On failure: 500 with the error, only the user message added, one refresh. On success, which includes the gated reply: the reply text, the user and bot messages added and two refreshes. In both cases the title is inferred on the first message, and nothing changes for an id without a record |
| Store.HelloScenario | server/index.js:132-285 | creating a conversation and sending `Hello` with no model gives the title `Hello`, a store of exactly two messages (the user's `Hello` without image, then the bot's reply) and that reply as the answer |

## Left out

- Express wiring, CORS, static `/uploads` serving, `app.listen` and all console logging: transport and I/O.
- The MongoDB connection and Mongoose query mechanics; an in-memory store replaces them. Database errors, which make every handler answer 500, are not modelled.
- The Mongoose `required` validator on a message's `text`. The model saves an empty text as it is.
- Multer storage and random file names, and the image URL built from the request's protocol and host. The URL is an input.
- The Groq and Gemini SDK clients: foreign network calls, modelled by the `answer` oracle. The `temperature` and `max_tokens` settings are not modelled.
- Reading the uploaded file from disk and Node's base64 encoder. These are file I/O and a library routine, modelled by the opaque `Base64` record of the bytes.
- The `/api/models` diagnostic proxy: a network fetch.
- `Promise.all` in the list handler. The model builds the rows sequentially.
- The React client (sidebar and message rendering).
- Store.ChatStore.Chat: an absent `message` is the empty string. In the server, an absent message fails the save of the user message (server/index.js:158), because `text` is required (server/models/Message.js:9-12). The catch then answers 500 with nothing written. The model has no absent message; see the `required` validator line above, which says it saves an empty text as it is.
- Text.Prefix and Pipeline.InferTitle: lengths count characters. JavaScript counts UTF-16 code units, which differs for characters outside the Basic Multilingual Plane.
- Store.ChatStore.Chat: every clock reading is strictly later than the previous one. Equal millisecond timestamps are not modelled, and neither is the order Mongoose would give to ties.
- Store.ChatStore.Delete, Store.ChatStore.Rename, Store.ChatStore.Get and Store.ChatStore.Chat: ids are natural numbers, so none is malformed. In the server, an id that is not a well-formed ObjectId makes the query or the save throw a cast error, answering 500 (server/index.js:83-84, 101, 120, 157-158). So Delete's success for an unknown id and the 404s of Get and Rename hold only for well-formed ids.
- Store.ChatStore.Chat: requests run one at a time. Concurrent turns on one conversation, with their races on title and timestamp, are not modelled.
