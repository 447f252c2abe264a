# Chat session hook — a Dafny model

This project models `useChat`, the state manager of a small chat widget that talks to one
webhook of an automation platform. The hook keeps four pieces of state. These are the welcome
message, the ordered message list, the current session id and a "waiting for response" flag.
It persists the session id under the local-storage key `chat-session`. It has four operations:

- construction splits the configured initial texts into a welcome message and the seed list;
- `loadSession` gets or creates the session id and replaces the list with the mapped history;
- `startSession` replaces the session id and resets the list;
- `sendMessage` appends the user's message, posts it, and appends the bot's reply.

The model is functional. `Chat.ChatState` is an immutable record, and `Chat.Hook` adds the
configuration and the once-computed initial messages. Each operation is a pure function. Its
inputs are the hook (for construction, the configuration), the storage cell (`Chat.Store`,
an optional string, for `Chat.LoadSession` only) and the oracle inputs it observes:

- `Messages.Env` holds the k-th `uuidv4()` result and the k-th clock reading;
- `Chat.Fetched` is the webhook's reply: an unreachable endpoint, or a body, which may be unreadable;
- `Json.Codec` stands for `JSON.parse`, `JSON.stringify` and `JSON.stringify(…, null, 2)`.

What each operation returns:

- `Chat.Init` returns the constructed hook.
- `Chat.LoadSession` returns a `Chat.LoadStep`. It holds the next hook and the next cell, the
  request sent (none when loading is off), and the outcome: disabled, the resolved session
  id, or a throw.
- `Chat.StartSession` returns the next hook and the next cell. It sends no request and
  cannot throw.
- `Chat.SendMessage` returns a `Chat.SendStep`. It holds the request sent, the next hook,
  and whether the call completed or threw. It does not touch storage, so it returns no cell.

Files:

- `wrappers.dfy`: `Option` and `Result`.
- `json.dfy`: JSON values (RFC 8259, section 3) and the JavaScript semantics the hook uses.
  These are property access, `??`, truthiness and `Object.keys(…).length`.
- `text.dfy`: `String.prototype.includes`, proved equal to "occurs at some position".
  It also holds `String(i)`, with its inverse and injectivity.
- `messages.dfy`: the message record, the id/clock environment, and the thrown errors.
- `history.dfy`: the history mapper of `loadSession`.
- `reply.dfy`: the reply selector of `sendMessage`.
- `request.dfy`: parameters as an insertion-ordered JavaScript object; query and form payloads.
- `chat.dfy`: option defaults, the state, and the four operations.
- `properties.dfy`: lemmas relating operations, and the request and reply formats on sample inputs.

Message text is a JSON value, not a string. The hook stores `kwargs.content` and
`output`/`text` as they come, and these may be numbers, arrays or objects.

Behaviour of the code that differs from what one might expect of the widget (the model follows
the code):

- The waiting flag is not cleared on failure. The code clears it only on normal completion.
  The flag stays raised when `fetch` rejects, or when the body is the JSON literal `null` (reading `output` of `null` throws). See `Chat.SendMessage` and
  `ChatProperties.SendWaitingFlag`.
- The pretty-printed dump is used not only when neither `output` nor `text` is present, but
  also when the chosen member is present but falsy (`""`, `0`, `false`), even
  if `text` holds a message (`Reply.FalsyOutputShadowsText`). The code also dumps a non-empty
  JSON string body such as `"\"hi\""` instead of unwrapping it (`Reply.ReplyContent`).
- The sender is read from the entry's `id` member. For an array id the code uses
  `Array.prototype.includes`, which tests for an element equal to `HumanMessage`. For a number, boolean or object id the call throws, so the whole
  load fails.
- A non-array `data`, a `null` history entry or a `null` body also make `loadSession` throw.
  The session id is already set and stored at that point, and the list is unchanged
  (`LoadFailed`).
- `sendMessage` always sends a form body, with the configured method. With GET configured,
  browsers refuse such a request (see `Chat.SendMessage` under "Left out").

## Model

| member | source | states |
|---|---|---|
| Chat.Resolve | src/composables/useChat.ts:24-32 | an omitted option takes its default: POST with no headers, keys `sessionId` and `chatInput`, no initial messages, load the previous session; supplied options are kept |
| Chat.InitialMessages | src/composables/useChat.ts:35-42 | one bot message per initial text, same count and order, text equal to the configured string |
| Chat.Init | src/composables/useChat.ts:35-48 | the initial messages are one bot message per configured text, in order; the welcome message is the first of them (so from the bot), or none when there are none; the list is exactly the remaining initial messages in order, all from the bot; no session id; not waiting |
| Chat.SessionFor | src/composables/useChat.ts:60-64 | a stored non-empty id is reused; a missing or empty one is replaced by the fresh uuid; the result is never empty |
| Chat.LoadSession | src/composables/useChat.ts:56-118 | disabled: nothing changes, no request, resolves to nothing; enabled: never the disabled outcome; the stored cell and the current session id both hold the session id, even when the request or mapping throws, and are set before the request; success happens exactly when the reply maps, and then the list is replaced wholesale by the mapped history and the call resolves to that id; failure leaves the list unchanged; welcome and waiting are untouched |
| Chat.StartSession | src/composables/useChat.ts:122-128 | the fresh id becomes both the current and the stored id; the list is reset to the initial messages after the welcome; welcome, waiting and configuration are untouched |
| Chat.SendBegin | src/composables/useChat.ts:132-139 | before any request, a user message with exactly the given text is appended after the unchanged list, and the waiting flag is raised |
| Chat.SendMessage | src/composables/useChat.ts:131-185 | the request is built from the state after the user message; it completes exactly when a reply arrives and selection does not throw; on completion the old list is an unchanged prefix followed by the user message and exactly one bot message carrying the selected content, and waiting is lowered; otherwise only the user message is added and waiting stays raised |
| History.MapFrom | src/composables/useChat.ts:108-113 | mapping succeeds exactly when every entry maps; the result has the same length as `data` and its k-th element is the k-th entry's message at position start+k |
| History.EntryFacts | src/composables/useChat.ts:108-113 | an entry fails exactly when it is `null` or its id is a number, boolean or object; otherwise its id reads back as its position, its text is `kwargs.content` when truthy and `''` otherwise, and its sender is the user exactly when the id contains `HumanMessage` |
| History.HistoryEntries | src/composables/useChat.ts:107-113 | the whole history maps exactly when no entry is unmappable; it keeps length and order, the k-th message has id `String(k)` and the k-th clock reading, text from `kwargs.content` or `''`, and a user sender exactly when the entry is marked human |
| History.HistoryIdsDistinct | src/composables/useChat.ts:109 | positional ids are pairwise distinct within one mapped history |
| History.HistoryFromBody | src/composables/useChat.ts:100-107 | an empty body, an unparseable body, or a decoded value without `data` (or with `data: null`) yields the empty history; a `data` array is handed to the mapper and its result is the history; a `null` body throws |
| History.HistoryFailureCases | src/composables/useChat.ts:101-113 | the history throws exactly when the body decodes to `null`, `data` is present but not an array, or some entry is unmappable |
| Text.IncludesIff | src/composables/useChat.ts:111 | the substring test holds exactly when the marker occurs at some position of the id |
| Text.ShorterExcludes | src/composables/useChat.ts:111 | a string shorter than the marker never contains it |
| Text.NatToString | src/composables/useChat.ts:109 | `String(i)` is a canonical decimal numeral: digits only, no leading zero, one digit exactly for i below 10 |
| Text.ParseNatToString | src/composables/useChat.ts:109 | reading back the decimal id of position i gives i |
| Text.NatToStringInjective | src/composables/useChat.ts:109 | two positions get the same id exactly when they are equal |
| Reply.ReplyContent | src/composables/useChat.ts:173-176 | throws exactly for a `null` decoded value; for an object, a truthy chosen member (non-null `output`, else non-null `text`, else `''`) is the content, a falsy one becomes the pretty dump when the object has a member, and an empty object gives `''`; any other decoded value (array, string, number, boolean) gives its pretty dump when it has keys (a non-empty array or string) and `''` otherwise |
| Reply.SelectReply | src/composables/useChat.ts:158-176 | an empty body gives `''`; a non-empty non-JSON body is passed through verbatim; a body that parses is selected from by the content rules of its decoded value; selection throws exactly for a body that decodes to `null` |
| Reply.OutputWins | src/composables/useChat.ts:173 | a truthy `output` is the content whatever `text` holds |
| Reply.FalsyOutputShadowsText | src/composables/useChat.ts:173-175 | a falsy non-null `output` stops `??` from reaching `text`, so the content is the dump of the whole object |
| Reply.FalsyContentMeansNoKeys | src/composables/useChat.ts:173-176 | given a pretty-printer that never returns `''`, a falsy content only comes from a decoded value with no keys |
| Request.Assign | src/composables/useChat.ts:141-146 | assigning a new key appends it at the end; assigning an existing key keeps the length |
| Request.AssignLookup | src/composables/useChat.ts:141-146 | after assigning a key, reading it gives the new value and every other key reads as before |
| Request.AssignKeys | src/composables/useChat.ts:141-146 | assignment keeps the order of existing keys and never duplicates a key |
| Request.FormOf | src/composables/useChat.ts:148-150 | one text part per parameter in order, then one `files` part per file in order |
| ChatProperties.SendParamsFields | src/composables/useChat.ts:141-146 | with non-colliding keys: `action=sendMessage`, the session key maps to the current id or `''`, the input key maps to the text, `metadata` is present exactly when truthy metadata is configured, and there are no other parameters |
| ChatProperties.InputKeyShadowsAction | src/composables/useChat.ts:141-145 | an input key spelled `action` replaces the action with the user's text |
| ChatProperties.SendFormFiles | src/composables/useChat.ts:148-150 | the send form ends with one `files` part per attached file, in order |
| ChatProperties.LoadRequestFields | src/composables/useChat.ts:67-99 | when the session key is neither `action` nor `metadata` (the input key is unconstrained): the history request carries `action=loadPreviousSession`, the session id under the session key, and `metadata` exactly when truthy metadata is configured, with no other parameter; it is a query string exactly when GET is configured |
| ChatProperties.SessionRoundTrip | src/composables/useChat.ts:60-66 | the id one load stores is the id a later load (same or fresh hook) reads back, leaving storage unchanged |
| ChatProperties.StartThenLoad | src/composables/useChat.ts:122-126 | after `startSession` a load reuses the new id and requests its history |
| ChatProperties.EmptyBodyClearsMessages | src/composables/useChat.ts:101-114 | an empty reply body completes the load and empties the message list, whatever it held |
| ChatProperties.DisabledLoadIsIdentity | src/composables/useChat.ts:57 | a disabled load, repeated, leaves hook and storage exactly as they were |
| ChatProperties.HumanSampleEntry | src/composables/useChat.ts:108-113 | the entry `{id: "HumanMessage-1", kwargs: {content: "hi"}}` at position 0 maps to the user message `hi` with id `0` |
| ChatProperties.AiSampleEntry | src/composables/useChat.ts:108-113 | the entry `{id: "AIMessage-2", kwargs: {content: "hello"}}` at position 1 maps to the bot message `hello` with id `1` |
| ChatProperties.MapTwoEntries | src/composables/useChat.ts:108-113 | a two-entry history whose entries both map yields their two messages, in order |
| ChatProperties.SampleHistoryMaps | src/composables/useChat.ts:107-113 | the two sample entries map to the user message `hi` with id `0`, then the bot message `hello` with id `1` |
| ChatProperties.SampleReplies | src/composables/useChat.ts:173-176 | `{"foo": "bar"}` gives its pretty dump; `{}` gives `''` |
| ChatProperties.SendWaitingFlag | src/composables/useChat.ts:138-184 | whatever the flag was before: a completed send adds a user message with the text then a bot message and lowers the flag; an unreachable webhook leaves the flag raised with only the user message added |
| ChatProperties.PlainTextReply | src/composables/useChat.ts:165-171 | a non-JSON reply body becomes the bot message verbatim |

## Left out

- `fetch`, `FormData` and URL building are not modelled. Requests are recorded as data: a
  parameter list, a `Query` or `Form` payload, the method and headers. The webhook's reply
  is an input and does not depend on the request.
- Object key order: JavaScript lists integer-like keys (such as a session key `"0"`) before
  the others. `Request.Assign` keeps plain insertion order.
- Json.Json: decoded objects lose their member order, because `JObject` holds a map. So
  the pretty dump of a reply (`Json.Codec.pretty`) and the serialised metadata
  (`Json.Codec.stringify`) depend only on the set of members. `JSON.stringify` writes
  members in object order, so `{"a":1,"b":2}` and `{"b":2,"a":1}` give different dumps in
  JavaScript, but the model gives them the same bot text.
- Chat.SendMessage: with GET configured, a browser rejects the `fetch`, because the request
  has a form body. The only faithful reply input is then `Unreachable`. The model does not
  tie the reply to the method, so it also admits a `Received` reply for a GET send, which
  completes.
- `localStorage` is a single optional-string cell. Storage failure is not handled by the code
  and is not modelled.
- `uuidv4()` and `new Date().toISOString()` are oracles in `Messages.Env`. UUIDs are only
  known to be non-empty.
- The text formats of `JSON.parse` and `JSON.stringify` are not modelled; they are the
  oracle functions of `Json.Codec`. JSON numbers are reals, with no NaN.
- Vue reactivity (`ref`, `computed`) is reduced to plain record fields. The initial messages
  are computed once and stored in the hook.
- The fire-and-forget `loadSession()` at construction (line 188) is not composed with
  `Chat.Init`. It is `Chat.LoadSession` applied to the constructed hook. Its synchronous part
  runs before `useChat` returns: the storage read or write and setting the current session
  id (lines 57-66). With `loadPreviousSession` on, which is the default, a caller therefore
  never sees the state with no session id that `Chat.Init` describes. That state is the one
  before the auto-load starts (line 47), not the hook the caller gets back.
- Overlapping `sendMessage`/`loadSession` calls are not modelled. The code does not
  coordinate them, and the model treats the operations as sequential.
- Exceptions are modelled only as the `LoadFailed`/`SendFailed` outcome and the state at the
  throw. The error value is not inspected.
- `src/main.ts` (application bootstrap and component registration) is not part of this model.
