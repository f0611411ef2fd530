# BEX tutor chat: a Dafny model of the conversation state

This project models the state handling of the BEX ("Bugbox Tutor") chat
component, `src/assets/App.jsx`. The component keeps:

- a transcript of messages, each with a text and a sender (`'ChatGPT'` for the bot, `'user'` for the student);
- a typing flag and the input box;
- the onboarding modal flag and the student's name, age and lesson.

Three handlers change that state:

- `handleSend` skips a blank utterance. It answers a denied one with the
  filter's reason. For an accepted one it appends the student's entry, shows
  the typing indicator and hands the transcript to `processMessageToChatGPT`.
- `processMessageToChatGPT` builds the completion request unless offline (system
  message followed by the transcript mapped to role/content pairs). It ends the turn
  with exactly one bot entry: the offline notice, the reply, or an apology
  carrying the error. Then typing stops.
- `resetStudentInfo` clears the profile, truncates the transcript to the
  greeting and reopens the modal, but only when the user confirms.

Layout:

- `wrappers.dfy`: `Option` and `Result`.
- `js_text.dfy`: JavaScript `trim`/`trimStart`/`trimEnd` with their whitespace set, the blank-utterance guard, and decimal rendering of the HTTP status.
- `transcript.dfy`: the message record, the sender names, the greeting.
- `api_request.dfy`: the role mapping and the request body.
- `chat_completion.dfy`: the outcome of the network call and the bot text that ends a turn.
- `conversation.dfy`: the component state as a value, what each handler makes of it, and the lemmas.
- `tutor_app.dfy`: the component as a class whose methods update its fields step by step. Each method's postcondition ties the new state to the functions in `conversation.dfy`.

Outside inputs are parameters of a `Config` value: the API key read at start-up, the content filter and the system-message generator. The confirmation dialog's answer is a parameter of the reset, and the network outcome a parameter of the send.

Facts about the code that the model keeps:

- The sender stays a string; the role comes from comparing it with `'ChatGPT'` (src/assets/App.jsx:126).
- The offline check (line 108) runs before the request is built, so offline turns build no request.
- A 2xx reply whose content is `''` counts as missing, because the code tests `!replyContent` (line 154).
- A reset touches neither `isTyping` nor `inputValue` (lines 53-68).

## Model

| member | source | states |
|---|---|---|
| JsText.TrimStart | src/assets/App.jsx:72 | the result is the suffix of the input left after removing leading JavaScript whitespace; it does not start with whitespace |
| JsText.TrimEnd | src/assets/App.jsx:72 | the result is the prefix of the input left after removing trailing JavaScript whitespace; it does not end with whitespace |
| JsText.Trim | src/assets/App.jsx:72 | `trim()` is what `trimStart` leaves less only trailing whitespace, and it neither starts nor ends with whitespace |
| JsText.TrimEmptyIffAllWhitespace | src/assets/App.jsx:72 | `trim()` gives the empty string exactly when every character is whitespace |
| JsText.IsBlank | src/assets/App.jsx:72-75 | the send guard holds exactly for utterances made only of whitespace, the empty one included |
| JsText.NatToDecimal | src/assets/App.jsx:149 | the status in the error text is written as decimal digits without a leading zero, and they denote the status |
| Transcript.UserMessage | src/assets/App.jsx:89-96 | a student entry keeps the original text and never has the bot's sender name |
| ApiRequest.RoleOf | src/assets/App.jsx:126 | the role is `assistant` exactly when the sender is `'ChatGPT'`, and `user` otherwise |
| ApiRequest.ToApiMessages | src/assets/App.jsx:125-128 | the mapped list has the same length as the transcript |
| ApiRequest.ApiMessageAt | src/assets/App.jsx:125-128 | the k-th pair has the k-th entry's text as content and its sender's role, so order is kept |
| ApiRequest.ToApiMessagesAppend | src/assets/App.jsx:125-128 | the mapping distributes over concatenation |
| ApiRequest.BuildRequest | src/assets/App.jsx:132-135 | the body names model `gpt-4o`; its first message is the system message, then the mapped transcript; its length is the transcript's plus one |
| ApiRequest.RequestMessageAt | src/assets/App.jsx:125-135 | element k+1 of the request is the role/content pair of transcript entry k |
| ChatCompletion.KeyUsable | src/assets/App.jsx:108 | a key is usable exactly when it is present, non-empty and not `'fake-key'`; an empty key means offline |
| ChatCompletion.HttpErrorMessage | src/assets/App.jsx:147-150 | the error for a non-ok response is `HTTP `, the status in decimal, `: `, then the response body |
| ChatCompletion.IsOk | src/assets/App.jsx:147 | `response.ok` holds exactly for statuses of the 2xx class |
| ChatCompletion.Resolve | src/assets/App.jsx:147-168 | the call succeeds exactly for a 2xx response with non-empty content, and then yields that content |
| ChatCompletion.TurnReply | src/assets/App.jsx:108-181 | offline the text is the notice; after a successful call it is the reply content; after a caught error it is the apology followed by exactly the error's message (see also the lemmas below) |
| ChatCompletion.OfflineReplyIsFixed | src/assets/App.jsx:108-122 | without a usable key the bot text is exactly the offline notice, whatever the network would have done |
| ChatCompletion.SuccessReplyIsVerbatim | src/assets/App.jsx:152-168 | a 2xx response with non-empty content is shown verbatim |
| ChatCompletion.HttpErrorReplyCarriesDetail | src/assets/App.jsx:147-181 | a non-ok response is shown as the apology followed by `HTTP <status>: <body>` |
| ChatCompletion.MissingContentReplyIsError | src/assets/App.jsx:152-156 | a 2xx response with absent or empty content is shown as the apology followed by the missing-content detail |
| ChatCompletion.ThrownReplyCarriesMessage | src/assets/App.jsx:169-181 | an error thrown by the call is shown as the apology followed by that error's message |
| ChatCompletion.TurnReplyNonEmpty | src/assets/App.jsx:108-181 | every way a turn ends shows a non-empty bot text |
| ChatCompletion.ServerErrorExample | src/assets/App.jsx:147-181 | status 500 with body `server error` shows `Sorry, I encountered an error. HTTP 500: server error` |
| Conversation.Initial | src/assets/App.jsx:30-47 | the mounted state: only the greeting, not typing, modal open, input and profile empty |
| Conversation.Accepted | src/assets/App.jsx:72-87 | an utterance passes both guards exactly when it is not all whitespace and the filter allows it |
| Conversation.AfterSend | src/assets/App.jsx:71-105 | a send keeps the old transcript as a prefix, adds at most two entries, and never touches the profile or the modal flag (per path: BlankSendIsNoOp, DeniedSendAppendsReason, AcceptedSendAppendsTwo) |
| Conversation.AfterProcess | src/assets/App.jsx:107-185 | ending a turn makes the transcript the snapshot plus one `'ChatGPT'` entry with the turn's reply, stops typing and changes nothing else |
| Conversation.RequestFor | src/assets/App.jsx:108-135 | a request is built exactly when the key is usable; it holds the current profile's system message, then the mapped snapshot |
| Conversation.SentRequest | src/assets/App.jsx:71-135 | a send issues a request exactly when the utterance is accepted and the key is usable; it has the old transcript's length plus two elements |
| Conversation.AfterReset | src/assets/App.jsx:49-69 | a confirmed reset leaves only the greeting, opens the modal and empties the profile; typing and input are never touched (declined: DeclinedResetIsNoOp) |
| Conversation.BlankSendIsNoOp | src/assets/App.jsx:72-75 | a blank utterance leaves the whole state unchanged and sends no request |
| Conversation.DeniedSendAppendsReason | src/assets/App.jsx:77-87 | a denied utterance appends one bot entry with the filter's reason; every other field is unchanged and no request is sent |
| Conversation.AcceptedSendAppendsTwo | src/assets/App.jsx:89-104 | an accepted utterance turns transcript T into T, the student's entry, one bot entry with the turn's reply; typing is off, the input is cleared, profile and modal are unchanged |
| Conversation.SendKeepsHistory | src/assets/App.jsx:71-105 | on every path the old transcript is a prefix of the new one; it grows by at most two, and by two exactly when the utterance is accepted |
| Conversation.SendClearsTyping | src/assets/App.jsx:71-185 | after a send, typing is on only if it was on before and the utterance was not accepted |
| Conversation.OfflineSend | src/assets/App.jsx:108-122 | offline, an accepted utterance adds the student entry and the offline notice, and no request is sent |
| Conversation.SentRequestShape | src/assets/App.jsx:98-135 | with a usable key, the request holds the profile's system message, then the mapped old transcript, then the utterance in the user role |
| Conversation.OfflineHelloExample | src/assets/App.jsx:30-122 | offline, `hello` on a fresh conversation gives greeting, student `hello`, offline notice |
| Conversation.DeclinedResetIsNoOp | src/assets/App.jsx:49-53 | a declined reset changes nothing |
| Conversation.ConfirmedResetRestoresGreeting | src/assets/App.jsx:53-68 | a confirmed reset empties name, age and lesson, leaves only the greeting and opens the modal; typing and input are untouched |
| Conversation.ResetIdempotent | src/assets/App.jsx:49-69 | two confirmed resets equal one, and a confirmed reset after any reset equals one |
| Conversation.ResetReturnsToInitial | src/assets/App.jsx:30-69 | with no pending turn and an empty input, a confirmed reset gives back the mounted state |
| TutorApp.App.constructor | src/assets/App.jsx:30-47 | the object starts in the mounted state |
| TutorApp.App.ResetStudentInfo | src/assets/App.jsx:49-69 | the new state is the reset of the old one; confirmed, only the greeting remains and the modal is open; declined, nothing changes |
| TutorApp.App.HandleSend | src/assets/App.jsx:71-105 | the new state and the request sent follow the send; the old transcript stays a prefix and grows by at most two |
| TutorApp.App.ProcessMessageToChatGPT | src/assets/App.jsx:107-185 | the transcript becomes the snapshot plus one bot entry, typing stops, and the request is sent only with a usable key |

## Left out

- Rendering: JSX, markdown and code highlighting, avatars, the blinking and talking-mouth effects, CSS (src/assets/App.jsx:187-282).
- `fetch`, headers, `JSON.stringify`, `response.text()` and `response.json()`. The model sees only what they produce, as a `FetchOutcome`; a parse failure of the JSON body is a thrown error with its own message.
- `window.confirm`: its answer is a boolean parameter of the reset.
- The content filter and the system-message generator: `./contentFilter` and `./tutorConfig` are not part of this model, so both are functions given in `Config`, and nothing is proved about their results.
- `Number(studentAge)`: JavaScript number coercion (NaN, floats) is not modelled. The generator receives the age string as entered.
- Timestamps (`toLocaleTimeString`, `'just now'`) and the `direction`, `avatar` and `position` fields: locale-dependent or presentation only.
- The onboarding inputs' `onChange` handlers (with `trimStart`), the chat box's `onChange` that sets `inputValue` (line 271) and the "Start Chat" button: UI event plumbing. The profile fields, the input and the modal flag are plain fields that the lemmas quantify over.
- `filterMessage` and `generateSystemMessage` are assumed not to throw. In the code, a throw from `generateSystemMessage` (line 130, before the `try` at line 137) skips the `finally`, so the turn would stay pending with no bot entry. A throw from `filterMessage` (line 77) would reject the send before anything changes. The claims that every accepted turn ends with one bot entry and with typing off (`AfterProcess`, `SendClearsTyping`, `TutorApp.App.ProcessMessageToChatGPT`) rest on this assumption.
- TutorApp.App.HandleSend: models a send as one atomic step. React's batching and the `await` between the pending state and the reply are not modelled. In the code, overlapping sends can lose entries, because the accepted path builds on the captured `messages` and the denied path uses a functional update. A reset during a pending turn loses only its truncation of the transcript: the late reply writes back the pre-reset snapshot plus its reply, while the cleared profile and the reopened modal remain.
- `debugLog` and `console` output.
