# Chat session client — a Dafny model

This project models the session-state core of a browser-only chat client
(`app.js`). The client keeps one tab-wide state with two parts: the current
display name and the ordered message list. Handlers join and leave the chat,
send a line of text with an optional attachment, clear the list, and ask a
chat-completion service for a reply. While a request is in flight, a
"thinking" placeholder is shown. It carries a correlation id built from the
clock. When the request ends, every message with that id is filtered out and
the final reply or error is appended.

Layout, one module per concern:

- `wrappers.dfy` (`Wrappers`): `Option`, standing for `null`, `undefined` and absent fields.
- `text.dfy` (`Text`): JavaScript's `trim`, `startsWith`, the `s || fallback` default, and the decimal form of a number in a template literal.
- `messages.dfy` (`Messages`): the `Media` and `Message` records and the two compose guards (Send, and the "ask AI" button).
- `render.dfy` (`Render`): the per-message style class, the attachment view chosen by MIME prefix, and the order of the rendered list.
- `bridge.dfy` (`Bridge`): the synchronous parts of the assistant request. These are key lookup, the context window, the placeholder id, the placeholder filter, reply extraction and the error text.
- `session.dfy` (`Session`): class `ChatSession`. Its fields are `username` and `messages`. Its methods are the state-changing handlers, and each one states the whole new state in terms of the old one.

Inputs that come from the host are parameters:
- each `Date.now()` read (`now`, `idClock`, `sentAt`, `shownAt`, `repliedAt`);
- the answer to `confirm()`;
- the two stored keys;
- the file picker's result (`Attachment`);
- the outcome of the HTTP request (`Outcome`).

The source's message field `user` is called `author` here. It is an
`Option<string>` because a message copies `state.username`, which may be
`null`. Inside a template literal that prints as `"null"` (`AuthorText`).

A message the user composes always has text or media (`Messages.Compose`
and `Messages.ComposeQuestion` ensure `Displayable`). An assistant reply need
not: a completion whose content is non-empty but all white space passes the
truthiness test at `app.js:185`, trims to `""` and becomes an assistant message
with no text. `Bridge.ExtractReplyEmptyIff` and `Bridge.FinalTextDisplayable`
state exactly when this happens.

## Model

| member | source | states |
|---|---|---|
| `Text.Trim` | app.js:104 | the trimmed text is no longer than the input and neither starts nor ends with white space |
| `Text.TrimIsSlice` | app.js:104 | the trimmed text is a contiguous slice of the input, and only white space is cut off on either side |
| `Text.TrimEmptyIff` | app.js:107 | a line trims to the falsy `""` exactly when it is all white space |
| `Text.TrimIdempotent` | app.js:104 | trimming an already trimmed string changes nothing |
| `Text.TrimExample` | app.js:104 | `"  a b "` trims to `"a b"`: the outer spaces go and the inner one stays |
| `Text.TrimKeepsTrimmed` | app.js:186 | a string that neither starts nor ends with white space is unchanged by trimming |
| `Text.OrElse` | app.js:56 | `name \|\| fallback` gives the name when it is non-empty, otherwise the fallback, so the caption is never empty |
| `Text.DecimalRoundTrip` | app.js:156 | the decimal digits of the clock read back as the same number |
| `Text.DecimalInjective` | app.js:156 | two clock values print the same exactly when they are equal |
| `Messages.Compose` | app.js:104-114 | Send posts nothing when the line is blank and there is no file, or when the file cannot be read; otherwise the message has the trimmed text, the current name, the clock, the media iff a file was read, and no correlation id, and it always has text or media |
| `Messages.ComposeQuestion` | app.js:244-247 | "ask AI" refuses exactly the all-white-space line; otherwise the message is the trimmed text under the current name with no media, and it is never empty |
| `Render.StyleClass` | app.js:40 | the class is one of me/ai/other: "me" iff the author is the viewer, "ai" iff it is not the viewer and is the AI sentinel, "other" for the rest; the viewer test comes first |
| `Render.ViewMedia` | app.js:52-69 | an `image/` type is shown as an image and a `video/` type as a player, anything else as a download link; the source is always the data URL; an empty name falls back to "image", "download" or "file" |
| `Render.MediaPrefixesExclusive` | app.js:53-58 | no MIME type starts with both `image/` and `video/`, so the order of the two tests is irrelevant |
| `Render.RenderInOrder` | app.js:38-73 | the rendered list has one view per message and the i-th view shows the i-th message |
| `Render.RenderAppend` | app.js:28-31 | after an append, the rendered list is the old rendered list followed by the new message's view |
| `Bridge.ResolveKey` | app.js:143-144 | the session key wins when non-empty, else the durable key; an empty key counts as none; there is no key exactly when both are missing or empty |
| `Bridge.ToEntry` | app.js:151 | the role is "assistant" iff the author is the AI sentinel; assistant content is the raw text and user content is `author + ": " + text` |
| `Bridge.HistoryWindow` | app.js:151-153 | the window has min(8, n) + 1 entries: the role-mapped last min(8, n) messages in order, then one user entry for the triggering message |
| `Bridge.TriggerAppearsTwice` | app.js:151-153 | when the triggering user message is already last in the list, its entry appears twice at the end of the window |
| `Bridge.HistoryForgetsOlder` | app.js:151 | messages older than the last eight do not affect the window |
| `Bridge.StyleAgreesWithRole` | app.js:151 | unless the viewer is named "AI", a message is styled "ai" exactly when it is sent with the assistant role |
| `Bridge.TypingId` | app.js:156 | the placeholder id starts with the fixed `__typing_` prefix |
| `Bridge.TypingIdCollides` | app.js:156 | two placeholder ids are equal exactly when their clock reads are equal |
| `Bridge.Placeholder` | app.js:157 | the placeholder is an AI message that carries the correlation id and has text |
| `Bridge.RemoveTagged` | app.js:190 | the filter never lengthens the list, leaves no message with the id, and keeps only messages of the input |
| `Bridge.RemoveTaggedCounts` | app.js:190 | up to order, every tagged message is dropped and every other message is kept as many times as it occurred |
| `Bridge.RemoveTaggedAppend` | app.js:196 | filtering a concatenation is concatenating the filtered parts, so kept messages stay in their original order |
| `Bridge.RemoveTaggedUntouched` | app.js:190 | a list with no message carrying the id is left exactly as it was |
| `Bridge.PlaceholderRemovedAlone` | app.js:189-191 | messages posted before and after the placeholder survive in order and only the placeholder goes |
| `Bridge.RoundTripNetEffect` | app.js:156-191 | an undisturbed round trip adds exactly the user's message and one final assistant message |
| `Bridge.ExtractReply` | app.js:184-187 | the reply is the trimmed first completion when the whole `choices[0].message.content` chain is present and non-empty, otherwise the fixed apology |
| `Bridge.ExtractReplyTrimmed` | app.js:185-187 | the reply never begins or ends with white space |
| `Bridge.ExtractReplyEmptyIff` | app.js:185-187 | the reply is empty exactly when the content is present, non-empty and all white space |
| `Bridge.FinalText` | app.js:179-197 | on success the text is the extracted reply; a non-2xx status gives `"AI error: OpenAI error: <status> <body>"`; a thrown error gives `"AI error: " + message`; every failure text starts with `"AI error: "` |
| `Bridge.FinalTextDisplayable` | app.js:191-197 | the final assistant message has text unless a blank completion came back |
| `Session.ChatSession.constructor` | app.js:10 | the initial state has no name and no messages |
| `Session.ChatSession.AddMessage` | app.js:28-31 | the list becomes the old list plus the new message at the end, and the name is unchanged |
| `Session.ChatSession.JoinChat` | app.js:80-85 | joins iff the input is not all white space, setting the name to the trimmed input; a refused join changes nothing; the messages never change |
| `Session.ChatSession.Logout` | app.js:93-95 | the name becomes null and the messages are unchanged |
| `Session.ChatSession.ClearChat` | app.js:223-226 | unconfirmed changes nothing; confirmed empties the list; the name is kept either way |
| `Session.ChatSession.SendMessage` | app.js:101-115 | the returned message is the compose result for the old name, and the list grows by exactly that message or not at all |
| `Session.ChatSession.AskAi` | app.js:243-248 | the returned message is the question composed for the old name, and the list grows by exactly that message or not at all |
| `Session.ChatSession.BeginAiRespond` | app.js:142-157 | with no key, exactly one AI advisory message is appended and nothing else changes; with a key, the window is taken from the list before the placeholder, and exactly the placeholder tagged with the clock-made id is appended |
| `Session.ChatSession.FinishAiRespond` | app.js:189-197 | on success and on failure, the list becomes the old list with every tagged message removed, followed by exactly one AI message with the final text |
| `Session.ChatSession.SendAndAwaitReply` | app.js:101-199 | a send and its undisturbed round trip: nothing if the compose guard refuses; otherwise the user's message followed by the advisory, or by the final reply as long as no earlier message carries the same id |

## Left out

- Persistence: `loadState` and `saveState` (`localStorage`, JSON parse and stringify) are not modelled. Saving after each change is a no-op here, and the repair of a missing `messages` field after loading (app.js:84) has no counterpart because the list always exists. Saving is assumed never to fail: in the source, a `saveState` that throws inside the `addMessage` at app.js:191 does so after the push, and the catch at app.js:193-197 then appends a second "AI error: …" message; the model has no such path.
- Credential storage: `saveKey`, `showKeyModal` and `hideKeyModal` are storage and UI. The stored keys reach the model only as the two inputs of `ResolveKey`.
- The HTTP exchange: the request payload (model name, system prompt, sampling parameters), `fetch`, `resp.ok`, `resp.text()` and `resp.json()`. The model receives the outcome as `Outcome`. A JSON decode failure counts as `Thrown`. A non-string `content` (whose `trim` would throw) is not representable.
- `fileToData`: reading a file into a data URL is browser I/O. The result arrives as `Attachment`, and a read failure abandons the send.
- DOM work in `renderMessages`: node creation, the `toLocaleString` timestamp line and scrolling. Only the class, attachment view and order are modelled. The same goes for clearing the inputs, the `alert` calls and the view switching in `joinChat`, `logout` and `setup`.
- Concurrency: several `aiRespond` calls may overlap at their `await`. The model makes each synchronous phase an atomic method. Interleavings are captured only through `Bridge.PlaceholderRemovedAlone`, `Bridge.TypingIdCollides` and the condition in `SendAndAwaitReply`.
- Session.ChatSession.SendMessage: the send is atomic. In the source, `sendMessage` suspends at `await fileToData(file)` (app.js:111) and reads `state.username` and `Date.now()` only afterwards (app.js:114), so a logout, clear or assistant finish during the file read changes the author or the list the message joins. The model reads the author at the time of the call, before the file read, and interleaves nothing.
- Session.ChatSession.SendAndAwaitReply: promises the net effect only when no earlier message carries the same correlation id. With a same-millisecond collision, `FinishAiRespond` still states the exact result.
- `script.js` is not part of this model. It is a separate stateless widget.
