# Rate My Professor chat assistant: a Dafny model of its request and transcript logic

This is a model of the two core files of the Rate My Professor retrieval-augmented chat assistant. It covers:

- **The chat route** (`app/api/chat/route.js`). It takes the question from the last message of the posted conversation and formats the first five ranked matches into a "Retrieved and ranked professor data" block. It appends that block to the question and builds the two-message completion input: the fixed system prompt, then the user turn. It then relays the streamed completion, forwarding only chunks whose content is truthy.
- **The chat page** (`app/page.js`). This is a `Home` object holding the transcript, the input field and the colour mode. Sending appends the user's message and an empty assistant placeholder, and posts the old transcript plus the new message. Each decoded chunk of the reply is appended to the last message. The mode toggles between light and dark. The Send button and the Enter key decide when a message is sent.

Modules:

| file | module | what it holds |
|---|---|---|
| `results.dfy` | `Results` | `Option` and `Result` |
| `js.dfy` | `Js` | JavaScript values as they occur in match metadata, truthiness, template-literal text, `\|\|` with a fallback, `Array.prototype.join`, `String.prototype.trim`, and the TypeErrors the code can throw |
| `conversation.dfy` | `Conversation` | roles and messages |
| `prompt_block.dfy` | `PromptBlock` | ranked matches, the entry template, and the block; `AssembleBlock` is the `forEach` loop |
| `chat_route.dfy` | `ChatRoute` | the system prompt, the question, and the completion input |
| `stream_relay.dfy` | `StreamRelay` | completion chunks, `chunk.choices[0]?.delta?.content`, and the relay loop |
| `chat_page.dfy` | `ChatPage` | the state updaters as functions, and the `Home` class whose methods apply them |
| `end_to_end.dfy` | `EndToEnd` | how the page's request and the route's reply fit together |

JavaScript semantics that the model writes out:

- `x || "N/A"` yields "N/A" for every falsy value: `undefined`, `null`, `false`, `0`, `NaN` and `""`. A rating of 0 or an empty subject therefore prints "N/A", exactly as a missing one does.
- `(k || []).join(', ')` yields "" for falsy keywords and joins an array in order. It throws a TypeError for truthy keywords that are not an array: a string, a number or `true` has no `join`.
- A match without metadata throws when `subject` is read, and an empty conversation throws when `content` is read. The route turns both into its error response. Here they are `Err` results.
- A template literal renders `undefined` as "undefined". So a missing `rankScore` prints "undefined", not "N/A".
- The input is trimmed with JavaScript's notion of white space: `Js.IsSpace` lists the white-space and line-terminator characters.

How the code behaves at its edges:

- `route.js` calls `rankResults` at line 86 but neither defines nor imports it. The model takes the ranked list, with its `rankScore` values, as an input and assumes no scoring formula (see "Left out").
- Assembling the block throws on a match with no metadata object, when `subject` is read (line 92). It also throws on keywords that are truthy but not an array, because they have no `join` (line 95).
- An empty conversation throws a TypeError when `content` is read at line 67. The `catch` at lines 142-147 turns every such error into the 500 JSON response.

## Model

| member | source | states |
|---|---|---|
| `Js.TextOr` | app/api/chat/route.js:92-96 | `v \|\| fallback` in a template: a truthy value gives its own text, every falsy value gives the fallback |
| `Js.JoinOrEmpty` | app/api/chat/route.js:95 | falsy keywords give ""; an array gives its items joined with the separator; any other truthy value throws "join is not a function" |
| `Js.JoinAppend` | app/api/chat/route.js:95 | joining keeps order: the join of `xs + ys` is the join of `xs`, the separator, then the join of `ys` |
| `Js.JoinLength` | app/api/chat/route.js:95 | a join is as long as its items plus one separator per gap, so nothing is added or lost |
| `Js.Trim` | app/page.js:204 | `trim()` is empty exactly when every character is white space, and otherwise neither starts nor ends with white space |
| `PromptBlock.Shown` | app/api/chat/route.js:89 | `slice(0, 5)` keeps at most five matches: all of them when fewer, otherwise exactly five |
| `PromptBlock.Layout` | app/api/chat/route.js:90-99 | an entry opens with a newline and the professor's line, and closes with the rank-score line followed by the template's trailing indented blank lines |
| `PromptBlock.EntryText` | app/api/chat/route.js:90-99 | an entry yields text exactly when its fields can be read, and that text is the layout of those fields, opening with the match's id line and closing with its rank score line |
| `PromptBlock.LayoutInOrder` | app/api/chat/route.js:90-99 | an entry is a newline, then the professor, subject, rating, difficulty, keywords, review-snippet and rank-score lines in that order, each indented and ending in a newline, then the trailing indented blank lines |
| `PromptBlock.EntryLines` | app/api/chat/route.js:90-99 | the text of a readable match is its seven lines in template order, where subject, rating, difficulty and snippet print their text when truthy and "N/A" when falsy, and keywords print their ", " join |
| `PromptBlock.EntryFails` | app/api/chat/route.js:90-99 | an entry throws exactly when the match has no metadata (reading `subject`) or its keywords are truthy but not an array (`join` is not a function), with that error |
| `PromptBlock.EntryFields` | app/api/chat/route.js:91-97 | the fields an entry prints are the match's id and rank score, the keywords joined with ", " (nothing when falsy), and each other field's text when truthy or "N/A" when falsy |
| `PromptBlock.Block` | app/api/chat/route.js:88-89 | the block always begins with the header, and no matches give exactly the header |
| `PromptBlock.AssembleBlock` | app/api/chat/route.js:88-100 | the `+=` loop over the first five matches produces exactly `Block`, or the first entry's error |
| `PromptBlock.BlockOnlyFirstFive` | app/api/chat/route.js:89 | matches after the fifth never affect the block |
| `PromptBlock.BlockAppendsInRankOrder` | app/api/chat/route.js:89-100 | below five matches, one more match appends its entry after all earlier entries, or makes the block throw its error |
| `PromptBlock.BlockListsEntries` | app/api/chat/route.js:88-100 | when no shown match throws, the block is the header followed by the shown matches' entries, concatenated in ranked order |
| `PromptBlock.BlockFails` | app/api/chat/route.js:89-100 | the block fails exactly when some shown match throws, and with the error of the first one that does |
| `PromptBlock.CollectAppend` | app/api/chat/route.js:89-100 | accumulating two runs of entries gives the first run's text then the second's; an error in the first run wins |
| `PromptBlock.CollectStep` | app/api/chat/route.js:89-100 | one `+=` step: the next entry is appended, or its error becomes the error of the whole block |
| `PromptBlock.CollectFails` | app/api/chat/route.js:89-100 | accumulation fails exactly when some entry failed, and with the first failure |
| `PromptBlock.CollectAllOk` | app/api/chat/route.js:89-100 | with no failure, accumulation is the plain concatenation of the entries in order |
| `PromptBlock.FalsyIsUndefined` | app/api/chat/route.js:92-96 | a falsy value prints like `undefined`, both behind `\|\| "N/A"` and in the keywords join |
| `PromptBlock.FalsyPrintsAsMissing` | app/api/chat/route.js:90-97 | replacing every falsy metadata value by a missing one leaves the entry unchanged |
| `PromptBlock.MissingFieldsEntry` | app/api/chat/route.js:90-97 | for a match whose metadata has no fields, the printed fields are its id, "N/A" for subject, rating, difficulty and review snippet, empty keywords, and its rank score |
| `ChatRoute.QueryText` | app/api/chat/route.js:67 | the question is the content of the last message; it exists exactly when the conversation is non-empty, and an empty one throws reading `content` |
| `ChatRoute.CompletionMessages` | app/api/chat/route.js:67-115 | the completion input exists exactly when the conversation is non-empty and the block builds; an empty conversation fails reading `content` before the block, otherwise a block error is the route's error |
| `ChatRoute.CompletionShape` | app/api/chat/route.js:102-115 | the completion input is exactly two messages: the system prompt (the text of lines 7-53), then a user message that starts with the last message's text, continues with the header, and ends with the block |
| `ChatRoute.EmptyConversationFails` | app/api/chat/route.js:67 | an empty conversation fails reading `content`, whatever the matches |
| `ChatRoute.EarlierTurnsNotForwarded` | app/api/chat/route.js:102-115 | turns before the last message do not change the completion input |
| `StreamRelay.ContentOf` | app/api/chat/route.js:125 | `choices[0]?.delta?.content` is present exactly when there is a first choice with a delta that has content, and is then that content |
| `StreamRelay.Forwards` | app/api/chat/route.js:126 | a chunk is forwarded exactly when its first choice has a delta whose content is present and non-empty |
| `StreamRelay.Forwarded` | app/api/chat/route.js:124-129 | at most one output per chunk, and never an empty one |
| `StreamRelay.Relay` | app/api/chat/route.js:124-129 | the relay loop sends exactly `Forwarded(chunks)` |
| `StreamRelay.ForwardedAppend` | app/api/chat/route.js:124-129 | relaying is in arrival order without merging: the output for `xs + ys` is the output for `xs`, then for `ys` |
| `StreamRelay.ForwardedOne` | app/api/chat/route.js:125-128 | a single chunk is forwarded as its own content exactly when that content is truthy, and dropped otherwise |
| `StreamRelay.ForwardedKeepsAllText` | app/api/chat/route.js:124-129 | dropping chunks loses no text: the forwarded texts concatenate to all chunk contents concatenated |
| `StreamRelay.ForwardedAllTruthy` | app/api/chat/route.js:124-129 | when every chunk has truthy content, every chunk is forwarded, one for one and in order |
| `ChatPage.WithExchange` | app/page.js:57-61 | sending grows the transcript by exactly two and keeps every earlier message: a user message with the input, then an assistant message with "" |
| `ChatPage.RequestBody` | app/page.js:68 | the posted body is the transcript before sending with one user message holding the input appended |
| `ChatPage.RequestBodyOmitsPlaceholder` | app/page.js:57-68 | the posted body is the new transcript without the empty assistant placeholder, i.e. the old transcript plus the user's message |
| `ChatPage.WithChunk` | app/page.js:79-86 | a chunk keeps the transcript length and every message but the last; the last keeps its role, and its content is the old content followed by the chunk |
| `ChatPage.WithChunks` | app/page.js:74-87 | a run of chunks keeps the transcript length, every message but the last, and the last one's role, and only extends the last one's content |
| `ChatPage.ChunksAccumulate` | app/page.js:74-87 | after a run of chunks, all but the last message are unchanged and the last message's content is its old content followed by every chunk in arrival order |
| `ChatPage.ReplyFillsPlaceholder` | app/page.js:57-87 | a reply streamed after sending ends up in the new assistant message, and nothing else changes |
| `ChatPage.ChunkingIrrelevant` | app/page.js:78-86 | two chunkings of the same text leave the same transcript |
| `ChatPage.Toggled` | app/page.js:100 | the mode becomes "dark" exactly when it was "light", and is always "light" or "dark" |
| `ChatPage.ToggleInvolution` | app/page.js:100 | on "light" and "dark", toggling changes the mode and toggling twice restores it |
| `ChatPage.SendEnabled` | app/page.js:204 | Send is enabled exactly when some character of the input is not white space |
| `ChatPage.SendsOnKey` | app/page.js:93 | a key press sends exactly when it is Enter without Shift |
| `ChatPage.EnterSendsBlankInput` | app/page.js:92-96 | with a single space typed, the Send button is disabled, yet Enter posts the greeting plus a user message holding that space |
| `ChatPage.EnterBypassesSendButton` | app/page.js:92-96 | from any state whose Send button is disabled, Enter without Shift still posts the old transcript plus the input, and appends the exchange |
| `ChatPage.Home.constructor` | app/page.js:39-46 | the page starts with the greeting alone, an empty input field and light mode |
| `ChatPage.Home.SetMessage` | app/page.js:193 | typing replaces the input and changes nothing else |
| `ChatPage.Home.SendMessage` | app/page.js:56-68 | the transcript becomes `WithExchange` of the old one, the input is reset to "", and the returned body is the old transcript plus the user's message |
| `ChatPage.Home.ReceiveChunk` | app/page.js:79-86 | the transcript becomes `WithChunk` of the old one; the input and the mode are unchanged |
| `ChatPage.Home.ReceiveReply` | app/page.js:74-88 | the read loop leaves the transcript as `WithChunks` of the old one and all chunks |
| `ChatPage.Home.HandleKeyPress` | app/page.js:92-97 | a key press sends exactly when it is Enter without Shift, with `SendMessage`'s effect; any other key changes nothing |
| `ChatPage.Home.ToggleMode` | app/page.js:99-101 | the mode becomes `Toggled` of the old one; nothing else changes |
| `EndToEnd.RouteAnswersSentMessage` | app/page.js:68 | the route's question for a posted body is the text just sent, and the completion input does not depend on the earlier transcript |
| `EndToEnd.ReplyReachesTranscript` | app/api/chat/route.js:124-129 | however the transport re-cuts the relayed texts, the final transcript is the old one, the user's message, and an assistant message holding every chunk's content in order |

## Left out

- The ranking function `rankResults` is called at `app/api/chat/route.js:86`, but the file neither defines nor imports it. As written, `rankResults` is an unbound identifier in an ES module, so line 86 throws a ReferenceError and every request ends in the 500 response. The model takes the ranked list as an input, as if the function existed, and does not model any scoring formula.
- The embedding call, the vector-index query and the completion call are foreign network services, so they are not modelled. That includes the `rating >= 3.5` filter, which the index applies, not this code.
- `ReadableStream` is not modelled: enqueueing, `controller.error`/`close` sequencing and cancellation are stream I/O. The relay is modelled as the sequence of texts it sends.
- `TextEncoder`/`TextDecoder` are not modelled. Chunks on both sides are already-decoded strings, and `EndToEnd.ReplyReachesTranscript` allows any re-chunking that keeps the text.
- The 500 JSON error response, the failure of `req.json()`, and `console` logging are I/O plumbing. Errors surface as `Err` results carrying the TypeError.
- Number formatting is not modelled. A number in the metadata carries the text JavaScript renders it as. `Js.Value` covers the kinds the metadata store holds: strings, numbers, booleans and lists of strings.
- `Js.Trim`: the contract states when the result is empty and that it has no white space at either end. It does not state that the result is the contiguous middle of the input, because that proof is too costly for the solver.
- `StreamRelay.ContentOf`: a chunk's content is modelled as a string or missing. Non-string content, and a chunk without a `choices` array, are not modelled.
- `ChatPage.Home.SendMessage` reads the current transcript and input. In the page, the closure sees the state of the last render, and the `setMessages` updaters apply to the latest state. Overlapping sends, whose chunks would all land in the newest last message, are not modelled as interleavings.
- React rendering, Markdown components, the MUI theme (`getTheme`), scrolling and `preventDefault` are UI.
