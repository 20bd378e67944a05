# Casey chat front-end: a Dafny model of its logic

This project models the logic of the React chat front-end `CaseyFrontEnd` and proves
properties of that model in Dafny:

- **the socket session client** (`src/services/websocketService.js`). This is one shared
  WebSocket. The handshake is sent from a 100 ms poll once the socket is open. Inbound
  frames go to three single-slot listeners. A close or error that was not asked for
  triggers a reconnect with linear back-off, up to 3 attempts. Modelled as the class
  `SessionClient.Session`. Its socket events and timers are methods that the
  environment calls.
- **the chat window** (`src/components/ChatWindow/ChatWindow.jsx`). Covered: the
  image-slider index that wraps around, streamed answers and their finalisation, the
  60-second warning countdown, the conversation-history request with 3 retries, the
  normalisation of stored messages, sending a prompt, and negative feedback. The pure
  rules are functions; the component state is the class `ChatWindow.ChatView`.
- **the document table of the admin page** (`src/components/Admin/Admin.jsx`). Covered:
  save, delete by id, edit by id, and the title search and category filter. Modelled as
  the class `Admin.AdminPage`, plus the list transforms as functions.
- **the conversation list of the side bar** (`src/components/Sidebar/Sidebar.jsx`).
  Covered: which entries are listed, with which title, and what a click sends.
- **the header** (`src/components/Header/Header.jsx`). Covered: the initials, the
  display name, the health flag and its precedence, the health check and the pop-up
  toggle.
- **the weather widget** (`src/components/Weather/weather.jsx`). Covered: the eight-point
  wind rose, the 12-hour clock text, the icon lookup, the per-day fold of the
  forecast, the five-element limits, and the state a fetch leaves behind.

Shared modules:

| module | what it holds |
|---|---|
| `Wrappers` | `Option` |
| `Text` | JavaScript's `trim` and `split(/\s+/)`, ASCII case mapping, `includes`, and the decimal rendering of a number |
| `JsMath` | JavaScript's truncating `%`, and lemmas on Euclidean division |
| `Seqs` | `filter`, and "is a subsequence of" |
| `Frames` | the JSON frames exchanged with the backend, and the user record |

Conventions:

- A string field that is absent, `null` or `""` is the empty string. The code treats
  all three alike wherever it reads such a field (`x || default`, `if (!x)`).
- A value that may be missing or not an array is an `Option`.
- The clock is a parameter. The same holds for `Date.now()` ids, ISO time stamps, the
  hour and minute of a time stamp, and the `toLocaleDateString` day key of a forecast
  entry.
- The outcomes of network requests are parameters.
- Frames handed to `sendMessage` are appended to an outbox.
- The session client appends what it makes observable to an effect log: frames sent,
  listeners called, and the give-up message.

The model follows the code in three places that may surprise a reader:

- `isConnected` is set as soon as the socket opens, before any handshake answer
  (`websocketService.js:47`).
- `disconnect` cannot cancel a pending reconnect, because the timeout's handle is never
  stored (`websocketService.js:118`).
- The warning listener always shows the default text. The client passes it the warning
  string, and the listener reads `.message` of that string (`ChatWindow.jsx:300-301`).

## Model

| member | source | states |
|---|---|---|
| SessionClient.HandshakePayload | CaseyFrontEnd-feature-1.0/src/services/websocketService.js:35-41 | The handshake frame. Without a user: token "default_token", brand "storeops", role "store manager". With a user: each non-empty token, brand or role of the user is used, and the email is always the user's. |
| SessionClient.CloseRequested | CaseyFrontEnd-feature-1.0/src/services/websocketService.js:25-28 | `close()` leaves the socket closing or closed, and keeps what its handlers closed over. |
| SessionClient.Invocation | CaseyFrontEnd-feature-1.0/src/services/websocketService.js:128-132 | Calling `onHandshakeSuccess` does nothing when it is absent, and calls a UI callback once. The closure passed by `sendMessage` sends its payload only on the current socket, and only if that socket is open. |
| SessionClient.Session.constructor | CaseyFrontEnd-feature-1.0/src/services/websocketService.js:1-9 | Initial module state: no socket, not connected, 0 attempts, no poll, no user, no listeners. |
| SessionClient.Session.ClearHandshakeInterval | CaseyFrontEnd-feature-1.0/src/services/websocketService.js:29-32 | Removes the pending handshake poll, if any. Nothing else changes. |
| SessionClient.Session.Connect | CaseyFrontEnd-feature-1.0/src/services/websocketService.js:16-44 | Connected with an open socket: only calls the continuation and creates no socket. Otherwise: the old socket is closed without the intentional flag, the poll is cleared, and exactly one new connecting socket carries the handshake built from the user. The session invariant is kept. |
| SessionClient.Session.ReplaceSocket | CaseyFrontEnd-feature-1.0/src/services/websocketService.js:24-44 | Closes and drops the current socket, clears the poll, and appends exactly one new socket, which becomes the current one. The other sockets are unchanged. |
| SessionClient.Session.HandleOpen | CaseyFrontEnd-feature-1.0/src/services/websocketService.js:46-55 | Only the current socket can open. Opening sets `isConnected` and starts exactly one 100 ms poll for that socket. |
| SessionClient.Session.HandleMessage | CaseyFrontEnd-feature-1.0/src/services/websocketService.js:57-84 | Handshake success: sets connected, resets attempts to 0, calls the continuation, and then also reaches the message listener. Session timeout: clears connected and reaches only the timeout listener. Warning: reaches only the warning listener. Any other frame: reaches only the message listener. |
| SessionClient.Session.HandleClose | CaseyFrontEnd-feature-1.0/src/services/websocketService.js:86-96 | A close of any socket: clears connected and the poll. It reconnects only if the close was not intentional, and the intentional flag is false afterwards. |
| SessionClient.Session.HandleError | CaseyFrontEnd-feature-1.0/src/services/websocketService.js:98-108 | An error behaves exactly like a close. |
| SessionClient.Session.HandleClosure | CaseyFrontEnd-feature-1.0/src/services/websocketService.js:86-96 | The shared close/error code. The new state is given for each case: intentional; not intentional with attempts used up; not intentional with attempts left. |
| SessionClient.Session.Reconnect | CaseyFrontEnd-feature-1.0/src/services/websocketService.js:111-121 | At 3 attempts it only reports giving up. Otherwise it adds one attempt and schedules exactly one timeout of 1000 × attempts ms. Attempts never exceed 3 (invariant). |
| SessionClient.Session.FireTimer | CaseyFrontEnd-feature-1.0/src/services/websocketService.js:48-54 | The poll (it only exists while its socket is open) stops itself and sends that socket's handshake; nothing else changes. A reconnect timeout (scheduled at lines 118-120) is removed and runs `connect` with the user stored when it fires and no continuation: the whole new state is that of `Connect`, with the fired timer gone. Flags, attempts, user and listeners are unchanged in both cases. |
| SessionClient.Session.SendMessage | CaseyFrontEnd-feature-1.0/src/services/websocketService.js:123-134 | On an open socket: sends exactly the payload, and nothing else changes. Otherwise: the whole new state of `connect` with the stored user: the old socket is closed, the poll cleared, and one new socket is created whose continuation sends the payload; nothing is sent now. Flags, attempts, user and listeners are unchanged in both cases. |
| SessionClient.Session.Disconnect | CaseyFrontEnd-feature-1.0/src/services/websocketService.js:170-182 | Without a socket: no change. With one: sets the intentional flag, closes and drops the socket, clears connected, the poll and the user. Pending reconnect timeouts survive. Attempts, listeners, effects and the timer counter are unchanged in both cases. |
| SessionClient.Session.OnMessage | CaseyFrontEnd-feature-1.0/src/services/websocketService.js:140-142 | The slot holds the new callback. |
| SessionClient.Session.OffMessage | CaseyFrontEnd-feature-1.0/src/services/websocketService.js:144-148 | The slot is emptied only when it holds the given callback. |
| SessionClient.Session.OnSessionTimeout | CaseyFrontEnd-feature-1.0/src/services/websocketService.js:150-152 | The slot holds the new callback. |
| SessionClient.Session.OffSessionTimeout | CaseyFrontEnd-feature-1.0/src/services/websocketService.js:154-158 | The slot is emptied only when it holds the given callback. |
| SessionClient.Session.OnWarning | CaseyFrontEnd-feature-1.0/src/services/websocketService.js:160-162 | The slot holds the new callback. |
| SessionClient.Session.OffWarning | CaseyFrontEnd-feature-1.0/src/services/websocketService.js:164-168 | The slot is emptied only when it holds the given callback. |
| SessionClient.MessagesComeFromTheCurrentSocket | CaseyFrontEnd-feature-1.0/src/services/websocketService.js:57-64 | A socket that delivers a frame, such as the handshake answer that runs `onHandshakeSuccess`, is open, and in a valid state it is the current socket, so `isSocketOpen()` holds while the continuation runs. |
| JsMath.JsRem | CaseyFrontEnd-feature-1.0/src/components/ChatWindow/ChatWindow.jsx:233 | JavaScript's `%`: equals Euclidean `%` for a non-negative left operand, keeps the sign of a negative one, and lies strictly between -n and n. |
| ChatWindow.NextSlide | CaseyFrontEnd-feature-1.0/src/components/ChatWindow/ChatWindow.jsx:229-236 | With 1 image or fewer: indices unchanged. Otherwise only the message's key changes. Its index moves to the next image, wrapping from the last to 0, and stays in [0, n). |
| ChatWindow.PrevSlide | CaseyFrontEnd-feature-1.0/src/components/ChatWindow/ChatWindow.jsx:220-227 | With 1 image or fewer: indices unchanged. Otherwise only the message's key changes. Its index moves to the previous image, wrapping from 0 to n-1, and stays in [0, n). |
| ChatWindow.NextPrevRestores | CaseyFrontEnd-feature-1.0/src/components/ChatWindow/ChatWindow.jsx:220-236 | "Next" then "previous", or the reverse order, shows the original slide. |
| ChatWindow.NavigateWraps | CaseyFrontEnd-feature-1.0/src/components/ChatWindow/ChatWindow.jsx:220-236 | After any run of clicks the slide is (start + next clicks − previous clicks) mod n. |
| ChatWindow.ImageLinks | CaseyFrontEnd-feature-1.0/src/components/ChatWindow/ChatWindow.jsx:318-323 | A non-array gives no images. Otherwise there is one link per image, in order: the base URL joined to the path, with the score kept. |
| ChatWindow.Streamed | CaseyFrontEnd-feature-1.0/src/components/ChatWindow/ChatWindow.jsx:358-369 | The streamed text is the previous streamed text followed by the untrimmed chunk. |
| ChatWindow.Finalised | CaseyFrontEnd-feature-1.0/src/components/ChatWindow/ChatWindow.jsx:328-345 | The final answer's text is the streamed text followed by the trimmed last chunk, sent by the AI. |
| ChatWindow.StreamAllText | CaseyFrontEnd-feature-1.0/src/components/ChatWindow/ChatWindow.jsx:358-369 | Any run of chunks accumulates as their concatenation, in arrival order. |
| ChatWindow.StreamThenFinalise | CaseyFrontEnd-feature-1.0/src/components/ChatWindow/ChatWindow.jsx:328-369 | Streamed chunks, then a final chunk, give the chunks joined followed by the trimmed final chunk. |
| ChatWindow.HelloExample | CaseyFrontEnd-feature-1.0/src/components/ChatWindow/ChatWindow.jsx:328-345 | "Hel" streamed, then "lo" final, gives "Hello". |
| ChatWindow.FinalTextAsWritten | CaseyFrontEnd-feature-1.0/src/components/ChatWindow/ChatWindow.jsx:332-333 | The final text as written: the streaming text of the captured registration, followed by the trimmed last chunk. |
| ChatWindow.CapturedAtFinal | CaseyFrontEnd-feature-1.0/src/components/ChatWindow/ChatWindow.jsx:146-148 | The registration in force at the final frame: none streaming after a prompt sent from this window, whose send cleared streaming and raised the typing flag; otherwise the first chunk, whose arrival raised the typing flag and so re-rendered the parent. |
| ChatWindow.AsWrittenKeepsEnds | CaseyFrontEnd-feature-1.0/src/components/ChatWindow/ChatWindow.jsx:328-333 | As written, an answer to a prompt sent here keeps only its trimmed last chunk, and any other answer keeps only its first chunk and its trimmed last chunk. |
| ChatWindow.StaleRegistrationDropsStream | CaseyFrontEnd-feature-1.0/src/components/ChatWindow/ChatWindow.jsx:332-333 | After a prompt sent here, "Hel" then the final "lo" give "lo" as written and "Hello" as intended. An answer arriving with the typing flag down, "Hel", "lo" then the final "!", gives "Hel!" as written and "Hello!" as intended. |
| ChatWindow.CountdownTick | CaseyFrontEnd-feature-1.0/src/components/ChatWindow/ChatWindow.jsx:196-205 | A tick at 1 or below gives 0 and expires. Above 1 it decrements and stays at least 1. The value never goes negative. |
| ChatWindow.ExpiresExactly | CaseyFrontEnd-feature-1.0/src/components/ChatWindow/ChatWindow.jsx:191-207 | A countdown started at s ≥ 1 has expired within k ticks exactly when k ≥ s. From 60 it takes 60 ticks. |
| ChatWindow.RequestHistory | CaseyFrontEnd-feature-1.0/src/components/ChatWindow/ChatWindow.jsx:258-290 | The retry chain as written. No email: only the error. An open socket at the call: sent on this attempt. A closed one, with retries left: the next attempt runs once the timer finds the socket open, or once a reconnect completes its handshake, and it then sends, so no second timer is ever scheduled; without either the chain stays scheduled or stalls. The give-up error comes exactly when a call with a retry count of 3 or more finds the socket closed. |
| ChatWindow.HistoryRetryNeverGivesUp | CaseyFrontEnd-feature-1.0/src/components/ChatWindow/ChatWindow.jsx:274-289 | Started as the component starts it, the chain never shows the give-up error. It sends on the first call or the first retry, and a reconnect that never completes its handshake leaves it stalled with no error. |
| ChatWindow.RequestHistoryIntended | CaseyFrontEnd-feature-1.0/src/components/ChatWindow/ChatWindow.jsx:274-289 | The chain as its log lines and error text describe it: the request goes out at the first attempt that finds the socket open, at most the 3rd retry, and the error comes exactly when the first call and all 3 retries find it closed. |
| ChatWindow.HistoryGivesUpAfterThreeRetries | CaseyFrontEnd-feature-1.0/src/components/ChatWindow/ChatWindow.jsx:274-289 | As intended, four closed attempts give the error, and an open socket at the 3rd retry still sends. |
| ChatWindow.NormaliseMessage | CaseyFrontEnd-feature-1.0/src/components/ChatWindow/ChatWindow.jsx:382-399 | The sender is "user" exactly when `user_message` is truthy. The text is trimmed. The id is never empty and is the stored id when present. The images and the conversation are carried over. |
| ChatWindow.NormaliseHistory | CaseyFrontEnd-feature-1.0/src/components/ChatWindow/ChatWindow.jsx:382-399 | One shown message per stored message, same length and order. |
| ChatWindow.ResetSlideIndices | CaseyFrontEnd-feature-1.0/src/components/ChatWindow/ChatWindow.jsx:402-409 | The loop sets the index of exactly the messages with images to 0 and keeps every other index. |
| ChatWindow.ChatFailed | CaseyFrontEnd-feature-1.0/src/components/ChatWindow/ChatWindow.jsx:309-315 | An error chat frame adds no message, drops the streamed answer, stops typing and loading, and shows the error text. |
| ChatWindow.ChunkReceived | CaseyFrontEnd-feature-1.0/src/components/ChatWindow/ChatWindow.jsx:357-369 | A non-final frame adds no message. It extends the streamed text by the chunk and sets typing and loading. |
| ChatWindow.FinalReceived | CaseyFrontEnd-feature-1.0/src/components/ChatWindow/ChatWindow.jsx:328-356 | A final frame appends exactly one answer (earlier messages unchanged) and ends streaming, typing and loading. The new answer's slider is 0 and other sliders are kept. A new conversation schedules the delayed history request and stops being new. |
| ChatWindow.StoredMessagesReceived | CaseyFrontEnd-feature-1.0/src/components/ChatWindow/ChatWindow.jsx:381-414 | Stored messages replace the shown ones. Sliders of messages with images restart at 0 and the others are kept. Streaming, typing, loading and "new conversation" all end. |
| ChatWindow.PaneAfter | CaseyFrontEnd-feature-1.0/src/components/ChatWindow/ChatWindow.jsx:306-415 | Frames other than chat or stored messages leave the pane as it is. A chat frame adds at most one message, and exactly one iff it is a final non-error frame. No slider index ever becomes negative. |
| ChatWindow.PromptShown | CaseyFrontEnd-feature-1.0/src/components/ChatWindow/ChatWindow.jsx:473-484 | The prompt is appended as a user message. The streamed answer and the error are dropped, and typing and loading start. |
| ChatWindow.NegativeFeedback | CaseyFrontEnd-feature-1.0/src/components/ChatWindow/ChatWindow.jsx:542-548 | No frame without a reason. Otherwise a negative feedback frame with the reason. It carries the comment exactly when the reason is "other" and the comment is non-empty. |
| ChatWindow.ChatView.constructor | CaseyFrontEnd-feature-1.0/src/components/ChatWindow/ChatWindow.jsx:85-105 | Initial state: department "storeops", role from the user or "store manager", no messages, no streaming, no dialogs. |
| ChatWindow.ChatView.HistoryRequest | CaseyFrontEnd-feature-1.0/src/components/ChatWindow/ChatWindow.jsx:265-272 | The `get_conversation_history` frame. Its token, brand and role are never empty (defaults "abc123", "storeops", "store manager"), and it carries the user's email. |
| ChatWindow.ChatView.HandlePrevSlide | CaseyFrontEnd-feature-1.0/src/components/ChatWindow/ChatWindow.jsx:220-227 | Only the slider indices change, as `PrevSlide` says. No index becomes negative. |
| ChatWindow.ChatView.HandleNextSlide | CaseyFrontEnd-feature-1.0/src/components/ChatWindow/ChatWindow.jsx:229-236 | Only the slider indices change, as `NextSlide` says. No index becomes negative. |
| ChatWindow.ChatView.StartWarningTimer | CaseyFrontEnd-feature-1.0/src/components/ChatWindow/ChatWindow.jsx:191-208 | The countdown restarts at 60 with one running interval. |
| ChatWindow.ChatView.WarningTick | CaseyFrontEnd-feature-1.0/src/components/ChatWindow/ChatWindow.jsx:196-206 | Decrements the countdown. At 1 or below: sets 0, stops the interval, hides the warning and shows the timeout dialog. A running countdown stays in 1..60. |
| ChatWindow.ChatView.ClearWarningTimer | CaseyFrontEnd-feature-1.0/src/components/ChatWindow/ChatWindow.jsx:210-218 | Stops the interval, hides and empties the warning, and resets the countdown to 60. |
| ChatWindow.ChatView.HandleWarning | CaseyFrontEnd-feature-1.0/src/components/ChatWindow/ChatWindow.jsx:300-304 | Shows the default warning text and starts the countdown at 60. |
| ChatWindow.ChatView.HandleSessionTimeout | CaseyFrontEnd-feature-1.0/src/components/ChatWindow/ChatWindow.jsx:293-298 | Clears the countdown and shows the timeout dialog. |
| ChatWindow.ChatView.RequestConversationHistory | CaseyFrontEnd-feature-1.0/src/components/ChatWindow/ChatWindow.jsx:258-290 | Follows `RequestHistory` as written: at most one history frame is sent, with the state of the call that scheduled it. An error is shown for a missing email, or for the give-up outcome; called with no retry count, the only error is the missing email. Otherwise nothing changes. |
| ChatWindow.ChatView.HandleMessage | CaseyFrontEnd-feature-1.0/src/components/ChatWindow/ChatWindow.jsx:306-415 | Ignored while the timeout dialog shows. Otherwise the pane follows `PaneAfter`. A final answer also sends one history request. An array of conversations reaches the side bar. |
| ChatWindow.ChatView.HandleSendMessage | CaseyFrontEnd-feature-1.0/src/components/ChatWindow/ChatWindow.jsx:471-504 | Blank input, the timeout dialog or an unhealthy backend: nothing changes. Otherwise the prompt is shown, exactly one prompt frame is sent, and the countdown is cleared. |
| ChatWindow.ChatView.HandleFeedbackSubmit | CaseyFrontEnd-feature-1.0/src/components/ChatWindow/ChatWindow.jsx:534-554 | Without a reason: nothing changes. Otherwise the message is marked down-voted, exactly one negative feedback frame is sent, and the form is reset. |
| Admin.WithoutId | CaseyFrontEnd-feature-1.0/src/components/Admin/Admin.jsx:92 | Every copy of a document whose id differs is kept, every copy of one with the id is dropped, and the kept documents stay in their original order. |
| Admin.DeleteAbsentId | CaseyFrontEnd-feature-1.0/src/components/Admin/Admin.jsx:91-92 | Deleting an id that no document has leaves the list unchanged. |
| Admin.WithEdit | CaseyFrontEnd-feature-1.0/src/components/Admin/Admin.jsx:106-110 | Same length and order. Documents with the id get the new title and category; their id, file name and date are kept; every other document is unchanged. |
| Admin.EditUndo | CaseyFrontEnd-feature-1.0/src/components/Admin/Admin.jsx:105-111 | For a document whose id is unique, editing it and then editing it back restores the list. |
| Admin.Filtered | CaseyFrontEnd-feature-1.0/src/components/Admin/Admin.jsx:132-136 | A document is shown exactly when its lower-cased title contains the lower-cased query and the filter is empty or equals its category. Every copy of a shown document is shown, and shown documents keep their order. |
| Admin.FilteredShowsAll | CaseyFrontEnd-feature-1.0/src/components/Admin/Admin.jsx:132-136 | With no query and no filter, every document is shown, in order. |
| Admin.AdminPage.constructor | CaseyFrontEnd-feature-1.0/src/components/Admin/Admin.jsx:9-40 | The three sample documents, an empty form, and no edit in progress. |
| Admin.AdminPage.FilteredDocuments | CaseyFrontEnd-feature-1.0/src/components/Admin/Admin.jsx:132-136 | The shown documents are those of `Filtered`: a subsequence of the list, with every copy of a matching document and none of the others. |
| Admin.AdminPage.HandleFileChange | CaseyFrontEnd-feature-1.0/src/components/Admin/Admin.jsx:43-52 | No file chosen: no change. Otherwise the file is pending, the title is its name, and `isUploaded` is false. |
| Admin.AdminPage.HandleDeleteFile | CaseyFrontEnd-feature-1.0/src/components/Admin/Admin.jsx:54-59 | The pending file and the title are cleared. |
| Admin.AdminPage.HandleSave | CaseyFrontEnd-feature-1.0/src/components/Admin/Admin.jsx:61-89 | With a file, a title and a category: exactly one document is appended, the form is cleared, `isUploaded` is set, and a success toast is shown. Otherwise the list and the form are unchanged and an error toast is shown. |
| Admin.AdminPage.HandleDeleteDocument | CaseyFrontEnd-feature-1.0/src/components/Admin/Admin.jsx:91-97 | The list becomes `WithoutId`, and an info toast is shown. |
| Admin.AdminPage.HandleEditDocument | CaseyFrontEnd-feature-1.0/src/components/Admin/Admin.jsx:99-103 | Editing starts on the document, with its title and category copied. |
| Admin.AdminPage.HandleSaveEdit | CaseyFrontEnd-feature-1.0/src/components/Admin/Admin.jsx:105-116 | The list becomes `WithEdit` with the edit fields. Editing ends, and a success toast is shown. |
| Admin.AdminPage.HandleCancelEdit | CaseyFrontEnd-feature-1.0/src/components/Admin/Admin.jsx:118-122 | Editing ends, and both edit fields are emptied. |
| Admin.AdminPage.HandleSearch | CaseyFrontEnd-feature-1.0/src/components/Admin/Admin.jsx:124-126 | The query is replaced, and the shown documents follow it. |
| Admin.AdminPage.HandleFilter | CaseyFrontEnd-feature-1.0/src/components/Admin/Admin.jsx:128-130 | The category filter is replaced, and the shown documents follow it. |
| Sidebar.ConversationClick | CaseyFrontEnd-feature-1.0/src/components/Sidebar/Sidebar.jsx:6-21 | Ignored exactly while the bot types, or for a missing entry or one without `intraction_id`. Otherwise the entry is selected and one `get_historical_messages` frame is sent, with that id and the user's email. |
| Sidebar.ItemAt | CaseyFrontEnd-feature-1.0/src/components/Sidebar/Sidebar.jsx:33 | The key is the entry's id. The title is `interaction_title` when present, else "Conversation #" followed by position + 1. |
| Sidebar.Listed | CaseyFrontEnd-feature-1.0/src/components/Sidebar/Sidebar.jsx:28-46 | An item is listed exactly when it is the item of an entry with an id. The list is empty exactly when no entry has an id. |
| Sidebar.RenderHistory | CaseyFrontEnd-feature-1.0/src/components/Sidebar/Sidebar.jsx:23-47 | "No history" exactly for a non-array or an empty history. Otherwise the listed items, every one with a non-empty key. No item at all (and no "no history" line) when no entry has an id. |
| Sidebar.ListedInOrder | CaseyFrontEnd-feature-1.0/src/components/Sidebar/Sidebar.jsx:28-46 | Listed items keep the relative order of their entries. |
| Sidebar.ListedIsFilter | CaseyFrontEnd-feature-1.0/src/components/Sidebar/Sidebar.jsx:28-46 | The listed items are exactly the items of all entries, in order and with their positions, with the keyless ones filtered out. |
| Sidebar.ListedAll | CaseyFrontEnd-feature-1.0/src/components/Sidebar/Sidebar.jsx:28-46 | When every entry has an id, every entry is listed, in order. |
| Text.SplitWs | CaseyFrontEnd-feature-1.0/src/components/Header/Header.jsx:48 | `split(/\s+/)` gives at least one piece, and no piece contains whitespace. A string starting with a non-space starts its first piece with that character. |
| Text.SplitWord | CaseyFrontEnd-feature-1.0/src/components/Header/Header.jsx:48 | A single word splits into itself. |
| Text.SplitAtSpace | CaseyFrontEnd-feature-1.0/src/components/Header/Header.jsx:48 | A word, a run of whitespace and the rest split as the word followed by the pieces of the rest. |
| Text.SplitPiecesNonEmpty | CaseyFrontEnd-feature-1.0/src/components/Header/Header.jsx:48 | A string ending in a non-space has no empty piece after the first. |
| Text.Trim | CaseyFrontEnd-feature-1.0/src/components/ChatWindow/ChatWindow.jsx:332 | `trim` gives a string no longer than its input, with no whitespace at either end. |
| Text.TrimIsTrimOf | CaseyFrontEnd-feature-1.0/src/components/ChatWindow/ChatWindow.jsx:332 | `trim` removes a whitespace prefix and a whitespace suffix and nothing else. It gives "" exactly for blank strings. |
| Text.TrimNoEdgeSpace | CaseyFrontEnd-feature-1.0/src/components/ChatWindow/ChatWindow.jsx:332 | Trimming a string with no whitespace at its ends gives it back. |
| Text.TrimOfPadded | CaseyFrontEnd-feature-1.0/src/components/Header/Header.jsx:48 | `trim` removes exactly the whitespace padding around a string with no whitespace at its ends. |
| Text.ToLower | CaseyFrontEnd-feature-1.0/src/components/Admin/Admin.jsx:134 | `toLowerCase` maps each character, and keeps the length. |
| Text.IncludesEmpty | CaseyFrontEnd-feature-1.0/src/components/Admin/Admin.jsx:134 | Every title includes the empty query. |
| Text.NatToString | CaseyFrontEnd-feature-1.0/src/components/Sidebar/Sidebar.jsx:33 | The decimal rendering is digits without a leading zero, and it denotes the number. |
| Header.GetInitials | CaseyFrontEnd-feature-1.0/src/components/Header/Header.jsx:46-53 | "US" for an empty or whitespace-only name. Otherwise one or two characters, the first being the upper-cased first non-space character. |
| Header.InitialsOfWord | CaseyFrontEnd-feature-1.0/src/components/Header/Header.jsx:49-50 | One word, with any whitespace around it, gives its first letter, upper-cased. |
| Header.InitialsOfWords | CaseyFrontEnd-feature-1.0/src/components/Header/Header.jsx:47-52 | Two or more words, with any whitespace around and between them, give the upper-cased first letters of the first two. |
| Header.LocalPart | CaseyFrontEnd-feature-1.0/src/components/Header/Header.jsx:58 | `split('@')[0]`: the longest prefix without '@'. |
| Header.LocalPartOf | CaseyFrontEnd-feature-1.0/src/components/Header/Header.jsx:58 | The local part of `a@d` is `a`. |
| Header.UserInitials | CaseyFrontEnd-feature-1.0/src/components/Header/Header.jsx:55-59 | From the name when there is one, else from the part of the email before '@', else "US". Always one or two characters. |
| Header.InitialsFromEmail | CaseyFrontEnd-feature-1.0/src/components/Header/Header.jsx:55-59 | A user with no name and the address `a@d` (a single word) gets the first letter of `a`. |
| Header.DisplayUsername | CaseyFrontEnd-feature-1.0/src/components/Header/Header.jsx:62 | The user's name, or "Guest". Never empty. |
| Header.EffectiveAllHealthy | CaseyFrontEnd-feature-1.0/src/components/Header/Header.jsx:43 | The parent's flag whenever it is not `null`, and the header's own flag otherwise. |
| Header.HealthPrecedence | CaseyFrontEnd-feature-1.0/src/components/Header/Header.jsx:43 | The info button is enabled exactly when the parent reports healthy, or passes `null` and the header's own check reports healthy. The user block is shown unless both flags are `null`. |
| Header.AllHealthy | CaseyFrontEnd-feature-1.0/src/components/Header/Header.jsx:16 | True exactly when every status is "Healthy", so an empty report is healthy. |
| Header.AllHealthyAppend | CaseyFrontEnd-feature-1.0/src/components/Header/Header.jsx:16 | Two reports together are healthy exactly when each is. |
| Header.HeaderBar.constructor | CaseyFrontEnd-feature-1.0/src/components/Header/Header.jsx:8-9 | Own flag `null`, and the pop-up hidden. |
| Header.HeaderBar.Effective | CaseyFrontEnd-feature-1.0/src/components/Header/Header.jsx:43 | The shown flag obeys the parent-first precedence. |
| Header.HeaderBar.FetchHealth | CaseyFrontEnd-feature-1.0/src/components/Header/Header.jsx:13-21 | The own flag becomes a boolean. It is true exactly when a report arrived and every status in it is "Healthy". A failed fetch gives false. |
| Header.HeaderBar.TogglePopup | CaseyFrontEnd-feature-1.0/src/components/Header/Header.jsx:39-41 | The pop-up's visibility flips. |
| Weather.RoundDiv45 | CaseyFrontEnd-feature-1.0/src/components/Weather/weather.jsx:145 | `Math.round(deg / 45)`: the integer nearest to deg/45, with halves rounded up. |
| Weather.WindDirection | CaseyFrontEnd-feature-1.0/src/components/Weather/weather.jsx:143-147 | From -22 degrees up: the label at round(deg/45) mod 8. Below that the truncating `%` gives a negative index and `undefined` exactly when round(deg/45) is negative and not a multiple of 8; any label returned is the one at round(deg/45) mod 8, and one of the eight. |
| Weather.WindSector | CaseyFrontEnd-feature-1.0/src/components/Weather/weather.jsx:143-147 | The k-th label covers 45k−22 .. 45k+22 degrees. |
| Weather.WindFullTurn | CaseyFrontEnd-feature-1.0/src/components/Weather/weather.jsx:143-147 | Adding 360 degrees gives the same label. |
| Weather.WindExamples | CaseyFrontEnd-feature-1.0/src/components/Weather/weather.jsx:143-147 | 0 → N, 360 → N, 90 → E, 22 → N, 23 → NE; -45 and -90 → `undefined`, -360 → N. |
| Weather.Hour12 | CaseyFrontEnd-feature-1.0/src/components/Weather/weather.jsx:125 | The displayed hour is in 1..12 and agrees with the hour modulo 12. |
| Weather.Meridiem | CaseyFrontEnd-feature-1.0/src/components/Weather/weather.jsx:124 | "PM" exactly when hours ≥ 12, "AM" otherwise. |
| Weather.MinuteText | CaseyFrontEnd-feature-1.0/src/components/Weather/weather.jsx:126 | Always two digits, denoting the minute; zero-padded below 10. |
| Weather.ClockText | CaseyFrontEnd-feature-1.0/src/components/Weather/weather.jsx:121-127 | "h:mm AM/PM", seven or eight characters long. |
| Weather.ClockTextParts | CaseyFrontEnd-feature-1.0/src/components/Weather/weather.jsx:121-127 | The text splits back into the 12-hour number, the minute digits and the meridiem. |
| Weather.MinuteTextInjective | CaseyFrontEnd-feature-1.0/src/components/Weather/weather.jsx:126 | Different minutes give different minute text. |
| Weather.HourTextInjective | CaseyFrontEnd-feature-1.0/src/components/Weather/weather.jsx:124-125 | The 12-hour number and the meridiem together determine the hour. |
| Weather.ClockTextInjective | CaseyFrontEnd-feature-1.0/src/components/Weather/weather.jsx:134-141 | `getCurrentTime` and `formatTime` never show two different times of day as the same text. |
| Weather.MidnightAndNoon | CaseyFrontEnd-feature-1.0/src/components/Weather/weather.jsx:124-125 | Hour 0 is 12 AM, and hour 12 is 12 PM. |
| Weather.IconFor | CaseyFrontEnd-feature-1.0/src/components/Weather/weather.jsx:149 | The mapped icon of a known code. "day-sunny" without weather or for an unknown code. Always one of the map's icons. |
| Weather.FoldDaysKeys | CaseyFrontEnd-feature-1.0/src/components/Weather/weather.jsx:63-77 | The days are exactly the dates of the entries, each listed once. There are never more days than entries. |
| Weather.FoldDaysFirstAppearance | CaseyFrontEnd-feature-1.0/src/components/Weather/weather.jsx:63-77 | The days are listed in order of first appearance: the k-th day first occurs at an entry before which only the dates of the earlier days occur. |
| Weather.FirstEntryFixesDay | CaseyFrontEnd-feature-1.0/src/components/Weather/weather.jsx:65-71 | The first entry of a date fixes the day's `dt` and `weather`. |
| Weather.DayCoversEntry | CaseyFrontEnd-feature-1.0/src/components/Weather/weather.jsx:72-75 | Every entry's high is at most its day's high, and its low at least its day's low. |
| Weather.DayRangeAttained | CaseyFrontEnd-feature-1.0/src/components/Weather/weather.jsx:72-75 | A day's high and low are the high and the low of some entry of that date. |
| Weather.DayRangeOrdered | CaseyFrontEnd-feature-1.0/src/components/Weather/weather.jsx:63-77 | If every entry has low ≤ high, every day has low ≤ high. |
| Weather.DaysInOrder | CaseyFrontEnd-feature-1.0/src/components/Weather/weather.jsx:79 | `Object.values`: one day per date, in insertion order. |
| Weather.FirstFive | CaseyFrontEnd-feature-1.0/src/components/Weather/weather.jsx:59 | `slice(0, 5)`: a prefix of at most 5 elements, exactly 5 when there are at least 5. |
| Weather.DailyForecast | CaseyFrontEnd-feature-1.0/src/components/Weather/weather.jsx:63-80 | The in-place `reduce` loop and the value loop give exactly the first five days of the fold. |
| Weather.WeatherWidget.constructor | CaseyFrontEnd-feature-1.0/src/components/Weather/weather.jsx:29-37 | Nothing fetched, no error, not loading. |
| Weather.WeatherWidget.CurrentIcon | CaseyFrontEnd-feature-1.0/src/components/Weather/weather.jsx:149 | "day-sunny" without weather, otherwise the icon of the current code. |
| Weather.WeatherWidget.FetchWeather | CaseyFrontEnd-feature-1.0/src/components/Weather/weather.jsx:40-90 | No city or key: no change. Otherwise loading ends false. On success: the weather, the first five entries and the first five days are shown, with no error. 404: "City not found.". Other failures: "Failed to fetch weather.". A missing forecast list still shows the current weather. |

## Findings

| source | as written | input that shows it | evidently intended | confidence | as-written member | corrected member |
|---|---|---|---|---|---|---|
| CaseyFrontEnd-feature-1.0/src/components/ChatWindow/ChatWindow.jsx:332 | The final-frame branch reads `streamingMessage` from the registered `handleMessage` closure. The effect that registers it (dependencies at line 427) re-runs only when the parent re-renders, because the parent's `onReceiveHistory` (App.js:183, passed at App.js:299) is a new function on each of its renders. The parent re-renders when the typing flag it mirrors flips (lines 146-148). A prompt sent here raises that flag with streaming cleared, so the closure holds `null`; an answer arriving with the flag down re-registers it after its first chunk. Chunks after that are not seen. | A prompt is sent; "Hel" streams, then the final "lo": the answer reads "lo". Or, with the typing flag down, "Hel" and "lo" stream, then the final "!": the answer reads "Hel!". | The answer holds everything streamed so far, followed by the trimmed final chunk: "Hello", and "Hello!". | not executed | ChatWindow.StaleRegistrationDropsStream | ChatWindow.Finalised |
| CaseyFrontEnd-feature-1.0/src/components/ChatWindow/ChatWindow.jsx:274-289 | A retry timer that finds the socket closed calls `connect` and runs the next attempt only from the handshake continuation, which runs while that socket is open; a timer that finds it open calls the next attempt at once. Every retry therefore sends, the give-up error at lines 286-288 is unreachable, and a reconnect whose handshake never completes leaves the request pending forever with no error. | An email is set; the socket is closed at the call and at the timer, and the new socket never completes its handshake: one `connect`, then nothing, and no error is shown. | Up to three retries, one second apart, each sending if the socket is open, and the error "Failed to retrieve conversation history. Please try again." after the third failed retry. | not executed | ChatWindow.HistoryRetryNeverGivesUp | ChatWindow.RequestHistoryIntended |

The component model uses the live streaming text (`ChatWindow.Finalised`), as intended. It keeps the history retry chain as written (`ChatWindow.RequestHistory`), because the number of retries the code actually makes is what the window does; `ChatWindow.RequestHistoryIntended` states the intended chain beside it.

## Left out

- JSX rendering, CSS, scrolling, focus, click-outside handlers, icons, toasts' styling and `ReactMarkdown`: display only. A toast is modelled only as a notice appended to `notices`.
- `preprocessMarkdown` (`ChatWindow.jsx:161-168`): it depends on regular-expression lookbehind.
- `formatTimestamp`, `getDayName` and `toLocaleString` / `toLocaleDateString`: they depend on `Date`, `Intl` and time-zone data. Day keys, time stamps, hours and minutes are parameters.
- The real WebSocket, `JSON.parse` / `JSON.stringify`, `encodeURI` and the HTTP requests (axios, OpenWeatherMap, the health check): their outcomes are parameters. Image paths are joined without URI encoding.
- Browser timers: the socket client's timers are queued events fired by `FireTimer`. The chat window's countdown is a flag with a tick method. The 500 ms history delay after a first answer is the flag `historyRequestScheduled`.
- `console` logging.
- ChatWindow.ChatView.HandleMessage: it reads `showSessionTimeout` and the streaming message live. The registered closure sees the values of the render in which it was last registered, which is the last render of the parent (see the first finding). The finding models the stale read for the streamed text only.
- ChatWindow.ChatView.HandleSessionTimeout: it does not model the `WebSocketService.disconnect()` call or the connection flag. The session client is a separate object here.
- ChatWindow.ChatView.RequestConversationHistory: only a retry whose timer finds the socket closed calls `connect`, and that retry then waits for the handshake. The model takes what each timer finds and whether the handshake completes as inputs, rather than running the session client. It keeps the chain as written (see the second finding). It does not model `setIsWebSocketConnected(true)` in the handshake continuation.
- ChatWindow.ChatView.HandleMessage: it assumes `onReceiveHistory` is defined.
- `handleFeedbackClick`, `handleSessionTimeoutConfirm`, `handleNewConversation`, the department/role selectors, and the connection effect (`ChatWindow.jsx:429-458`): these are UI and effect plumbing.
- `getInitials` and `userInitials` in `ChatWindow.jsx:117-130` are the same code as in `Header.jsx:46-59`. They are modelled once, in `Header`.
- Header's click-outside listener, and its 60-second refresh interval: each interval run is one `FetchHealth` call.
- Weather: the 500 ms city-input debounce and the 10-minute refresh are not modelled.
- Weather: `Math.round` on floating temperatures and visibility is left out. Degrees and temperatures are integers.
- Weather: the hourly list is taken as the forecast entries, untransformed.
- Weather.IconFor: codes that name `Object.prototype` members (such as "toString") are not modelled. JavaScript would return that member instead of "day-sunny".
- Weather.DaysInOrder: it uses insertion order. `Object.values` lists integer-like keys first, but locale date strings are not integer-like.
- Text.ToLower, Text.UpperChar: they map ASCII letters only. Full Unicode case mapping, including characters whose upper case is longer, is not modelled.
- Frames: `null` and `undefined` are not distinguished in the frames, and both become "" or None. Only the header's parent flag keeps the distinction, because the code tests `!== null` there.
- SessionClient.Session.HandleMessage: it does not model a `JSON.parse` failure. Such a failure throws inside the handler.
- App.js, Login.jsx, Chatbot.jsx, AppRoutes.jsx, ChatContext.jsx, apiService.js and vite.config.mjs are not part of this model. The component wiring and `localStorage` are plumbing. App.js's health aggregation is the same as the header's.
- Concurrency between components: listener registration is treated as sequential calls.
