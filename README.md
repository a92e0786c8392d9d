# Chat page session state

A model of the client side of a small real-time chat application: the Next.js
page `frontend/app/page.tsx`. The page keeps a message log, an "other user is
typing" flag and the text of its input box. It folds the JSON frames that
arrive on its WebSocket into the log and the flag. On every input change it
sends a `typing` or `not_typing` frame. It posts non-blank input to the
server's message endpoint.

Modules, one file each:

- `events.dfy` (`ChatEvents`): the `Message` record, an inbound frame whose
  `type`, `sender` and `message` properties may each be missing, the outbound
  `{type, sender}` frame and the `{text, sender}` POST body.
- `whitespace.dfy` (`Whitespace`): JavaScript's `String.prototype.trim` over
  the ECMAScript whitespace and line-terminator characters, and the blank test
  `!s.trim()`, proved equivalent to "every character is whitespace".
  `Trim` is proved to return a slice of its input with only whitespace cut off.
- `inbound.dfy` (`InboundFold`): the `onmessage` handler as a pure function
  `Receive` on the pair (log, flag). It also folds a sequence of frames
  (`ReceiveAll`) and proves lemmas about that fold. The log equals the old log
  followed by every accepted payload, with no deduplication. The flag equals
  the effect of the last frame that has one. Frames without an effect change
  nothing. It also holds the `isMe` ownership test.
- `outbound.dfy` (`Outbound`): the typing signal chosen for one input change
  and for a run of changes, and the submission allowed by the blank guard.
  It also relates what this page sends to what a receiving page does with it
  once the server relays it unchanged.
- `session.dfy` (`ChatSession`): the page as a class `Session`. Its fields are
  the React state (`messages`, `otherUserTyping`, `inputValue`) plus two logs
  of what was sent: `outbox` for socket frames and `posts` for POST bodies.
  `userID` is a constructor parameter. The handlers are methods proved against
  the functions above. They keep the invariant that everything sent is signed
  with `userID` and that no blank text is ever posted.

What the page does and does not do, in the cases where a reader might expect
otherwise:

- The log is not deduplicated by message id. Every accepted `message` frame is
  appended (`NoDeduplication`).
- Typing signals are sent on every input change while the socket is open. They
  are not sent only on empty/non-empty transitions (`SignalPerChange`,
  `TypeAndClear`).
- A `not_typing` frame from self is ignored. A `message` frame clears the flag
  whoever sent it, including this client.
- There is no presence count, `user_joined`/`user_left` or `play_sound`
  handling on the page. Such frames fall into "changes nothing".
- The input is cleared after the POST whether the response is ok or not. But
  if the request itself fails, the awaited `fetch` throws before
  `setInputValue("")`, so the input is kept (`PostOutcome.NetworkFailure`).
- A frame with no `sender` property compares unequal to `userID`, so it counts
  as coming from another user.

## Model

| member | source | states |
|---|---|---|
| Whitespace.TrimStart | frontend/app/page.tsx:96 | the result is a suffix of the input, everything dropped is whitespace, and the result does not start with whitespace |
| Whitespace.TrimEnd | frontend/app/page.tsx:96 | the result is a prefix of the input, everything dropped is whitespace, and the result does not end with whitespace |
| Whitespace.Trim | frontend/app/page.tsx:96 | the result is a slice `s[a..b]` of the input with only whitespace cut off before `a` and after `b`, and it is empty or has non-whitespace at both ends |
| Whitespace.StripBothEnds | frontend/app/page.tsx:96 | cutting a whitespace prefix off a string and then a whitespace suffix off the rest leaves a slice of the string with only whitespace cut off either side |
| Whitespace.TrimEmptyIffAllWhitespace | frontend/app/page.tsx:96 | trimming gives the empty string exactly when every character is whitespace |
| Whitespace.IsBlank | frontend/app/page.tsx:96 | `!s.trim()` holds exactly when the input is empty or whitespace only |
| InboundFold.Receive | frontend/app/page.tsx:38-57 | an accepted message frame appends exactly its payload at the end of the log and clears the flag, whoever sent it; "typing" sets the flag exactly when it is from another sender; "not_typing" from another sender clears it; neither signal touches the log; unknown types and a "message" frame without payload change nothing |
| InboundFold.ReceiveAllConcat | frontend/app/page.tsx:38-57 | handling frames one after another composes: two runs of frames give the same view as their concatenation |
| InboundFold.ReceiveAllLog | frontend/app/page.tsx:42-48 | after any run of frames the log is the old log followed by the payload of every accepted message frame in arrival order, so it is append-only and grows by one per accepted frame |
| InboundFold.NoDeduplication | frontend/app/page.tsx:48 | the same message delivered twice is appended twice |
| InboundFold.ReceiveByFlagEffect | frontend/app/page.tsx:42-56 | a frame that does not act on the flag leaves the whole view unchanged; one that acts on it decides the flag regardless of its old value |
| InboundFold.ReceiveAllWithoutEffect | frontend/app/page.tsx:42-56 | a run of frames none of which acts on the flag leaves log and flag unchanged |
| InboundFold.FlagFollowsLastEffect | frontend/app/page.tsx:49-55 | after a run of frames the flag is the value set by the last frame that acts on it |
| InboundFold.RelayedMessageSide | frontend/app/page.tsx:133 | a relayed message becomes the new last entry of the log, is drawn as this client's own exactly when its sender is this client's id, and hides the typing indicator whoever sent it |
| Outbound.TypingSignal | frontend/app/page.tsx:66-85 | one input change sends nothing while the socket is not open and exactly one frame while it is open, "typing" exactly when the text is non-empty, signed with this client's id |
| Outbound.SignalPerChange | frontend/app/page.tsx:70-84 | with the socket open, a run of input changes sends one frame per change, the i-th saying whether the i-th text is non-empty; with it closed, none |
| Outbound.TypeAndClear | frontend/app/page.tsx:66-85 | typing "h", then "hi", then clearing sends typing, typing, not_typing |
| Outbound.SubmissionFor | frontend/app/page.tsx:95-103 | a blank input yields no submission; any other input is submitted as typed, untrimmed, with this client's id |
| Outbound.KeyTriggersSend | frontend/app/page.tsx:88-92 | a key press sends exactly when it is Enter and the input is not blank |
| Outbound.RelaySignal | frontend/app/page.tsx:72-83 | a "typing"/"not_typing" frame this page sends, relayed to another page, sets that page's indicator to whether it is "typing" and leaves its log alone; relayed back to this page it changes nothing |
| Outbound.RelayedTypingFollowsLatestText | frontend/app/page.tsx:50-84 | when another page's input changes are relayed here in order, the indicator ends up showing whether that page's latest text is non-empty, whatever it showed before |
| Outbound.WhitespaceTypesButIsNotSent | frontend/app/page.tsx:70-96 | a non-empty whitespace-only input still sends "typing" but is never submitted, not even by Enter |
| ChatSession.Session.constructor | frontend/app/page.tsx:14-18 | a mounted page has an empty log, no typing indicator, an empty input and has sent nothing |
| ChatSession.Session.OnMessage | frontend/app/page.tsx:38-57 | handling a frame takes (log, flag) to `Receive` of the old pair; input, outbox and posts are unchanged; the signing invariant is kept |
| ChatSession.Session.HandleInputChange | frontend/app/page.tsx:66-85 | the input becomes the new text and the outbox grows by exactly `TypingSignal` of it; the log and the flag are unchanged |
| ChatSession.Session.HandleSendMessage | frontend/app/page.tsx:95-113 | the posts grow by exactly `SubmissionFor` of the old input: nothing for a blank input, otherwise one `{text, sender}` body; the input is cleared when something was posted and the server answered, ok or not, and kept otherwise, including when the request failed; the log is unchanged |
| ChatSession.PostedEchoIsMine | frontend/app/page.tsx:133 | every body this page posted is signed with its id, so the server's relay of it, with whatever id and timestamp, is drawn as this page's own |
| ChatSession.Session.HandleKeyDown | frontend/app/page.tsx:88-92 | a key press that is not Enter on a non-blank input changes nothing; one that is posts and clears as `HandleSendMessage` does |

## Left out

- The WebSocket lifecycle (connect, `onopen`, `onclose`, `onerror`, closing on unmount): transport I/O. Whether the socket is open is a parameter of `HandleInputChange`.
- `JSON.parse` and `JSON.stringify`: the model starts from parsed frames and produces structured frames. A frame that fails to parse throws inside the handler and is not modelled.
- Property values of the wrong JSON type (a numeric `sender`, a non-object `message` payload) are not modelled. Every present property has the shape the page expects.
- The `fetch` POST itself: transport I/O. Its settlement is the `PostOutcome` parameter. The ok/not-ok branch only logs, so both lead to the same state.
- Interleaving across the `await` in `handleSendMessage`: the model runs the handler as one step. An input change or a frame that arrives while the POST is pending is not modelled. Neither is React's stale closure over `inputValue`.
- `crypto.randomUUID()`: a foreign call. `userID` is a constructor parameter.
- `new Date(...)` and `toLocaleTimeString`: time and locale formatting. A message keeps its wire timestamp as a string.
- Message ids are unbounded integers. JavaScript numbers are floating point, which does not matter here because ids are only carried.
- JavaScript strings are UTF-16 while Dafny strings are sequences of Unicode scalar values. Input length is only compared with zero, and every whitespace character `trim` removes is a single code unit, so the difference is not observable.
- Console logging, all JSX rendering other than the `isMe` test, and `frontend/app/layout.tsx`: UI.
- The backend: `backend/main/main.py` only creates the application and its CORS middleware. The server's hub, the broadcast path and the message endpoint are not part of this model.
- The keyboard-listener scripts `backend/testing/typing_test.py` and `messaging/typing_test.py`: standalone experiments not connected to the chat.
