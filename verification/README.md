# AIChat session controller in Dafny

AIChat is a one-page chat client: the user types a question, the page sends it to a
chat-completion service together with the earlier turns, and it shows the growing
conversation. All of its behaviour lives in the page component `App`. That component
holds four pieces of state:

- `messages`: the history of `{ role, content }` turns;
- `input`: the text area's contents;
- `loading`: the busy flag that disables the send button;
- `lang`: the display language, `ja` or `en`.

The component has handlers for sending, for the Enter key, for clearing the history
and for switching the language. This project models that controller and proves what
it guarantees.

- `text.dfy` (module `Text`): JavaScript's `trim`, as `TrimStart`, `TrimEnd` and
  `Trim` over an explicit whitespace set. `IsBlank` is the test that makes the send
  handler refuse an input.
- `locale.dfy` (module `Locale`): the language toggle and the label selector `t`.
- `transcript.dfy` (module `Transcript`): turns and roles, the fixed system
  instruction, the error text and the model name. Also the request body built from a
  history snapshot, the outcome of a request (`Success(reply)` or `Failure(cause)`),
  and the assistant turn an outcome produces.
- `session.dfy` (module `Session`): the controller. Each handler is a function on a
  `State` value (`OnSend`, `OnSettle`, `OnClear`, `OnToggle`, `OnClick`,
  `OnKeyDown`, `OnInput`), and each carries the guarantees as its contract. The class
  `ChatSession` holds the four state variables and updates them in place. Each of its
  methods is proved to perform the matching transition. The send handler is split in
  two, as the `await` splits it:
  - `BeginSend` returns the captured history `newMessages`;
  - `Resolve(snapshot, outcome)` writes `snapshot + [reply turn]`.

  `ClickSend` is the send button, which is disabled while loading. `KeyDown` is the
  Enter path, which is not guarded. `Run` applies any sequence of user and network
  events to a `Machine`, which is the state plus the snapshots of the outstanding
  requests. `Reachable` proves what holds after every such sequence.
- `scenarios.dfy` (module `Scenarios`): runs of a fresh `ChatSession` and what the
  page shows at their end.

Two behaviours of the code are easy to miss:

- **A send while busy is not always ignored.** Only the button is guarded
  (`disabled={loading}`, src/App.tsx:121). The Enter key (src/App.tsx:58-62) calls the
  send handler with no check of `loading`, so it starts a second request. The two
  requests then overwrite each other's history, and the first settlement clears
  `loading` while the second is still outstanding. See
  `OverlappingSendsSettleInOrder`, `OverlappingSendsSettleReversed` and
  `Scenarios.EnterWhileBusy`. As a result, "loading exactly while a request is
  outstanding" holds only in one direction (`Reachable`).
- **A clear before the reply is undone.** The settlement writes the captured snapshot
  (src/App.tsx:49, 51), not the current history, so the cleared user turn comes back:
  after sending `A`, clearing, and receiving `R`, the history is
  `[{user, A}, {assistant, R}]` (`ClearWhilePendingIsUndone`,
  `Scenarios.ClearBeforeReply`).

## Model

| member | source | states |
|---|---|---|
| Text.TrimStart | src/App.tsx:25 | the result is a suffix of the input that does not start with whitespace, and everything dropped is whitespace |
| Text.TrimEnd | src/App.tsx:25 | the result is a prefix of the input that does not end with whitespace, and everything dropped is whitespace |
| Text.Trim | src/App.tsx:25 | `input.trim()` is a contiguous piece of the input with no whitespace at either end, and it is empty exactly when the input is all whitespace (empty included) |
| Text.TrimDropsOnlyWhitespace | src/App.tsx:25 | `trim()` keeps exactly the middle of the input: the part before the kept piece and the part after it are both whitespace |
| Text.TrimIdempotent | src/App.tsx:25 | trimming an already trimmed string changes nothing |
| Locale.Toggle | src/App.tsx:80 | the language button always changes the language (`ja` to `en`, `en` to `ja`) |
| Locale.ToggleTwice | src/App.tsx:80 | toggling twice gives back the original language |
| Locale.T | src/App.tsx:21 | `t(jp, en)` returns one of its two labels; when they differ, it returns `jp` exactly when the language is `ja` |
| Transcript.RequestFor | src/App.tsx:32-40 | the request names the fixed model and holds the system instruction followed by the snapshot in order (length one more than the snapshot); for a snapshot without system turns, the system turn is exactly at position 0 |
| Transcript.ReplyTurn | src/App.tsx:48-51 | the settling turn is an assistant turn: the reply verbatim on success, the fixed error text on any failure |
| Transcript.FailuresIndistinguishable | src/App.tsx:50-51 | every failure cause gives the same turn, which equals a success whose reply is the error text |
| Session.OnInput | src/App.tsx:115 | typing replaces the input and changes nothing else |
| Session.OnSend | src/App.tsx:24-29 | no request exactly when the input is blank, and then nothing changes; otherwise one user turn holding the untrimmed input is appended with earlier turns unchanged, the input is emptied, loading is set, the language is kept, the captured snapshot is the new history, and no system turn enters the history |
| Session.OnSettle | src/App.tsx:48-54 | the history becomes the captured snapshot plus exactly one assistant turn (the reply, or the error text on failure), whatever it held before; loading is cleared; input and language are kept |
| Session.OnClear | src/App.tsx:131 | the history becomes empty; input, loading and language are unchanged |
| Session.OnToggle | src/App.tsx:80 | the language changes; history, input and loading are unchanged |
| Session.ToggleTwiceRestores | src/App.tsx:80 | pressing the language button twice restores the whole state |
| Session.OnClick | src/App.tsx:119-121 | a click while loading does nothing and issues no request; otherwise it is the send handler |
| Session.OnKeyDown | src/App.tsx:58-62 | Enter without Shift is the send handler whatever `loading` is; any other key issues nothing |
| Session.SendThenSettle | src/App.tsx:24-54 | an accepted send and its settlement append exactly the user turn and then the reply turn, and leave the input empty and the page idle |
| Session.ClearWhilePendingIsUndone | src/App.tsx:26-53 | a clear between the send and its settlement has no effect on the final state: the cleared turns come back |
| Session.OverlappingSendsSettleInOrder | src/App.tsx:24-62 | Enter while loading issues a second request; when the first settles first, loading is cleared while the second is outstanding, and the second's settlement drops the first reply |
| Session.OverlappingSendsSettleReversed | src/App.tsx:24-62 | when the second of two overlapping requests settles first, the first's settlement drops the second user turn and its reply |
| Session.RunKeepsInv | src/App.tsx:24-131 | every event sequence keeps the invariant: no system turn is stored in the history or in a snapshot, every snapshot ends with a user turn, and loading implies an outstanding request |
| Session.Reachable | src/App.tsx:24-62 | from a fresh page, after any event sequence, the history has no system turn, loading implies an outstanding request, and every outstanding request has exactly one system turn, at position 0 |
| Session.ChatSession.constructor | src/App.tsx:10-16 | a fresh page has an empty history, an empty input, is not loading, and shows Japanese labels |
| Session.ChatSession.SetInput | src/App.tsx:115 | performs `OnInput` in place |
| Session.ChatSession.BeginSend | src/App.tsx:24-29 | tests `Trim(input) == []` and performs `OnSend` in place, returning the snapshot; a returned snapshot is non-empty, ends with the user turn and holds no system turn |
| Session.ChatSession.Resolve | src/App.tsx:48-54 | performs `OnSettle` in place from the given snapshot |
| Session.ChatSession.ClickSend | src/App.tsx:119-121 | performs `OnClick` in place |
| Session.ChatSession.KeyDown | src/App.tsx:58-62 | performs `OnKeyDown` in place |
| Session.ChatSession.Clear | src/App.tsx:131 | performs `OnClear` in place |
| Session.ChatSession.ToggleLang | src/App.tsx:80 | performs `OnToggle` in place |
| Session.ChatSession.HandleSend | src/App.tsx:24-55 | with nothing in between, a blank input changes nothing; otherwise the history gains the user turn and the turn for the service's answer to the request built from the snapshot, the input is empty and loading is off |
| Scenarios.ReplyArrives | src/App.tsx:24-55 | sending "Hello" and receiving "Hi there" ends with those two turns, not loading |
| Scenarios.RequestFails | src/App.tsx:50-53 | sending "Hello" and failing, for any cause, ends with the user turn and the fixed error turn, not loading |
| Scenarios.BlankIgnored | src/App.tsx:25 | sending two spaces issues no request and leaves the history empty, the page idle and the spaces in the input |
| Scenarios.ClickWhileBusy | src/App.tsx:119-121 | a click while loading is ignored, so only the first turn and its reply are shown and the second text stays in the input |
| Scenarios.ClearBeforeReply | src/App.tsx:26-51 | clearing before the reply empties the history, and the reply then restores the user turn next to itself |
| Scenarios.EnterWhileBusy | src/App.tsx:58-62 | Enter while loading starts a second request; the first reply stops loading, then the second reply replaces the history and drops the first reply |

## Left out

- The HTTP call (URL, headers, the API key read from the environment, JSON parsing of `choices[0].message.content`, src/App.tsx:32-48). It is foreign library and network code. Its result is the `Outcome` parameter, or the `complete` function passed to `HandleSend`. The request body is modelled only as model name plus message list.
- React's update batching and re-rendering, and the event loop. A send is two sequential steps, `BeginSend` and `Resolve`. Interleavings are sequences of events in `Run`. `Settle(k, outcome)` settles the k-th outstanding request, and an index with no request does nothing.
- Requests that never settle. Nothing in the model forces a settlement, so such a page simply stays loading.
- A response whose `choices[0].message` has no `content`, or a `null` one, is stored by src/App.tsx:49 as an assistant turn with an undefined or null content and no error text. `Success` carries a string, so the model cannot express that turn.
- The scroll-into-view effect (src/App.tsx:66-68) and all markup and styling (src/App.tsx:70-137), apart from the handlers they attach.
- `preventDefault` on Enter (src/App.tsx:60) and the newline that Shift+Enter inserts. They only change what the text area shows, which arrives through `SetInput`.
- `IsWhitespace` is the ECMAScript whitespace and line-terminator set for current Unicode versions (U+180E is not whitespace). Older engines that strip U+180E are not modelled.
