# Graphite writing assistant — a Dafny model of its core logic

Graphite is a writing assistant with two parts:

- a Flask endpoint, `/chat`, that forwards a conversation to a language model;
- a React client that shows the model's suggestions on the user's text.

Each suggestion is a comment of one type: REPLACE, ADD_BEFORE, ADD_AFTER, REMOVE, QUESTION, or THREAD-STARTER (the suggestion that a side thread was opened on). Each comment also has an anchor and a text.

This project models the sequential logic under the web plumbing and proves its properties:

- **Request normalizer** (`Server`, from `app.py`). Before the model is called, each assistant message that carries a thread starter becomes a system "focus" instruction. Remaining assistant dictionary content becomes its Python `str`. An empty list is rejected. The normalizer's two failure modes are modelled as results: a missing list, and an assistant message whose content is a string.
- **Suggestion card** (`SuggestionCard`, from `Suggestion.js`). A decision table takes the type, the status, whether the anchor is present, the hover state and the view. It gives:
  - the header title and status badge;
  - the body's reading order;
  - which of these controls exist: hover/leave handlers, Accept, the disabled "Missing Anchor" button, Dismiss, and open-thread.
- **Side thread** (`ThreadPanel`, from `Thread.js`). The `Thread` class holds the log and the input. It covers seeding from a suggestion, the send handler (the network reply is an input), and how each message is drawn.
- **Main chat** (`ChatPanel`, from `Chat.js`). The `Chat` class covers:
  - the two seed system messages, rebuilt whenever the editor content changes;
  - the send handler, which stores replies as JSON text;
  - the list of messages shown.
- **Inline comments** (`Editor`, from `TextEditor.js`). The editor holds a list of `Comment` objects and a persisted copy. Storage is a `map` field keyed like `localStorage`. The code covers:
  - the comment box as a state machine;
  - add and resolve;
  - the thread's in-place reply push.
- **Tag input** (`TagInput`, from `Tags.js`). The trim-and-non-empty guard, the add handler and its flag, and the remove callback.

Shared pieces:

- `Common` holds `Option` and `Result`.
- `Strings` models ECMAScript `trim` (its white-space set) and `includes`. Each is proved against a reference definition.
- `Messages` holds the wire records. It also has the two serialisations the code depends on: `JSON.stringify` of a reply, and Python's `str` of a dictionary.

## Model

| member | source | states |
|---|---|---|
| Strings.TrimEmptyIff | src/components/Thread.js:25 | `s.trim() === ''` holds exactly when every character of `s` is ECMAScript white space |
| Strings.TrimIsSlice | src/components/Tags.js:12 | the trimmed string is a contiguous slice of the input, and only white space lies outside it |
| Strings.IncludesIff | src/components/Suggestion.js:40 | the scan `includes` is true exactly when the anchor occurs at some position of the text, both directions |
| Server.FirstStarter | app.py:32-38 | the index where the comment loop breaks is the first THREAD-STARTER, and none is found exactly when there is none |
| Server.RewriteAllIndexwise | app.py:28-38 | the rewrite loop succeeds iff every message rewrites, keeps length and index, and otherwise fails with the error of the first message that raises |
| Server.RewriteInPlace | app.py:28-38 | overwriting `messages[i]` in place with the inner break gives the rewrite of the original list, or the error it raises |
| Server.StringifyAll | app.py:39-42 | the comprehension keeps length, leaves no assistant message with dictionary content, turns each such message into its Python `str` in place, and returns every other message unchanged |
| Server.Chat | app.py:26-46 | the endpoint's handling of a body, as a method over a mutable list, agrees with `Server.Handle` on every request |
| Server.LengthAndOrderKept | app.py:28-42 | a forwarded list has the input's length, and message i is the stringified rewrite of input i |
| Server.NonAssistantUnchanged | app.py:28-42 | user and system messages are forwarded unchanged |
| Server.StarterBecomesFocus | app.py:32-38 | an assistant message with a thread starter becomes the system focus message for the anchor of its first one |
| Server.AssistantDictStringified | app.py:39-42 | other assistant dictionary content is forwarded as its Python `str` |
| Server.NoAssistantDictForwarded | app.py:39-42 | no forwarded message is an assistant message with dictionary content |
| Server.EmptyRejected | app.py:45-46 | the 400 "Messages are required" answer is given exactly for the empty list |
| Server.RaisesIff | app.py:27-31 | a missing list raises the TypeError of `enumerate(None)`; a list raises iff it holds an assistant message with string content, and then it is the AttributeError of `.get` on a str |
| Server.CorrectedAgreesWhereDefined | app.py:28-42 | the corrected normalizer answers every request the original answers, in the same way |
| Server.CorrectedForwardsStrings | app.py:39-42 | the corrected normalizer forwards a list with assistant string content, keeping those messages as sent |
| SuggestionCard.TypeTable | src/components/Suggestion.js:10-31 | the table has an entry exactly for the five editing types |
| SuggestionCard.AnchorPresent | src/components/Suggestion.js:40 | the anchor is present iff it is a literal, case-sensitive substring of the editor content |
| SuggestionCard.BadgeText | src/components/Suggestion.js:116-119 | the badge reads "Accepted" exactly for `'accepted'` and "Dismissed" for any other status |
| SuggestionCard.Render | src/components/Suggestion.js:33-36 | rendering fails (destructuring `undefined`) exactly for a type that is not in the table, not THREAD-STARTER and not a key every object inherits from `Object.prototype` |
| SuggestionCard.InheritedKeyUntitled | src/components/Suggestion.js:35-36 | a type named after an inherited key such as `toString` renders without throwing: the header has no icon or title, the body is empty (the `default` case), and the usual controls are offered while the status is falsy |
| SuggestionCard.HoverGating | src/components/Suggestion.js:107-108 | the hover handler exists iff the anchor is present and no status is recorded; the leave handler exists iff no status is recorded |
| SuggestionCard.AcceptGating | src/components/Suggestion.js:132-152 | Accept is offered iff status is falsy, the type is neither QUESTION nor THREAD-STARTER, and the anchor is present; "Missing Anchor" is shown under the same conditions with the anchor absent |
| SuggestionCard.DismissGating | src/components/Suggestion.js:132-160 | Dismiss is offered iff status is falsy and the type is not THREAD-STARTER, whatever the anchor |
| SuggestionCard.SettledHasNoActions | src/components/Suggestion.js:116-160 | with a status set, the action bar is empty and the header shows the badge |
| SuggestionCard.StarterIsBare | src/components/Suggestion.js:111-132 | a THREAD-STARTER renders with no header, no action bar and the starter colour, showing only its anchor |
| SuggestionCard.Titles | src/components/Suggestion.js:10-31 | both additions read ADD, REMOVE reads DELETE, REPLACE and QUESTION keep their names, THREAD-STARTER has no entry |
| SuggestionCard.BodyOrder | src/components/Suggestion.js:42-80 | the body reads text before anchor for ADD_BEFORE, anchor alone for REMOVE and THREAD-STARTER, anchor then text otherwise; the anchor is struck through exactly for REPLACE and REMOVE |
| SuggestionCard.OpenThreadGating | src/components/Suggestion.js:122-126 | the open-thread button appears iff not in thread view and hovered |
| ThreadPanel.Thread.constructor | src/components/Thread.js:7-22 | a new thread holds exactly the seed for its suggestion and an empty input |
| ThreadPanel.Thread.Reseed | src/components/Thread.js:17-22 | a new suggestion replaces the whole log by its seed |
| ThreadPanel.Thread.Edit | src/components/Thread.js:93 | typing changes the input only |
| ThreadPanel.Thread.Send | src/components/Thread.js:24-47 | a whitespace-only input changes nothing; otherwise the user message is appended, the input cleared, the new log posted, and only an answer appends an assistant message with its data |
| ThreadPanel.IsHovered | src/components/Thread.js:65 | a card is hovered exactly when it is the hovered suggestion |
| ThreadPanel.RenderMessage | src/components/Thread.js:55-72 | cards are drawn exactly for assistant messages with a payload, one per comment |
| ThreadPanel.ThreadCardsPending | src/components/Thread.js:58-67 | every thread card is gated as pending: no badge, no open-thread button, Dismiss offered, Accept iff non-question with its anchor present |
| ThreadPanel.ThreadRequestForwarded | src/components/Thread.js:27-35 | every log a thread can post passes the normalizer without raising, keeping its length |
| ChatPanel.InitialHistory | src/components/Chat.js:13-20 | the seed is two system messages, the user's text after the fixed prefix and then the fixed instruction, and nothing of it is shown |
| ChatPanel.InitialHistoryRecoversText | src/components/Chat.js:13-14 | two seeds are equal exactly when they were built from the same text |
| ChatPanel.VisibleAppend | src/components/Chat.js:57-58 | the filter distributes over concatenation, so shown messages keep their order |
| ChatPanel.VisibleMembers | src/components/Chat.js:57-58 | a message is shown iff it is in the log and is not a system message |
| ChatPanel.VisibleOfNonSystem | src/components/Chat.js:57-58 | a log without system messages is shown whole |
| ChatPanel.VisibleOfChatLog | src/components/Chat.js:57-58 | what the chat shows is everything after its two seed messages |
| ChatPanel.Chat.constructor | src/components/Chat.js:5-11 | a mounted chat holds the seed for its content and an empty input |
| ChatPanel.Chat.ContentChanged | src/components/Chat.js:8-11 | a changed content resets the log to its new seed, dropping all user and assistant messages; an unchanged one leaves it |
| ChatPanel.Chat.Edit | src/components/Chat.js:72 | typing changes the input only |
| ChatPanel.Chat.Send | src/components/Chat.js:22-45 | a whitespace-only input changes nothing; otherwise the user message is appended and the input cleared, and only an answer appends an assistant message whose content is the reply's JSON text |
| ChatPanel.AnsweredChatRequestRaises | src/components/Chat.js:39-40 | once a reply is stored, every request the main chat posts raises the AttributeError in the endpoint, while the corrected endpoint forwards it |
| ChatPanel.UnansweredChatRequestForwarded | src/components/Chat.js:25-33 | before any reply is stored, the endpoint forwards the main chat's request unchanged |
| ChatPanel.SendAfterReply | src/components/Chat.js:22-45 | a send from a chat that holds a stored reply posts its log plus the user message, which raises the AttributeError in the endpoint as written and is forwarded by the corrected one |
| ChatPanel.SecondSendRaises | src/components/Chat.js:22-45 | a run of the chat panel itself: mount, one answered send, a second send; the second request, of five messages, raises |
| Editor.Comment.FromRecord | src/components/TextEditor.js:15 | a comment rebuilt from storage has exactly the stored fields |
| Editor.WithoutMembers | src/components/TextEditor.js:79 | the filter keeps exactly the comments with another id |
| Editor.WithoutAppend | src/components/TextEditor.js:79 | the filter distributes over concatenation, so kept comments stay in order |
| Editor.WithoutAbsent | src/components/TextEditor.js:77-83 | resolving an id no comment has leaves the list unchanged |
| Editor.WithoutLength | src/components/TextEditor.js:79 | the filter removes exactly as many comments as carry the id |
| Editor.TextEditor.constructor | src/components/TextEditor.js:15-27 | loading rebuilds the list from the stored copy (empty when absent) with the box closed, empty and without a range |
| Editor.TextEditor.EditComment | src/components/TextEditor.js:180 | typing in the box changes its text only |
| Editor.TextEditor.AddComment | src/components/TextEditor.js:35-57 | from the open box, exactly one new comment `{id, text, [], range}` is appended, its range always present, storage holds the new list, the box is closed and emptied |
| Editor.TextEditor.CancelComment | src/components/TextEditor.js:60-63 | the box is closed and emptied, nothing else changes |
| Editor.TextEditor.KeyDown | src/components/TextEditor.js:65-73 | Ctrl/Cmd-K over a selection that is not collapsed records it and opens the box; anything else leaves the box state alone |
| Editor.TextEditor.BlurCommentBox | src/components/TextEditor.js:182-187 | leaving a whitespace-only box cancels it; otherwise nothing changes |
| Editor.TextEditor.ResolveComment | src/components/TextEditor.js:77-83 | the list becomes its filter by id, and storage holds the filtered list |
| Editor.CommentThread.constructor | src/components/TextEditor.js:277-278 | a thread starts with an empty reply box |
| Editor.CommentThread.EditReply | src/components/TextEditor.js:341 | typing changes the reply box only |
| Editor.CommentThread.AddReply | src/components/TextEditor.js:298-301 | the reply is pushed onto the end of the comment's own replies and the box is cleared |
| Editor.ReplyNotPersisted | src/components/TextEditor.js:298-301 | a reply reaches the comment the editor lists but leaves the editor's state, storage included, untouched |
| TagInput.TagToAdd | src/components/Tags.js:11-12 | a tag is produced iff the input is not all white space, and it is non-empty, has no white space at either end, and occurs in the input |
| TagInput.AddedTagIsTrimmed | src/components/Tags.js:12 | the reported tag is already trimmed |
| TagInput.RemoveClicked | src/components/Tags.js:39 | the close button of the `i`-th tag reports the removal of that tag's own value, not of its position |
| TagInput.RemoveByValue | src/components/Tags.js:34-39 | two tags with equal text give the same removal event, wherever they sit |
| TagInput.Tags.constructor | src/components/Tags.js:5-6 | the input starts empty with the flag down |
| TagInput.Tags.Edit | src/components/Tags.js:49 | typing changes the input only |
| TagInput.Tags.AddTag | src/components/Tags.js:9-16 | a whitespace-only input reports nothing and changes nothing; otherwise the trimmed tag is reported, the input cleared and the flag raised |
| TagInput.Tags.AfterRender | src/components/Tags.js:18-23 | with the container mounted a raised flag is lowered; the input is unchanged |

## Left out

- Network and the language model: `fetch` in Thread.js and Chat.js, the completion call and Flask routing in app.py. The reply is an input (`Reply`: an answer, a body with an `error` field, or a thrown exception), and the endpoint's result stops at the list handed to the completion call.
- Asynchrony: sends are sequential. A second send before a reply arrives, and the difference between Thread.js building from its closure and Chat.js using `prev`, are not modelled.
- A reply whose `error` field is present but falsy (the empty string) is treated as an answer by the client; the model's `ErrorField` stands for a truthy error only.
- The model's refusal or structured-output failures are not modelled, since the completion service is out of scope.
- Request bodies that are not a JSON object (such as `null` or a list, where `data.get` raises), a `messages` value that is not a list, and an assistant message whose `content` is `null` (where `.get` on `None` raises) are not modelled; `Server.Request` is always an object whose `messages` is absent or a list of well-formed messages.
- Message roles other than system, user and assistant, a message without a `content` key, and comment fields that are not strings are not modelled.
- `Messages.Json` and `Messages.PyRepr` approximate `JSON.stringify` and Python's `str`. The approximations cover key order and quoting but not every escape rule, and the proofs depend only on their results being strings.
- ThreadPanel.IsHovered: object identity (`===`) is modelled as equality of values, so two equal suggestion objects count as the same one.
- ThreadPanel.Thread.Reseed: React runs it when the `suggestion` prop changes identity; the model lets the caller invoke it.
- Accepting and dismissing a suggestion, the status store and the global hover state are outside these files; the card only reports which controls exist.
- Slate work in TextEditor.js: marks, `Transforms`, `withComments`, `Leaf`, and the selection lookup of the active comment. Ranges are values.
- All DOM and UI work: geometry, scrolling, focus, the `isFocused` styling, JSX and styles.
- `Date.now()` ids are a parameter of `Editor.TextEditor.AddComment`; their uniqueness is not assumed.
- Storage is a map from keys to comment lists. The editor's content key and its writes are not modelled, and the stored list is read once, at construction.
- src/components/formatting.js, src/App.js, src/components/CommentSidebar.js and src/components/CommentThread.js are not part of this model.

## Findings

| source | as written | input that shows it | evidently intended | confidence | as-written member | corrected member |
|---|---|---|---|---|---|---|
| app.py:30-31 with src/components/Chat.js:39-40 | the main chat stores each reply as its JSON string, and the endpoint calls `content.get('comments', [])` on the content of every assistant message, which raises AttributeError on a string | the main chat's log after one answered send, posted with a second user message | assistant messages whose content is a string pass through the normalizer, as the `isinstance(..., dict)` guard of the second pass already expects | not executed | ChatPanel.SecondSendRaises | Server.CorrectedAgreesWhereDefined |
