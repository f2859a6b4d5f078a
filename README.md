# Dify chat web client: conversation bookkeeping in Dafny

This project models the browser side of a small chat client for a Dify
chat service. It covers four parts:

- **Conversation repository** (`ConversationStorage`): it keeps an ordered
  list of conversation records and a "current conversation" pointer in
  the browser's `localStorage`. It derives a title from the first user
  message and creates empty conversations.
- **Message-lifecycle controller** (`ChatWindow`): it holds five pieces of
  view state: the transcript, the loading flag, the service's conversation
  id, the error banner and the current record's id. Its four handlers
  (send, edit, delete, regenerate) change the transcript and persist it
  through the repository.
- **Per-message menu** (`MessageMenu`): which actions it offers for a
  message's role and position, and its open / editing / edit-text state.
- **Input box** (`MessageInput`): when a send fires and what text it sends,
  image validation, and clearing after a send.

The module `ChatView` wires these together the way the chat view does:
the input box sends under the view's disabled flag, and each menu calls the
handlers with its own index. It also holds two end-to-end scenarios of a send.
`Messages`, `Strings` and `Wrappers` hold the shared message type,
JavaScript's `trim`, truthiness and `startsWith`, and `Option`.

Modelling choices:

- **localStorage** is the class `ConversationStorage.Store`. It has two
  fields, `list` and `pointer`:
  - `list` is missing, unparsable, or a parsed sequence of records. JSON
    text is not modelled.
  - `pointer` is the current-conversation key, absent or a string.
- **Inputs instead of browser calls.** These are parameters: every
  `Date.now()` reading, the random id suffix, whether a `localStorage`
  write succeeds, the `confirm` answer, the chosen file, and the
  FileReader's data URL.
- **Records are values.** `saveConversation` stamps `updatedAt` on the
  caller's object. `Store.Save` returns that stamped record as `saved`,
  and the handlers report it as `notified`, the value passed to
  `onConversationUpdate`.
- **The remote chat call is an oracle.** Each asynchronous handler is split
  in two:
  - a Begin method returns what the handler's closure has captured (the
    transcript, the conversation id, the current record id and the
    request);
  - a Complete method takes that capture and an `Outcome`, which is either
    an answer with an optional conversation id, or a failure with an
    optional Error message.

  Because the closure values are kept, a stale capture behaves as it does
  in the browser.
- **JavaScript truthiness is explicit.** `Strings.Truthy` is used wherever
  the source tests `if (id)`, `x || y` or `!!error`. So an empty-string
  error does not disable the input, and an empty conversation id is never
  forwarded.
- **`trim`** removes ECMA-262's WhiteSpace and LineTerminator code points
  (sections 12.2 and 12.3). A string's `length` is its sequence length.

The model follows the code in four places where the code behaves differently
from what a reader of the component might expect:

- A failed send to an existing record keeps that record's title and
  conversation id.
- A failed send that recreates or creates a record gives it no
  conversation id.
- Neither an edit nor a successful regenerate recomputes the title. A
  delete does.
- The error is cleared by the banner's close button, and also by starting a
  send or a regenerate. The regenerate button is not gated by the
  disabled flag, so a regenerate can clear a shown error.

## Model

| member | source | states |
|---|---|---|
| Strings.Trim | src/services/conversationStorage.ts:134 | `trim` keeps the infix between the leading and trailing whitespace. Everything cut off is whitespace; the result neither starts nor ends with whitespace; it is empty exactly when the input is all whitespace |
| Strings.TrimIdempotent | src/components/MessageMenu.tsx:71-72 | trimming twice equals trimming once, so an edit saved from trimmed text is stable |
| Strings.SkipSpace | src/components/MessageInput.tsx:16 | the first non-whitespace index at or after `i`, with everything skipped being whitespace |
| Strings.BackSpace | src/components/MessageInput.tsx:16 | the end of the text once trailing whitespace is dropped, never below `lo`, with everything dropped being whitespace |
| Strings.Truthy | src/components/ChatWindow.tsx:84 | a `string \| null` is truthy exactly when it is present and non-empty |
| Strings.StartsWith | src/components/MessageInput.tsx:32 | `startsWith`: the prefix fits and agrees with the text character by character |
| Messages.FirstUserIndex | src/services/conversationStorage.ts:128 | `find(m => m.role === 'user')`: the first user message's index, or -1 exactly when there is none |
| Messages.LastUserIndex | src/components/ChatWindow.tsx:224 | the last user message's index, or -1 exactly when there is none |
| Messages.Reverse | src/components/ChatWindow.tsx:224 | `[...ms].reverse()`: same length, element k is element n-1-k |
| Messages.FindInReversedIsLastUser | src/components/ChatWindow.tsx:224 | searching the reversed copy from the front finds the last user message of the original, and finds nothing exactly when it has none |
| ConversationStorage.IndexOfId | src/services/conversationStorage.ts:39 | `findIndex`: the first index with the id, or -1 exactly when no entry has it |
| ConversationStorage.Lookup | src/services/conversationStorage.ts:61-64 | `getConversation`'s `find(...) \|\| null`: None exactly when no entry has the id; otherwise the first entry with it |
| ConversationStorage.Upsert | src/services/conversationStorage.ts:39-47 | an existing id is replaced at its index with length and all other entries unchanged; a new id goes to index 0 with the old list after it |
| ConversationStorage.UpsertThenLookup | src/services/conversationStorage.ts:36-56 | after a save, looking the id up yields exactly the saved record |
| ConversationStorage.UpsertKeepsOthers | src/services/conversationStorage.ts:39-47 | a save changes no other id's lookup |
| ConversationStorage.UpsertKeepsUnique | src/services/conversationStorage.ts:44-47 | a save keeps ids unique |
| ConversationStorage.UpsertSingleEntry | src/services/conversationStorage.ts:39-47 | if the id occurred at most once, it occurs exactly once after the save, so repeated saves never duplicate a conversation |
| ConversationStorage.CountZero | src/services/conversationStorage.ts:39 | the id count is zero exactly when no entry has the id |
| ConversationStorage.CountReplace | src/services/conversationStorage.ts:43 | replacing an entry by one with the same id keeps every id's count |
| ConversationStorage.WithoutId | src/services/conversationStorage.ts:72 | `filter(c => c.id !== id)`: the kept entries are exactly those with another id, and never more than before |
| ConversationStorage.WithoutAbsentId | src/services/conversationStorage.ts:72 | deleting an id no entry has leaves the list unchanged |
| ConversationStorage.WithoutIdAppend | src/services/conversationStorage.ts:72 | the filter distributes over concatenation, so kept entries keep their order |
| ConversationStorage.WithoutUniqueId | src/services/conversationStorage.ts:69-73 | with unique ids, deleting the id at index k yields the list without exactly that one entry, in order |
| ConversationStorage.DeletedIsGone | src/services/conversationStorage.ts:61-73 | after a delete, `getConversation(id)` finds nothing |
| ConversationStorage.LookupCons | src/services/conversationStorage.ts:63 | `find` on a list with an entry in front returns that entry when it has the id, and otherwise searches the rest |
| ConversationStorage.WithoutIdKeepsOthers | src/services/conversationStorage.ts:61-73 | a delete changes no other id's lookup |
| ConversationStorage.GenerateTitle | src/services/conversationStorage.ts:122-140 | a title is never empty and at most 33 characters long. Without a user message it is the new-conversation placeholder; when the first user message is all whitespace it is the attachment placeholder |
| ConversationStorage.TitleOnlyFromFirstUser | src/services/conversationStorage.ts:128-139 | two transcripts whose first user messages have the same content get the same title |
| ConversationStorage.TitleStableUnderAppend | src/services/conversationStorage.ts:128-139 | once a user message exists, appending turns never changes the title |
| ConversationStorage.TitleIsTrimmedPrefix | src/services/conversationStorage.ts:134-139 | a title that is not a placeholder is the trimmed first user message, or its first 30 characters followed by "..." |
| ConversationStorage.TitleWithoutUserMessage | src/services/conversationStorage.ts:123-131 | no messages, or only assistant ones, give "新しい会話" |
| ConversationStorage.TitleOfBlankMessage | src/services/conversationStorage.ts:135-137 | an example of the general rule in GenerateTitle: a user message of blanks gives "画像を添付" |
| ConversationStorage.TitleOfLongMessage | src/services/conversationStorage.ts:139 | 40 characters are cut to 30 plus "..." |
| ConversationStorage.TitleOfShortMessage | src/services/conversationStorage.ts:128-139 | the first user message is used even after an assistant turn, and it is trimmed |
| ConversationStorage.DecimalDigits | src/services/conversationStorage.ts:147 | `${n}` is a non-empty run of decimal digits |
| ConversationStorage.NewId | src/services/conversationStorage.ts:147 | a new id starts with "conv-" and is longer than that prefix, so it is truthy |
| ConversationStorage.CreateNewConversation | src/services/conversationStorage.ts:145-154 | an empty conversation: no messages, no conversation id, title equal to the title of `[]`, the built id, and the two clock readings stored in order |
| ConversationStorage.Store.All | src/services/conversationStorage.ts:22-31 | the stored list, or the empty list when the key is missing or its data does not parse |
| ConversationStorage.Store.Get | src/services/conversationStorage.ts:61-64 | `getConversation`: null exactly when no stored record has the id; otherwise a stored record with that id |
| ConversationStorage.Store.CurrentId | src/services/conversationStorage.ts:88-95 | `getCurrentConversationId`: the stored key as it is, null when absent |
| ConversationStorage.Store.Save | src/services/conversationStorage.ts:36-56 | the caller's record and the stored one both carry `updatedAt = now`. The list becomes the upsert, then the saved id reads back as the saved record and every other id reads as before. A failed write changes nothing and raises nothing |
| ConversationStorage.Store.Delete | src/services/conversationStorage.ts:69-83 | the list loses every entry with the id, the id then reads back as nothing and other ids as before, and the pointer is cleared exactly when it named the id. A failed write changes nothing |
| ConversationStorage.Store.SetCurrentId | src/services/conversationStorage.ts:100-110 | a non-empty id is stored; null or "" removes the key; a failed write is swallowed |
| ConversationStorage.Store.ClearCurrentId | src/services/conversationStorage.ts:115-117 | the pointer is removed and the list is untouched |
| ConversationStorage.DeleteThenGet | src/services/conversationStorage.ts:61-83 | a delete followed by `getConversation` finds nothing, and the pointer is gone exactly when it named the id or was already gone |
| ChatWindow.ErrorText | src/components/ChatWindow.tsx:121 | the shown error is the thrown Error's message, or the fixed apology text when the thrown value is not an Error |
| ChatWindow.UserTurn | src/components/ChatWindow.tsx:52-61 | the user turn holds the text, or the image prompt when the text is empty and an image is attached; it has a preview URL exactly when there is an image |
| ChatWindow.ForwardedId | src/components/ChatWindow.tsx:69 | `conversationId \|\| undefined`: only a non-empty id is forwarded |
| ChatWindow.AdoptedId | src/components/ChatWindow.tsx:76-80 | a held non-empty id is kept. Otherwise the reply's id is adopted when it is non-empty. The result is truthy exactly when either one is |
| ChatWindow.AdoptedOnce | src/components/ChatWindow.tsx:76-80 | once a non-empty id is held, no later reply replaces it |
| ChatWindow.TargetFor | src/components/ChatWindow.tsx:84-105 | no current id gives a fresh record; a stored current id gives that record; an unstored one gives a new record under that id |
| ChatWindow.SuccessRecord | src/components/ChatWindow.tsx:83-115 | the saved record has the new transcript, the adopted id and a recomputed title. An existing record keeps its id and `createdAt`; a new one has the current id or the built id |
| ChatWindow.FailureRecord | src/components/ChatWindow.tsx:131-158 | an existing record changes only in its transcript and stamp, keeping its title and conversation id. A new record gets a computed title and no conversation id |
| ChatWindow.WithContent | src/components/ChatWindow.tsx:177-181 | an edit changes only the content of message `i`, keeping its role and image, the length and every other message |
| ChatWindow.RemoveAt | src/components/ChatWindow.tsx:200 | exactly message `i` is removed and the rest keep their order; an index past the end removes nothing |
| ChatWindow.RemoveAtShifts | src/components/ChatWindow.tsx:200 | removal shortens by one, keeps earlier messages in place and shifts later ones down by one |
| ChatWindow.ChatWindow.constructor | src/components/ChatWindow.tsx:28-32 | empty transcript, not loading, no conversation id, no error, no current record |
| ChatWindow.ChatWindow.InputDisabled | src/components/ChatWindow.tsx:322 | the input is enabled exactly when nothing is loading and no non-empty error is shown |
| ChatWindow.ChatWindow.DismissError | src/components/ChatWindow.tsx:303-304 | the banner's close button clears the error and nothing else |
| ChatWindow.ChatWindow.Load | src/components/ChatWindow.tsx:35-48 | a selected record's transcript, conversation id and id are loaded and the pointer follows; no selection clears all three and the pointer |
| ChatWindow.ChatWindow.BeginSend | src/components/ChatWindow.tsx:50-69 | the user turn is appended, the error is cleared, loading starts. The request carries the text, the held id if non-empty, and the image |
| ChatWindow.ChatWindow.CompleteSend | src/components/ChatWindow.tsx:70-164 | one assistant turn (the answer, or "エラー: " plus the error text, with the error shown) follows the captured transcript. A held id is never overwritten. The record chosen by TargetFor is saved, holds the shown transcript and reads back from the store. A fresh record becomes current. Loading ends |
| ChatWindow.ChatWindow.EditMessage | src/components/ChatWindow.tsx:176-197 | the transcript becomes WithContent. The edit is saved without a new title only when the current record is stored |
| ChatWindow.ChatWindow.DeleteMessage | src/components/ChatWindow.tsx:199-217 | the transcript becomes RemoveAt. A stored current record is saved with a recomputed title |
| ChatWindow.ChatWindow.BeginRegenerate | src/components/ChatWindow.tsx:219-242 | without a user message before `i` nothing changes. Otherwise the transcript becomes its first min(i, n) messages, the error clears, loading starts, and the last user message's text is resent without an image |
| ChatWindow.ChatWindow.CompleteRegenerate | src/components/ChatWindow.tsx:243-275 | an answer follows the truncated transcript, the id is adopted as in a send, and a stored record is saved without a new title. A failure only sets the error. Loading ends |
| MessageMenu.Offered | src/components/MessageMenu.tsx:144-178 | Copy and Delete always; Edit exactly for a user message with onEdit; Regenerate exactly for the last non-user message with onRegenerate |
| MessageMenu.PropsInList | src/components/MessageList.tsx:76-85 | the list gives each menu its message, its index, the role flag and the is-last flag |
| MessageMenu.OfferedInList | src/components/MessageMenu.tsx:152-170 | in a list, Regenerate is offered exactly on a last assistant message and Edit exactly on user messages, never both |
| MessageMenu.SavedEdit | src/components/MessageMenu.tsx:70-72 | onEdit is called exactly when it is supplied and the text is not all whitespace, with the index and the trimmed, non-blank text |
| MessageMenu.MessageMenu.constructor | src/components/MessageMenu.tsx:26-28 | closed, not editing, edit text equal to the message content |
| MessageMenu.MessageMenu.EditPanelShown | src/components/MessageMenu.tsx:96 | the editor is shown exactly when editing a user message |
| MessageMenu.MessageMenu.Visible | src/components/MessageMenu.tsx:132-180 | the offered actions are on screen exactly while the menu is open and the editor is not shown |
| MessageMenu.MessageMenu.Rerender | src/components/MessageMenu.tsx:16-28 | new props keep the open, editing and edit-text state |
| MessageMenu.MessageMenu.Toggle | src/components/MessageMenu.tsx:135 | the menu button flips open and closed |
| MessageMenu.MessageMenu.ClickOutside | src/components/MessageMenu.tsx:33-47 | a click outside closes the menu |
| MessageMenu.MessageMenu.HandleCopy | src/components/MessageMenu.tsx:60-63 | hands over the message and closes the menu |
| MessageMenu.MessageMenu.HandleEdit | src/components/MessageMenu.tsx:65-68 | enters editing mode and closes the menu |
| MessageMenu.MessageMenu.ChangeEditContent | src/components/MessageMenu.tsx:102 | typing replaces the edit text |
| MessageMenu.MessageMenu.HandleSaveEdit | src/components/MessageMenu.tsx:70-75 | reports SavedEdit of the current text and leaves editing mode either way |
| MessageMenu.MessageMenu.HandleCancelEdit | src/components/MessageMenu.tsx:77-80 | restores the message content and leaves editing mode |
| MessageMenu.MessageMenu.HandleDelete | src/components/MessageMenu.tsx:82-87 | reports the index only when confirmed; closes the menu either way |
| MessageMenu.MessageMenu.HandleRegenerate | src/components/MessageMenu.tsx:89-94 | reports the index when onRegenerate is supplied; closes the menu |
| MessageInput.CheckImage | src/components/MessageInput.tsx:32-41 | accepted exactly when the type starts with "image/" and the size is at most 10 MiB; the type is judged first |
| MessageInput.ImageLimits | src/components/MessageInput.tsx:32-41 | exactly 10485760 bytes is accepted, one more is too large, and a non-image is rejected whatever its size |
| MessageInput.CanSend | src/components/MessageInput.tsx:17 | a send fires exactly when the text is not all whitespace or an image is selected, and the box is enabled |
| MessageInput.OutgoingText | src/components/MessageInput.tsx:16-18 | the sent text is never empty: the trimmed input, or the image prompt when that is empty |
| MessageInput.MessageInput.constructor | src/components/MessageInput.tsx:10-12 | empty text, no image, no preview |
| MessageInput.MessageInput.SendButtonDisabled | src/components/MessageInput.tsx:116 | the send button is disabled exactly when the send guard fails |
| MessageInput.MessageInput.ChangeInput | src/components/MessageInput.tsx:107 | typing replaces the text and nothing else |
| MessageInput.MessageInput.HandleSend | src/components/MessageInput.tsx:15-26 | fires exactly when the trimmed text or an image is there and the box is enabled. It sends OutgoingText and the image, and clears text, image and preview. Otherwise nothing changes |
| MessageInput.MessageInput.HandleKeyDown | src/components/MessageInput.tsx:62-67 | Enter without Shift sends as HandleSend does; other keys change nothing |
| MessageInput.MessageInput.HandleImageSelect | src/components/MessageInput.tsx:28-52 | no file does nothing; a rejected file keeps the previous selection; an accepted one is selected and the preview is left to the reader's callback |
| MessageInput.MessageInput.PreviewLoaded | src/components/MessageInput.tsx:47-49 | the load-end callback sets the preview |
| MessageInput.MessageInput.HandleRemoveImage | src/components/MessageInput.tsx:54-60 | drops image and preview and keeps the text |
| ChatView.SentTextIsKept | src/components/ChatWindow.tsx:59 | the input box never sends empty text, so the window's own image-prompt fallback is never used |
| ChatView.Submit | src/components/ChatWindow.tsx:322 | a disabled view ignores a send. Otherwise the transcript grows by exactly the user turn with the sent text and one assistant turn, and earlier turns are untouched |
| ChatView.SaveEditFromMenu | src/components/MessageList.tsx:80 | a saved edit changes the transcript only when the trimmed text is non-empty, and then only that message's content |
| ChatView.DeleteFromMenu | src/components/MessageList.tsx:81 | a confirmed delete removes exactly that message; an unconfirmed one changes nothing |
| ChatView.RegenerateAt | src/components/ChatWindow.tsx:219-275 | regeneration cuts the transcript to min(i, n) messages. An answer makes it one longer with the answer last; a failure leaves it cut |
| ChatView.RegenerateFromMenu | src/components/MessageMenu.tsx:170 | the visible Regenerate button sits on the last, assistant message. Regenerating replaces that message with the new answer and keeps length and earlier turns |
| ChatView.HelloScenario | src/components/ChatWindow.tsx:50-118 | "Hello" answered with "Hi" and id "abc": the one stored record has both turns, the id and the title "Hello", and it becomes current |
| ChatView.TimeoutScenario | src/components/ChatWindow.tsx:119-161 | a "timeout" failure still saves the user turn and "エラー: timeout", with no conversation id, and disables the input |

## Left out

- ChatWindow.ChatWindow.CompleteSend, ChatWindow.ChatWindow.CompleteRegenerate, ChatWindow.ChatWindow.EditMessage, ChatWindow.ChatWindow.DeleteMessage: these assume the `onConversationUpdate` callback is supplied and returns normally; the record it receives is the `notified` result. In the source the callback runs inside the `try` (ChatWindow.tsx:68-118, 237-266). If it throws, the failure branch runs after a success record was already saved: the answer is replaced by the error turn, and a send with no current record saves a second record under a new id. `src/App.tsx:10` renders the window without props, so in that wiring the callback is undefined and throws; the model does not capture this.
- `server.js`, the HTTP relay, is not part of this model. The chat service call (`src/services/chatApi.ts`), including its error-text and empty-answer defaults, is replaced by the `Outcome` input.
- Conversation export, the sidebar, `App.tsx` and all rendering, scrolling and focus effects are not modelled.
- The cross-tab `storage` listener is not modelled: it is concurrent, and the model treats each handler as one step.
- JSON text is not modelled. A stored list is a parsed sequence, or the single state "does not parse".
- `getItem` throwing is not modelled; only a failing `setItem` (the `writeOk` input) is.
- Each handler reads a single `writeOk` flag. The model does not cover a pointer write and a list write within one handler succeeding differently.
- Strings are sequences of characters, not UTF-16 code units. So `length` and `substring` on text outside the Basic Multilingual Plane count differently.
- The clipboard write, the `console` logging and the `alert` dialogs are left out. Copy is modelled as the menu handing over its message.
- The banner's extra hint, shown when the error text mentions 環境変数, is rendering and is not modelled.
- Resetting the file input's DOM value is not modelled.
- `URL.createObjectURL` is the `previewUrl` input. The FileReader is the separate `PreviewLoaded` step, so a preview that arrives after a send has cleared the box shows up again, as it does in the browser.
- createNewConversation reads the clock three times. The id time and `createdAt` are inputs. The third reading, `updatedAt`, is always overwritten by the save, so the handlers pass `createdAt` in its place.
- ChatWindow.ChatWindow.EditMessage: requires an index inside the transcript. The source would write past the end of a copy of the array, which the menu never does.
