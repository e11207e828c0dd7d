# Chat send and block protocol

A model of the two-party chat client's core: how the `Chat` component sends a
message and how the `Detail` component blocks or unblocks the counterpart.
The Firestore and Storage calls are replaced by an in-memory backend and by
oracles that say whether each remote call succeeds.

- `Store` (`store.dfy`) holds the backend. It has three collections held as maps:
  `chats` (chat id to message log), `userchats` (user id to that user's list of
  conversation summaries) and `blocked` (user id to the `blocked` array of the
  user's record). It also holds the `arrayUnion` and `arrayRemove` transforms that the
  components send with `updateDoc`.
- `Chat` (`chat.dfy`) holds the component state as a class `ChatView`: the draft
  `text` and `img`, the emoji-picker flag and the last snapshot. Its methods are
  `HandleEmoji`, `HandleImage`, `OnSnapshot` and `HandleSend`.
  - `HandleSend` works step by step, as the source does. It checks the guard and
    uploads the image when one is picked. It creates the log when absent, appends
    the message and updates each participant's summaries in a loop. Last it clears
    the draft.
  - The method is proved equal to the pure function `SendEffect`. The send's
    properties are stated on `SendEffect` and on the functions and lemmas beside it.
  - The same module also holds the send-gating predicate, the placeholder, the
    "own message" test and the upload path.
- `Detail` (`detail.dfy`) holds the block toggle. `HandleBlock` changes the current
  user's `blocked` array and then flips the chat store's `isReceiverBlocked`. It is
  proved equal to the pure function `BlockToggle`. The module also holds the
  block button's label.

Each remote call's outcome is an input. `SendEnv` gives the blob store's URL per
path and whether each chat-document read and write succeeds. It also gives, for
each participant, whether their summary update goes through, plus the clock
readings. `HandleBlock` takes whether its one write succeeds.

Points of the send path worth knowing:

- `handleSend` does not check block state. Only the `disabled` attribute on the
  input and the button (`SendDisabled`) gates sending.
- The message is added with `arrayUnion`, not a plain append. If an identical
  message (same sender, text, time and image) is already in the log, the log
  stays as it was. `SendEffect` states this case.
- `user.id` is read after the append. Without a selected counterpart it throws
  inside the `try`, so the message stays appended and no summary changes. The
  draft is also left uncleared (status `PeerMissing`).
- The log can be created and the append can then fail. That leaves an empty log
  behind (status `LogError`).
- A failed summary update is not caught by the `catch`: it is an unhandled
  rejection of the unawaited callback. Its effect is the same as a caught one,
  because that user's list stays unchanged.

## Model

| member | source | states |
|---|---|---|
| Store.ArrayUnion | src/components/chat/Chat.jsx:92-94 | the array then holds exactly its old elements plus x; it keeps its old contents as a prefix; x goes at the end when it was absent, and the array is unchanged when x was already there |
| Store.ArrayRemove | src/components/detail/Detail.jsx:21 | the array then holds exactly its old elements other than x, and is unchanged when x was absent |
| Store.ArrayRemoveCounts | src/components/detail/Detail.jsx:21 | every occurrence of x leaves the array and every other element stays as many times as it was there |
| Store.ArrayRemoveCons | src/components/detail/Detail.jsx:21 | the head of the array is dropped exactly when it is x, and the rest is filtered the same way |
| Store.ArrayRemoveAppend | src/components/detail/Detail.jsx:21 | removing x from a concatenation removes it from each part, so the kept elements keep their order |
| Store.ArrayRemoveOne | src/components/detail/Detail.jsx:21 | a single element is dropped exactly when it is x |
| Chat.TrimStart | src/components/chat/Chat.jsx:66 | the leading part dropped by trim() is all whitespace, and what is kept is a suffix of the text starting with a non-whitespace character |
| Chat.TrimEnd | src/components/chat/Chat.jsx:66 | the trailing part dropped by trim() is all whitespace, and what is kept is a prefix of the text ending with a non-whitespace character |
| Chat.TrimShape | src/components/chat/Chat.jsx:66 | `text.trim()` is the slice of the text between a whitespace prefix and a whitespace suffix, and is empty or starts and ends with a non-whitespace character |
| Chat.TrimEmptyIffBlank | src/components/chat/Chat.jsx:66 | `text.trim()` is empty exactly when every character of the text is JavaScript whitespace |
| Chat.EmojiMakesTextSendable | src/components/chat/Chat.jsx:28-31 | appending an emoji that is not all whitespace makes the text non-blank, so it passes the guard's trim test |
| Chat.Truthy | src/components/chat/Chat.jsx:66-89 | JavaScript truthiness of a string that may be null, as the guard tests `chatId` and the message build tests `imgUrl`: null and "" are falsy (a definition; its consequences are stated by NothingToSend and NewMessage) |
| Chat.NothingToSend | src/components/chat/Chat.jsx:66 | the early return happens exactly when no conversation id is set (null or ""), nobody is signed in, or the text is all whitespace and no file is picked |
| Chat.SendDisabled | src/components/chat/Chat.jsx:183-195 | the `disabled` attribute of the input and the Send button: either block flag set (a definition; Placeholder and BlockLabel are stated against it) |
| Chat.Placeholder | src/components/chat/Chat.jsx:176-183 | the placeholder reads "You cannot send a message" exactly when the controls are disabled (either block flag set), "Type a message..." otherwise |
| Chat.IsOwn | src/components/chat/Chat.jsx:152-154 | a message is drawn as the viewer's own exactly when its sender id is the viewer's id (a definition; SentMessagesAreSendersOwn ties it to the send) |
| Chat.UploadPath | src/components/chat/Chat.jsx:45 | the storage path is images/ followed by the file's name |
| Chat.UploadedName | src/components/chat/Chat.jsx:45 | a name recovered from a storage path gives back that path under images/ |
| Chat.UploadPathRoundTrip | src/components/chat/Chat.jsx:45 | the file name can be read back from the storage path images/name |
| Chat.UploadPathCollision | src/components/chat/Chat.jsx:45 | two files get the same storage path exactly when their names are equal |
| Chat.UploadImage | src/components/chat/Chat.jsx:43-50 | no file gives null; otherwise the upload yields the blob store's URL for images/name, or fails exactly when the store has none |
| Chat.NewMessage | src/components/chat/Chat.jsx:82-90 | the message is the sender's own with the untrimmed text and the clock reading; `img` is set exactly when the URL is truthy |
| Chat.EnsureLog | src/components/chat/Chat.jsx:75-80 | on success the log exists, an existing log is kept as it was, and a missing one is created empty; it fails exactly when the read fails or a needed create fails |
| Chat.EnsureLogIdempotent | src/components/chat/Chat.jsx:75-80 | making sure the log exists twice gives the same chats as doing it once |
| Chat.FindChatIndex | src/components/chat/Chat.jsx:106 | the result is the first index whose entry has the chat id, or -1 exactly when no entry has it |
| Chat.TouchEntries | src/components/chat/Chat.jsx:106-111 | the list keeps its length and every entry's chat id and counterpart; only the first entry of the conversation changes, taking the new last message, seen flag and time |
| Chat.UserChatsAfter | src/components/chat/Chat.jsx:101-118 | one participant's update changes only that user's list, and only when the record exists and the read/write succeed; no record is created |
| Chat.IndexAfterSend | src/components/chat/Chat.jsx:98-120 | after the updates no record is created, users not in the id list are untouched, every list keeps its length, chat ids and counterparts, and entries of other conversations are unchanged |
| Chat.TwoPartyIndex | src/components/chat/Chat.jsx:98-120 | with distinct participants, the sender's entry is set seen and the receiver's unseen, each only if its own update succeeds |
| Chat.Outgoing | src/components/chat/Chat.jsx:68-90 | the sent message is the sender's own with the draft text; it carries an image exactly when a file was picked and the blob store returned a non-empty URL for it |
| Chat.SendEffect | src/components/chat/Chat.jsx:65-127 | the guard makes the send a no-op; an upload failure writes nothing; the draft is cleared exactly on a completed send; no log is removed or overwritten and other logs are untouched; a completed append adds the message at the end unless already present; summaries change only on a completed send; blocked lists never change |
| Chat.DeliverEffect | src/components/chat/Chat.jsx:75-123 | after the upload: failure of the log read, create or append is the error case; the send completes exactly when the append succeeds and a counterpart exists; same frame and append guarantees as SendEffect |
| Chat.SuccessfulSend | src/components/chat/Chat.jsx:65-127 | a send whose calls all succeed appends exactly one new message at the end, sets the sender's entry to the text and seen, the receiver's to the text and unseen, and clears the draft |
| Chat.SentMessagesAreSendersOwn | src/components/chat/Chat.jsx:65-154 | every message a send adds to the conversation's log is drawn as own by the sender and not by a distinct counterpart |
| Chat.UpdateUserChats | src/components/chat/Chat.jsx:101-118 | the find-and-overwrite-in-place of one user's list leaves userchats as UserChatsAfter says |
| Chat.UpdateAllUserChats | src/components/chat/Chat.jsx:98-120 | the loop over the participant ids leaves userchats as IndexAfterSend says |
| Chat.ChatView.constructor | src/components/chat/Chat.jsx:11-17 | the component starts with empty text, no image, picker closed and no snapshot |
| Chat.ChatView.HandleEmoji | src/components/chat/Chat.jsx:28-31 | the emoji is appended to the text and the picker closes; a non-blank emoji leaves a non-blank text |
| Chat.ChatView.HandleImage | src/components/chat/Chat.jsx:33-41 | a picked file replaces the pending image with its preview URL; no pick changes nothing |
| Chat.ChatView.OnSnapshot | src/components/chat/Chat.jsx:55-58 | the received document replaces the local view wholesale, whatever it held before |
| Chat.ChatView.HandleSend | src/components/chat/Chat.jsx:65-127 | the backend and the draft after the step-by-step send are exactly SendEffect's |
| Chat.ChatView.Deliver | src/components/chat/Chat.jsx:75-123 | the backend and the draft after the chat writes, the summary updates and the reset are exactly DeliverEffect's |
| Detail.ChatStore.ChangeBlock | src/components/detail/Detail.jsx:23 | the flag saying the counterpart is blocked flips |
| Detail.ToggledList | src/components/detail/Detail.jsx:20-22 | the counterpart is in the new list exactly when it was not flagged as blocked; every other id keeps its membership |
| Detail.BlockToggle | src/components/detail/Detail.jsx:14-28 | nothing changes without a counterpart or when the write fails; on success only the current user's list changes, as ToggledList says, and the flag flips |
| Detail.BlockThenUnblock | src/components/detail/Detail.jsx:21 | blocking then unblocking the same counterpart leaves it unblocked and every other id and every other user's list as before |
| Detail.ToggleSyncsFlag | src/components/detail/Detail.jsx:19-23 | every outcome of the toggle (no counterpart, failed write, success) keeps the flag in sync with the stored list, and a successful one brings it into sync whatever it was before |
| Detail.HandleBlock | src/components/detail/Detail.jsx:14-28 | the blocked lists and the flag after the handler are exactly BlockToggle's; logs and summaries are untouched |
| Detail.BlockLabel | src/components/detail/Detail.jsx:108-112 | the label is "You are Blocked!" exactly when the current user is blocked, "User blocked" exactly when only the counterpart is, and "Block User" exactly when sending is not disabled |
| Detail.LabelMatchesPlaceholder | src/components/detail/Detail.jsx:108-112 | the button reads "Block User" exactly when the composer shows its normal placeholder |

## Left out

- Firestore and Storage themselves (`getDoc`, `setDoc`, `updateDoc`, `onSnapshot`, `uploadBytes`, `getDownloadURL`): replaced by the maps of `Backend` and by success/failure inputs. `src/lib/firebase.js` holds only their configuration.
- Concurrency: the `forEach` callbacks are unawaited and run concurrently. The model runs the two summary updates one after the other, sender first. For a self-chat (sender equals receiver) the source's last write wins, where the model's second update reads the first. No race-freedom is claimed.
- The subscription's lifetime: the unsubscribe on unmount or chat change (Chat.jsx:60-62) is left out. Only the callback's replacement of the view is modelled.
- Timestamps: `new Date()` readings are opaque inputs, and the time display at Chat.jsx:158 is left out.
- `useChatStore` and `useUserStore` are not part of this model. The two block flags are inputs. `changeBlock` is assumed to flip `isReceiverBlocked`, because its source is not shown.
- Detail.HandleBlock: takes the current user as present. Detail.jsx:17 reads `currentUser.id` outside the `try`, and the case where no user is signed in is not modelled.
- JSX rendering, CSS, scrolling, the emoji-picker toggle (Chat.jsx:189), `URL.createObjectURL`, `console.log`, `auth.signOut()` and the `Notification` component: UI only.
- Other fields of users, summaries and file objects (avatar, username, file bytes): not read by the modelled logic.
