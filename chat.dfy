/**
 * The Chat component: its compose state (text and pending image), the
 * live view of the open conversation, and the send protocol that appends
 * to the conversation log and then refreshes both participants' summaries.
 *
 * Every remote call of the source is replaced by an answer taken from a
 * SendEnv value: whether each document read or write succeeds, what URL
 * the blob store hands back, and the clock readings.
 */
module Chat {
  import opened Wrappers
  import opened Store

  /** The signed-in user or the counterpart; only the id is read here. */
  datatype User = User(id: UserId)

  /** A file picked in the file input; only its name is read here. */
  datatype File = File(name: string)

  /** The `img` state: the picked file and its local preview URL. */
  datatype ImgState = ImgState(file: Option<File>, url: string)

  /** The compose state of the component: `text` and `img`. */
  datatype Draft = Draft(text: string, img: ImgState)

  const NoImage: ImgState := ImgState(None, "")
  const EmptyDraft: Draft := Draft("", NoImage)

  // ---------------------------------------------------------------------
  // JavaScript truthiness and String.prototype.trim
  // ---------------------------------------------------------------------

  /** JavaScript truthiness of a string that may be null: null and "" are falsy. */
  predicate Truthy(s: Option<string>) {
    s.Some? && s.value != ""
  }

  /** The WhiteSpace and LineTerminator code points that trim() strips. */
  const JsWhitespace: set<char> := {
    '\t', '\n', '\U{000B}', '\U{000C}', '\r', ' ', '\U{00A0}', '\U{1680}',
    '\U{2000}', '\U{2001}', '\U{2002}', '\U{2003}', '\U{2004}', '\U{2005}',
    '\U{2006}', '\U{2007}', '\U{2008}', '\U{2009}', '\U{200A}',
    '\U{2028}', '\U{2029}', '\U{202F}', '\U{205F}', '\U{3000}', '\U{FEFF}'
  }

  predicate IsJsWhitespace(c: char) {
    c in JsWhitespace
  }

  predicate IsBlank(s: string) {
    forall i :: 0 <= i < |s| ==> IsJsWhitespace(s[i])
  }

  /** Drops the leading whitespace: what is dropped is blank, what is kept starts with a non-blank. */
  function TrimStart(s: string): (r: string)
    ensures |r| <= |s| && r == s[|s| - |r|..]
    ensures IsBlank(s[..|s| - |r|])
    ensures r != [] ==> !IsJsWhitespace(r[0])
    decreases |s|
  {
    if s != [] && IsJsWhitespace(s[0]) then
      var r := TrimStart(s[1..]);
      assert s[..|s| - |r|] == [s[0]] + s[1..][..|s| - 1 - |r|];
      r
    else s
  }

  /** Drops the trailing whitespace: what is dropped is blank, what is kept ends with a non-blank. */
  function TrimEnd(s: string): (r: string)
    ensures |r| <= |s| && r == s[..|r|]
    ensures IsBlank(s[|r|..])
    ensures r != [] ==> !IsJsWhitespace(r[|r| - 1])
    decreases |s|
  {
    if s != [] && IsJsWhitespace(s[|s| - 1]) then
      var r := TrimEnd(s[..|s| - 1]);
      assert s[|r|..] == s[..|s| - 1][|r|..] + [s[|s| - 1]];
      r
    else s
  }

  /**
   * `r` is `s` with a whitespace prefix of length `i` and a whitespace
   * suffix cut off, and is empty or starts and ends with a non-whitespace
   * character.
   */
  predicate IsTrimmedSlice(s: string, i: nat, r: string) {
    && i + |r| <= |s| && r == s[i..i + |r|]
    && IsBlank(s[..i]) && IsBlank(s[i + |r|..])
    && (r != [] ==> !IsJsWhitespace(r[0]) && !IsJsWhitespace(r[|r| - 1]))
  }

  /** text.trim() */
  function Trim(s: string): string {
    TrimEnd(TrimStart(s))
  }

  /** trim() keeps the slice of the text between a blank prefix and a blank suffix. */
  lemma TrimShape(s: string)
    ensures IsTrimmedSlice(s, |s| - |TrimStart(s)|, Trim(s))
  {
    var t := TrimStart(s);
    TrimSlices(s, |s| - |t|, t, TrimEnd(t));
  }

  /** How the two halves of trim() fit together as slices of the text. */
  lemma TrimSlices(s: string, i: nat, t: string, r: string)
    requires i <= |s| && t == s[i..] && IsBlank(s[..i])
    requires t != [] ==> !IsJsWhitespace(t[0])
    requires |r| <= |t| && r == t[..|r|] && IsBlank(t[|r|..])
    requires r != [] ==> !IsJsWhitespace(r[|r| - 1])
    ensures IsTrimmedSlice(s, i, r)
  {
    assert t[|r|..] == s[i + |r|..];
    if r != [] {
      assert r[0] == t[0];
    }
  }

  /** `!text.trim()` holds exactly of the texts made only of whitespace. */
  lemma TrimEmptyIffBlank(s: string)
    ensures Trim(s) == "" <==> IsBlank(s)
  {
    var t := TrimStart(s);
    var k := |s| - |t|;
    if Trim(s) == "" {
      assert IsBlank(t[0..]) && t[0..] == t;
      assert t == [];
      forall i | 0 <= i < |s| ensures IsJsWhitespace(s[i]) {
        assert s[..k][i] == s[i];
      }
    }
  }

  /** An emoji that is not all whitespace makes any text non-blank. */
  lemma EmojiMakesTextSendable(text: string, emoji: string)
    requires !IsBlank(emoji)
    ensures Trim(text + emoji) != ""
  {
    var i :| 0 <= i < |emoji| && !IsJsWhitespace(emoji[i]);
    assert (text + emoji)[|text| + i] == emoji[i];
    TrimEmptyIffBlank(text + emoji);
  }

  // ---------------------------------------------------------------------
  // The guard of handleSend and the send-gating of the controls
  // ---------------------------------------------------------------------

  /**
   * The early return of handleSend: no conversation selected, nobody
   * signed in, or a blank text with no picked file.
   */
  predicate NothingToSend(chatId: Option<ChatId>, me: Option<User>, d: Draft): (skip: bool)
    ensures skip <==> !Truthy(chatId) || me.None? || (IsBlank(d.text) && d.img.file.None?)
  {
    TrimEmptyIffBlank(d.text);
    !Truthy(chatId) || me.None? || (Trim(d.text) == "" && d.img.file.None?)
  }

  /** The `disabled` attribute of the text input and the Send button. */
  predicate SendDisabled(isCurrentUserBlocked: bool, isReceiverBlocked: bool) {
    isCurrentUserBlocked || isReceiverBlocked
  }

  /** The placeholder of the text input. */
  function Placeholder(isCurrentUserBlocked: bool, isReceiverBlocked: bool): (p: string)
    ensures p == "You cannot send a message" <==> SendDisabled(isCurrentUserBlocked, isReceiverBlocked)
    ensures p == "Type a message..." <==> !SendDisabled(isCurrentUserBlocked, isReceiverBlocked)
  {
    if isCurrentUserBlocked || isReceiverBlocked then "You cannot send a message" else "Type a message..."
  }

  /** A message is drawn as the viewer's own exactly when the viewer sent it. */
  predicate IsOwn(m: Message, me: User) {
    m.senderId == me.id
  }

  // ---------------------------------------------------------------------
  // Image upload
  // ---------------------------------------------------------------------

  const ImagesFolder: string := "images/"

  /** The storage path of an uploaded image: the file's name under images/. */
  function UploadPath(f: File): (path: string)
    ensures |path| == |ImagesFolder| + |f.name|
    ensures path[..|ImagesFolder|] == ImagesFolder && path[|ImagesFolder|..] == f.name
  {
    ImagesFolder + f.name
  }

  /** Recovers the file name from a storage path under images/. */
  function UploadedName(path: string): (name: Option<string>)
    ensures name.Some? ==> UploadPath(File(name.value)) == path
  {
    if |ImagesFolder| <= |path| && path[..|ImagesFolder|] == ImagesFolder
    then Some(path[|ImagesFolder|..])
    else None
  }

  /** The storage path determines the file name it was made from. */
  lemma UploadPathRoundTrip(f: File)
    ensures UploadedName(UploadPath(f)) == Some(f.name)
  {
    assert UploadPath(f)[..|ImagesFolder|] == ImagesFolder;
    assert UploadPath(f)[|ImagesFolder|..] == f.name;
  }

  /** Two files share a storage path exactly when they share a name. */
  lemma UploadPathCollision(f: File, g: File)
    ensures UploadPath(f) == UploadPath(g) <==> f.name == g.name
  {
    if UploadPath(f) == UploadPath(g) {
      UploadPathRoundTrip(f);
      UploadPathRoundTrip(g);
    }
  }

  /** What uploadImage resolves to: null without a file, a URL, or a rejection. */
  datatype Upload = NoFile | Uploaded(url: Url) | UploadFailed

  /**
   * uploadImage: `storage` holds, for each path, the download URL the blob
   * store hands back after the upload; a path it lacks stands for an upload
   * or URL lookup that fails.
   */
  function UploadImage(file: Option<File>, storage: map<string, Url>): (r: Upload)
    ensures r.NoFile? <==> file.None?
    ensures r.UploadFailed? <==> file.Some? && UploadPath(file.value) !in storage
    ensures r.Uploaded? ==> file.Some? && r.url == storage[UploadPath(file.value)]
  {
    match file
    case None => NoFile
    case Some(f) =>
      var path := UploadPath(f);
      if path in storage then Uploaded(storage[path]) else UploadFailed
  }

  /** `imgUrl` after the upload step: null unless a URL came back. */
  function UrlOf(u: Upload): Option<Url> {
    if u.Uploaded? then Some(u.url) else None
  }

  /**
   * The message object handleSend builds; `img` is attached only when
   * `imgUrl` is truthy, so an empty URL attaches nothing.
   */
  function NewMessage(me: User, text: string, now: Timestamp, imgUrl: Option<Url>): (m: Message)
    ensures IsOwn(m, me) && m.text == text && m.createdAt == now
    ensures m.img.Some? <==> Truthy(imgUrl)
    ensures m.img.Some? ==> m.img == imgUrl
  {
    Message(me.id, text, now, if Truthy(imgUrl) then imgUrl else None)
  }

  // ---------------------------------------------------------------------
  // The conversation log
  // ---------------------------------------------------------------------

  /**
   * getDoc followed by setDoc({messages: []}) when the log is absent.
   * None stands for one of the two calls throwing.
   */
  function EnsureLog(chats: map<ChatId, seq<Message>>, chatId: ChatId, readOk: bool, createOk: bool)
    : (r: Option<map<ChatId, seq<Message>>>)
    ensures r.None? <==> !readOk || (chatId !in chats && !createOk)
    ensures r.Some? ==> r.value.Keys == chats.Keys + {chatId}
    ensures r.Some? ==> forall id :: id in chats ==> r.value[id] == chats[id]
    ensures r.Some? && chatId !in chats ==> r.value[chatId] == []
  {
    if !readOk then None
    else if chatId in chats then Some(chats)
    else if !createOk then None
    else Some(chats[chatId := []])
  }

  /** Making sure a log exists twice is the same as doing it once. */
  lemma EnsureLogIdempotent(chats: map<ChatId, seq<Message>>, chatId: ChatId)
    ensures EnsureLog(chats, chatId, true, true).Some?
    ensures EnsureLog(EnsureLog(chats, chatId, true, true).value, chatId, true, true)
         == EnsureLog(chats, chatId, true, true)
  {
  }

  // ---------------------------------------------------------------------
  // The per-user conversation summaries
  // ---------------------------------------------------------------------

  /** chats.findIndex(c => c.chatId === chatId): the first matching position, or -1. */
  function FindChatIndex(entries: seq<IndexEntry>, chatId: ChatId): (i: int)
    ensures -1 <= i < |entries|
    ensures i == -1 <==> forall k :: 0 <= k < |entries| ==> entries[k].chatId != chatId
    ensures 0 <= i ==> entries[i].chatId == chatId
    ensures 0 <= i ==> forall k :: 0 <= k < i ==> entries[k].chatId != chatId
  {
    if entries == [] then -1
    else if entries[0].chatId == chatId then 0
    else
      var j := FindChatIndex(entries[1..], chatId);
      if j == -1 then -1 else j + 1
  }

  /**
   * One user's list after a send: the first entry of the conversation takes
   * the new last message, seen flag and time; no entry is added, removed or
   * moved, and no other entry changes.
   */
  function TouchEntries(entries: seq<IndexEntry>, chatId: ChatId, text: string, seen: bool, at: Timestamp)
    : (r: seq<IndexEntry>)
    ensures |r| == |entries|
    ensures forall k :: 0 <= k < |r| ==> r[k].chatId == entries[k].chatId && r[k].receiverId == entries[k].receiverId
    ensures forall k :: 0 <= k < |r| && k != FindChatIndex(entries, chatId) ==> r[k] == entries[k]
    ensures forall k :: 0 <= k < |r| && entries[k].chatId != chatId ==> r[k] == entries[k]
    ensures (forall k :: 0 <= k < |entries| ==> entries[k].chatId != chatId) ==> r == entries
    ensures var i := FindChatIndex(entries, chatId);
      0 <= i ==> r[i].lastMessage == text && r[i].isSeen == seen && r[i].updatedAt == at
  {
    var i := FindChatIndex(entries, chatId);
    if i == -1 then entries
    else entries[i := entries[i].(lastMessage := text, isSeen := seen, updatedAt := at)]
  }

  /** The fate of one participant's index update: whether its read and write succeed, and its clock reading. */
  datatype IndexWrite = IndexWrite(ok: bool, at: Timestamp)

  /** The userchats collection after one participant's update. */
  function UserChatsAfter(userchats: map<UserId, seq<IndexEntry>>, id: UserId, chatId: ChatId,
                          text: string, seen: bool, w: IndexWrite): (r: map<UserId, seq<IndexEntry>>)
    ensures r.Keys == userchats.Keys
    ensures forall u :: u in userchats && u != id ==> r[u] == userchats[u]
    ensures id in userchats && !w.ok ==> r[id] == userchats[id]
    ensures id in userchats && w.ok ==> r[id] == TouchEntries(userchats[id], chatId, text, seen, w.at)
  {
    if id in userchats && w.ok
    then userchats[id := TouchEntries(userchats[id], chatId, text, seen, w.at)]
    else userchats
  }

  /**
   * The userchats collection after the updates for `ids`, in order; each
   * user's entry is marked seen exactly when that user is the sender.
   */
  function IndexAfterSend(userchats: map<UserId, seq<IndexEntry>>, ids: seq<UserId>, writes: seq<IndexWrite>,
                          chatId: ChatId, text: string, sender: UserId): (r: map<UserId, seq<IndexEntry>>)
    requires |writes| == |ids|
    ensures r.Keys == userchats.Keys
    ensures forall u :: u in userchats && u !in ids ==> r[u] == userchats[u]
    ensures forall u :: u in userchats ==> |r[u]| == |userchats[u]|
    ensures forall u, k :: u in userchats && 0 <= k < |userchats[u]| ==>
      r[u][k].chatId == userchats[u][k].chatId && r[u][k].receiverId == userchats[u][k].receiverId
    ensures forall u, k :: u in userchats && 0 <= k < |userchats[u]| && userchats[u][k].chatId != chatId ==>
      r[u][k] == userchats[u][k]
    decreases |ids|
  {
    if ids == [] then userchats
    else
      var n := |ids| - 1;
      var before := IndexAfterSend(userchats, ids[..n], writes[..n], chatId, text, sender);
      assert forall u :: u !in ids ==> u !in ids[..n];
      UserChatsAfter(before, ids[n], chatId, text, ids[n] == sender, writes[n])
  }

  /**
   * With two distinct participants, each one's list is refreshed on its own:
   * the sender's entry becomes seen, the receiver's unseen, and a failed or
   * missing list stays as it was.
   */
  lemma TwoPartyIndex(userchats: map<UserId, seq<IndexEntry>>, sender: UserId, receiver: UserId,
                      ws: IndexWrite, wr: IndexWrite, chatId: ChatId, text: string)
    requires sender != receiver
    ensures var r := IndexAfterSend(userchats, [sender, receiver], [ws, wr], chatId, text, sender);
      && (sender in userchats ==>
            r[sender] == if ws.ok then TouchEntries(userchats[sender], chatId, text, true, ws.at) else userchats[sender])
      && (receiver in userchats ==>
            r[receiver] == if wr.ok then TouchEntries(userchats[receiver], chatId, text, false, wr.at) else userchats[receiver])
  {
    var r0 := IndexAfterSend(userchats, [], [], chatId, text, sender);
    assert [sender, receiver][..0] == [] && [ws, wr][..0] == [];
    assert [sender, receiver][..1] == [sender] && [ws, wr][..1] == [ws];
    assert [sender][..0] == [] && [ws][..0] == [];
    var r1 := IndexAfterSend(userchats, [sender], [ws], chatId, text, sender);
    assert r1 == UserChatsAfter(r0, sender, chatId, text, true, ws);
  }

  // ---------------------------------------------------------------------
  // The send protocol as a function of the state before it
  // ---------------------------------------------------------------------

  /** The answers of the remote calls one send makes. */
  datatype SendEnv = SendEnv(
    storage: map<string, Url>,  // blob store: download URL per path, absent when the upload fails
    logReadOk: bool,            // getDoc on the chat document
    logCreateOk: bool,          // setDoc creating the empty log
    appendOk: bool,             // updateDoc appending the message
    sentAt: Timestamp,          // createdAt of the message
    senderWrite: IndexWrite,    // the sender's userchats read and write
    receiverWrite: IndexWrite)  // the receiver's userchats read and write

  /** Where a send ended: the guard, a caught error, or the end of the try block. */
  datatype Status = Skipped | UploadError | LogError | PeerMissing | Sent

  datatype SendOutcome = SendOutcome(status: Status, db: Db, draft: Draft)

  /** The message a send of draft `d` appends. */
  function Outgoing(me: User, d: Draft, env: SendEnv): (m: Message)
    ensures IsOwn(m, me) && m.text == d.text && m.createdAt == env.sentAt
    ensures m.img.Some? <==> d.img.file.Some? && UploadPath(d.img.file.value) in env.storage
                             && env.storage[UploadPath(d.img.file.value)] != ""
    ensures m.img.Some? ==> m.img.value == env.storage[UploadPath(d.img.file.value)]
  {
    NewMessage(me, d.text, env.sentAt, UrlOf(UploadImage(d.img.file, env.storage)))
  }

  /** The log of `chatId` as handleSend finds it: absent counts as empty. */
  function LogOf(chats: map<ChatId, seq<Message>>, chatId: ChatId): seq<Message> {
    if chatId in chats then chats[chatId] else []
  }

  /**
   * handleSend: the guard, the optional upload, creating the log if absent,
   * appending the message, refreshing both participants' summaries, and
   * clearing the draft. Block state is not consulted.
   */
  function SendEffect(db: Db, d: Draft, chatId: Option<ChatId>, me: Option<User>, peer: Option<User>, env: SendEnv)
    : (r: SendOutcome)
    // the guard makes the call a no-op
    ensures r.status.Skipped? <==> NothingToSend(chatId, me, d)
    ensures r.status.Skipped? ==> r.db == db && r.draft == d
    // a failed upload aborts before any write
    ensures r.status.UploadError? <==> !NothingToSend(chatId, me, d) && UploadImage(d.img.file, env.storage).UploadFailed?
    ensures r.status.UploadError? ==> r.db == db
    // the draft is cleared exactly when the whole try block ran through
    ensures r.draft == if r.status.Sent? then EmptyDraft else d
    // blocked lists are never written by a send
    ensures r.db.blocked == db.blocked
    // logs of other conversations are untouched, and no log is ever overwritten
    ensures forall id :: id in db.chats && Some(id) != chatId ==> id in r.db.chats && r.db.chats[id] == db.chats[id]
    ensures forall id :: id in r.db.chats && id !in db.chats ==> Some(id) == chatId
    ensures db.chats.Keys <= r.db.chats.Keys
    ensures r.status.LogError? ==>
      forall id :: id in r.db.chats ==> r.db.chats[id] == LogOf(db.chats, id)
    // a completed append adds the message at the end unless the log already holds it
    ensures (r.status.Sent? || r.status.PeerMissing?) ==>
      var m := Outgoing(me.value, d, env);
      var before := LogOf(db.chats, chatId.value);
      && chatId.value in r.db.chats
      && r.db.chats[chatId.value] == if m in before then before else before + [m]
    // summaries change only after the append, and only by the update of the two participants
    ensures !r.status.Sent? ==> r.db.userchats == db.userchats
    ensures r.status.Sent? ==> peer.Some?
    ensures r.status.Sent? && peer.Some? ==>
      r.db.userchats == IndexAfterSend(db.userchats, [me.value.id, peer.value.id],
        [env.senderWrite, env.receiverWrite], chatId.value, d.text, me.value.id)
  {
    if NothingToSend(chatId, me, d) then SendOutcome(Skipped, db, d)
    else if UploadImage(d.img.file, env.storage).UploadFailed? then SendOutcome(UploadError, db, d)
    else DeliverEffect(db, d, chatId.value, me.value, peer, env)
  }

  /**
   * The rest of handleSend once the upload is done: create the log if
   * absent, append, update both summaries, clear the draft.
   */
  function DeliverEffect(db: Db, d: Draft, id: ChatId, me: User, peer: Option<User>, env: SendEnv): (r: SendOutcome)
    ensures r.status.LogError? <==> !env.logReadOk || (id !in db.chats && !env.logCreateOk) || !env.appendOk
    ensures r.status.Sent? <==> !r.status.LogError? && peer.Some?
    ensures r.status.LogError? || r.status.PeerMissing? || r.status.Sent?
    ensures r.draft == if r.status.Sent? then EmptyDraft else d
    ensures r.db.blocked == db.blocked
    ensures forall cid :: cid in db.chats && cid != id ==> cid in r.db.chats && r.db.chats[cid] == db.chats[cid]
    ensures forall cid :: cid in r.db.chats && cid !in db.chats ==> cid == id
    ensures db.chats.Keys <= r.db.chats.Keys
    ensures r.status.LogError? ==> forall cid :: cid in r.db.chats ==> r.db.chats[cid] == LogOf(db.chats, cid)
    ensures !r.status.LogError? ==>
      var m := Outgoing(me, d, env);
      var before := LogOf(db.chats, id);
      id in r.db.chats && r.db.chats[id] == if m in before then before else before + [m]
    ensures !r.status.Sent? ==> r.db.userchats == db.userchats
    ensures r.status.Sent? && peer.Some? ==>
      r.db.userchats == IndexAfterSend(db.userchats, [me.id, peer.value.id],
        [env.senderWrite, env.receiverWrite], id, d.text, me.id)
  {
    match EnsureLog(db.chats, id, env.logReadOk, env.logCreateOk)
    case None => SendOutcome(LogError, db, d)
    case Some(chats) =>
      if !env.appendOk then SendOutcome(LogError, db.(chats := chats), d)
      else
        var m := Outgoing(me, d, env);
        var appended := db.(chats := chats[id := ArrayUnion(chats[id], m)]);
        if peer.None? then SendOutcome(PeerMissing, appended, d)
        else
          var userchats := IndexAfterSend(db.userchats, [me.id, peer.value.id],
                                          [env.senderWrite, env.receiverWrite], id, d.text, me.id);
          SendOutcome(Sent, appended.(userchats := userchats), EmptyDraft)
  }

  /**
   * A send that gets past the guard and whose every remote call succeeds
   * appends a fresh message, marks the sender's entry seen and the
   * receiver's unseen, and clears the draft.
   */
  lemma SuccessfulSend(db: Db, d: Draft, chatId: ChatId, me: User, peer: User, env: SendEnv)
    requires !NothingToSend(Some(chatId), Some(me), d)
    requires d.img.file.Some? ==> UploadPath(d.img.file.value) in env.storage
    requires env.logReadOk && env.logCreateOk && env.appendOk
    requires env.senderWrite.ok && env.receiverWrite.ok
    requires me.id != peer.id
    requires Outgoing(me, d, env) !in LogOf(db.chats, chatId)
    ensures var r := SendEffect(db, d, Some(chatId), Some(me), Some(peer), env);
      && r.status.Sent?
      && r.draft == EmptyDraft
      && r.db.chats[chatId] == LogOf(db.chats, chatId) + [Outgoing(me, d, env)]
      && (me.id in db.userchats ==>
            r.db.userchats[me.id] == TouchEntries(db.userchats[me.id], chatId, d.text, true, env.senderWrite.at))
      && (peer.id in db.userchats ==>
            r.db.userchats[peer.id] == TouchEntries(db.userchats[peer.id], chatId, d.text, false, env.receiverWrite.at))
  {
    TwoPartyIndex(db.userchats, me.id, peer.id, env.senderWrite, env.receiverWrite, chatId, d.text);
  }

  /**
   * Whatever a send adds to the conversation's log is drawn as own by the
   * sender and as the other side's by a distinct counterpart.
   */
  lemma SentMessagesAreSendersOwn(db: Db, d: Draft, chatId: ChatId, me: User, peer: User, env: SendEnv)
    requires me.id != peer.id
    ensures var r := SendEffect(db, d, Some(chatId), Some(me), Some(peer), env);
      chatId in r.db.chats ==>
        forall m :: m in r.db.chats[chatId] && m !in LogOf(db.chats, chatId) ==> IsOwn(m, me) && !IsOwn(m, peer)
  {
    var r := SendEffect(db, d, Some(chatId), Some(me), Some(peer), env);
    var before := LogOf(db.chats, chatId);
    if chatId in r.db.chats && (r.status.Sent? || r.status.PeerMissing?) {
      var m0 := Outgoing(me, d, env);
      assert r.db.chats[chatId] == if m0 in before then before else before + [m0];
      forall m | m in r.db.chats[chatId] && m !in before ensures IsOwn(m, me) && !IsOwn(m, peer) {
        assert m == m0;
      }
    } else if chatId in r.db.chats && r.status.LogError? {
      assert r.db.chats[chatId] == before;
    } else if chatId in r.db.chats {
      assert r.db == db;
    }
  }

  // ---------------------------------------------------------------------
  // The component
  // ---------------------------------------------------------------------

  /**
   * One userchats update from handleSend's forEach: read the list, find the
   * conversation's entry, overwrite its fields in place, write the list back.
   */
  method UpdateUserChats(backend: Backend, id: UserId, chatId: ChatId, text: string, seen: bool, w: IndexWrite)
    modifies backend`userchats
    ensures backend.userchats == UserChatsAfter(old(backend.userchats), id, chatId, text, seen, w)
  {
    if !w.ok || id !in backend.userchats {
      return;
    }
    var entries := backend.userchats[id];
    var i := FindChatIndex(entries, chatId);
    if i != -1 {
      entries := entries[i := entries[i].(lastMessage := text)];
      entries := entries[i := entries[i].(isSeen := seen)];
      entries := entries[i := entries[i].(updatedAt := w.at)];
      assert entries == TouchEntries(backend.userchats[id], chatId, text, seen, w.at);
      backend.userchats := backend.userchats[id := entries];
    }
  }

  /**
   * handleSend's userIDs.forEach: each participant's summaries updated in
   * turn, every update allowed to fail on its own.
   */
  method UpdateAllUserChats(backend: Backend, ids: seq<UserId>, writes: seq<IndexWrite>,
                            chatId: ChatId, text: string, sender: UserId)
    requires |writes| == |ids|
    modifies backend`userchats
    ensures backend.userchats == IndexAfterSend(old(backend.userchats), ids, writes, chatId, text, sender)
  {
    var i := 0;
    while i < |ids|
      invariant 0 <= i <= |ids|
      invariant backend.userchats == IndexAfterSend(old(backend.userchats), ids[..i], writes[..i], chatId, text, sender)
    {
      assert ids[..i + 1][..i] == ids[..i] && writes[..i + 1][..i] == writes[..i];
      UpdateUserChats(backend, ids[i], chatId, text, ids[i] == sender, writes[i]);
      i := i + 1;
    }
    assert ids[..i] == ids && writes[..i] == writes;
  }

  class ChatView {
    var text: string
    var img: ImgState
    var open: bool                       // emoji picker shown
    var chat: Option<seq<Message>>       // the last snapshot of the open conversation

    function CurrentDraft(): Draft
      reads this
    {
      Draft(text, img)
    }

    constructor ()
      ensures CurrentDraft() == EmptyDraft && !open && chat == None
    {
      text, img, open, chat := "", NoImage, false, None;
    }

    /** handleEmoji: the emoji goes at the end of the text and the picker closes. */
    method HandleEmoji(emoji: string)
      modifies this`text, this`open
      ensures text == old(text) + emoji && !open
      ensures !IsBlank(emoji) ==> Trim(text) != ""
    {
      text := text + emoji;
      open := false;
      if !IsBlank(emoji) {
        EmojiMakesTextSendable(old(text), emoji);
      }
    }

    /** handleImage: a picked file replaces the pending image; no pick changes nothing. */
    method HandleImage(picked: Option<File>, previewUrl: string)
      modifies this`img
      ensures img == if picked.Some? then ImgState(picked, previewUrl) else old(img)
    {
      if picked.Some? {
        img := ImgState(picked, previewUrl);
      }
    }

    /** The onSnapshot callback: the received document replaces the view wholesale. */
    method OnSnapshot(data: Option<seq<Message>>)
      modifies this`chat
      ensures chat == data
    {
      chat := data;
    }

    /** handleSend, step by step; its effect is exactly SendEffect's. */
    method HandleSend(backend: Backend, chatId: Option<ChatId>, me: Option<User>, peer: Option<User>, env: SendEnv)
      modifies this`text, this`img, backend
      ensures var r := SendEffect(old(backend.Current()), old(CurrentDraft()), chatId, me, peer, env);
        backend.Current() == r.db && CurrentDraft() == r.draft
    {
      if NothingToSend(chatId, me, CurrentDraft()) {
        return;
      }
      var imgUrl: Option<Url> := None;
      if img.file.Some? {
        var up := UploadImage(img.file, env.storage);
        if up.UploadFailed? {
          return;
        }
        imgUrl := UrlOf(up);
      }
      Deliver(backend, chatId.value, me.value, peer, env, imgUrl);
    }

    /** handleSend after the upload: the chat document writes, the forEach, the reset. */
    method Deliver(backend: Backend, id: ChatId, me: User, peer: Option<User>, env: SendEnv, imgUrl: Option<Url>)
      requires imgUrl == UrlOf(UploadImage(img.file, env.storage))
      modifies this`text, this`img, backend
      ensures var r := DeliverEffect(old(backend.Current()), old(CurrentDraft()), id, me, peer, env);
        backend.Current() == r.db && CurrentDraft() == r.draft
    {
      ghost var db0 := backend.Current();
      if !env.logReadOk {
        return;
      }
      if id !in backend.chats {
        if !env.logCreateOk {
          return;
        }
        backend.chats := backend.chats[id := []];
      }
      assert EnsureLog(db0.chats, id, env.logReadOk, env.logCreateOk) == Some(backend.chats);
      var m := NewMessage(me, text, env.sentAt, imgUrl);
      if !env.appendOk {
        return;
      }
      backend.chats := backend.chats[id := ArrayUnion(backend.chats[id], m)];
      if peer.None? {
        return;  // `user.id` throws and the catch swallows it
      }
      var userIds := [me.id, peer.value.id];
      var writes := [env.senderWrite, env.receiverWrite];
      UpdateAllUserChats(backend, userIds, writes, id, text, me.id);
      text := "";
      img := NoImage;
    }
  }
}
