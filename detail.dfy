/**
 * The Detail component: the block toggle of the counterpart and the label
 * of the block button.
 */
module Detail {
  import opened Wrappers
  import opened Store
  import opened Chat

  /**
   * The block flags of the shared chat store as Detail sees them, and
   * `changeBlock`, which flips whether the counterpart is blocked.
   */
  class ChatStore {
    var isCurrentUserBlocked: bool
    var isReceiverBlocked: bool

    constructor (currentUserBlocked: bool, receiverBlocked: bool)
      ensures isCurrentUserBlocked == currentUserBlocked && isReceiverBlocked == receiverBlocked
    {
      isCurrentUserBlocked, isReceiverBlocked := currentUserBlocked, receiverBlocked;
    }

    method ChangeBlock()
      modifies this`isReceiverBlocked
      ensures isReceiverBlocked == !old(isReceiverBlocked)
    {
      isReceiverBlocked := !isReceiverBlocked;
    }
  }

  /**
   * The current user's blocked array after the toggle's updateDoc:
   * arrayRemove of the target when it is flagged as blocked, arrayUnion
   * otherwise. Only the target's membership can change.
   */
  function ToggledList(list: seq<UserId>, target: UserId, isReceiverBlocked: bool): (r: seq<UserId>)
    ensures target in r <==> !isReceiverBlocked
    ensures forall x :: x != target ==> (x in r <==> x in list)
  {
    if isReceiverBlocked then ArrayRemove(list, target) else ArrayUnion(list, target)
  }

  /** The blocked lists after handleBlock, and whether changeBlock ran. */
  datatype BlockOutcome = BlockOutcome(blocked: map<UserId, seq<UserId>>, flipped: bool)

  /**
   * handleBlock: nothing without a counterpart; otherwise one updateDoc on
   * the current user's record, which fails when the write is refused or the
   * record does not exist, and the local flag flips only after it succeeds.
   */
  function BlockToggle(blocked: map<UserId, seq<UserId>>, me: User, peer: Option<User>,
                       isReceiverBlocked: bool, writeOk: bool): (r: BlockOutcome)
    ensures r.flipped <==> peer.Some? && writeOk && me.id in blocked
    ensures !r.flipped ==> r.blocked == blocked
    ensures r.blocked.Keys == blocked.Keys
    ensures forall u :: u in blocked && u != me.id ==> r.blocked[u] == blocked[u]
    ensures r.flipped ==> (peer.value.id in r.blocked[me.id] <==> !isReceiverBlocked)
    ensures r.flipped ==> forall x :: x != peer.value.id ==> (x in r.blocked[me.id] <==> x in blocked[me.id])
  {
    if peer.Some? && writeOk && me.id in blocked
    then BlockOutcome(blocked[me.id := ToggledList(blocked[me.id], peer.value.id, isReceiverBlocked)], true)
    else BlockOutcome(blocked, false)
  }

  /**
   * Blocking and then unblocking the same counterpart leaves it unblocked
   * and every other id, and every other user's list, as it was.
   */
  lemma BlockThenUnblock(blocked: map<UserId, seq<UserId>>, me: User, peer: User)
    requires me.id in blocked
    ensures var once := BlockToggle(blocked, me, Some(peer), false, true).blocked;
      var twice := BlockToggle(once, me, Some(peer), true, true).blocked;
      && twice.Keys == blocked.Keys
      && peer.id !in twice[me.id]
      && (forall x :: x != peer.id ==> (x in twice[me.id] <==> x in blocked[me.id]))
      && (forall u :: u in blocked && u != me.id ==> twice[u] == blocked[u])
  {
    var once := BlockToggle(blocked, me, Some(peer), false, true);
    assert once.flipped && me.id in once.blocked;
  }

  /**
   * The local flag says whether the counterpart is in the current user's
   * stored blocked array (when that record exists).
   */
  predicate FlagInSync(blocked: map<UserId, seq<UserId>>, me: User, peer: User, isReceiverBlocked: bool) {
    me.id in blocked ==> (peer.id in blocked[me.id] <==> isReceiverBlocked)
  }

  /**
   * Every outcome of the toggle keeps the flag in sync with the stored
   * list, and a successful one brings it into sync whatever it was before.
   */
  lemma ToggleSyncsFlag(blocked: map<UserId, seq<UserId>>, me: User, peer: User, isReceiverBlocked: bool, writeOk: bool)
    ensures var r := BlockToggle(blocked, me, Some(peer), isReceiverBlocked, writeOk);
      var flag := if r.flipped then !isReceiverBlocked else isReceiverBlocked;
      && (FlagInSync(blocked, me, peer, isReceiverBlocked) ==> FlagInSync(r.blocked, me, peer, flag))
      && (r.flipped ==> FlagInSync(r.blocked, me, peer, flag))
  {
  }

  /** handleBlock on the backend and the chat store. */
  method HandleBlock(backend: Backend, store: ChatStore, me: User, peer: Option<User>, writeOk: bool)
    modifies backend`blocked, store`isReceiverBlocked
    ensures var r := BlockToggle(old(backend.blocked), me, peer, old(store.isReceiverBlocked), writeOk);
      && backend.blocked == r.blocked
      && store.isReceiverBlocked == (if r.flipped then !old(store.isReceiverBlocked) else old(store.isReceiverBlocked))
    ensures backend.chats == old(backend.chats) && backend.userchats == old(backend.userchats)
    ensures store.isCurrentUserBlocked == old(store.isCurrentUserBlocked)
  {
    if peer.None? {
      return;
    }
    if !writeOk || me.id !in backend.blocked {
      return;  // updateDoc rejects and the catch logs it
    }
    backend.blocked := backend.blocked[me.id := ToggledList(backend.blocked[me.id], peer.value.id, store.isReceiverBlocked)];
    store.ChangeBlock();
  }

  /** The text of the block button. */
  function BlockLabel(isCurrentUserBlocked: bool, isReceiverBlocked: bool): (caption: string)
    ensures caption == "You are Blocked!" <==> isCurrentUserBlocked
    ensures caption == "User blocked" <==> !isCurrentUserBlocked && isReceiverBlocked
    ensures caption == "Block User" <==> !SendDisabled(isCurrentUserBlocked, isReceiverBlocked)
  {
    if isCurrentUserBlocked then "You are Blocked!"
    else if isReceiverBlocked then "User blocked"
    else "Block User"
  }

  /** The button reads "Block User" exactly when the composer shows its normal placeholder. */
  lemma LabelMatchesPlaceholder(isCurrentUserBlocked: bool, isReceiverBlocked: bool)
    ensures BlockLabel(isCurrentUserBlocked, isReceiverBlocked) == "Block User"
        <==> Placeholder(isCurrentUserBlocked, isReceiverBlocked) == "Type a message..."
  {
  }
}
