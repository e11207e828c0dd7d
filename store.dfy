/**
 * The document store the chat components talk to, lifted out of the
 * Firestore calls: three collections held as maps, plus the two array
 * transforms (arrayUnion, arrayRemove) the components send with updateDoc.
 */
module Store {
  import opened Wrappers

  type UserId = string
  type ChatId = string
  type Url = string

  /** A clock reading (new Date()); the model never looks inside one. */
  datatype Timestamp = Timestamp(ticks: int)

  /** One element of chats/{chatId}.messages. */
  datatype Message = Message(senderId: UserId, text: string, createdAt: Timestamp, img: Option<Url>)

  /** One element of userchats/{userId}.chats: a user's summary of one conversation. */
  datatype IndexEntry = IndexEntry(
    chatId: ChatId,
    receiverId: UserId,
    lastMessage: string,
    isSeen: bool,
    updatedAt: Timestamp)

  /** The three collections, as one value. */
  datatype Db = Db(
    chats: map<ChatId, seq<Message>>,          // chats/{chatId}.messages
    userchats: map<UserId, seq<IndexEntry>>,   // userchats/{userId}.chats
    blocked: map<UserId, seq<UserId>>)         // users/{userId}.blocked

  /** The backend's live state, updated in place by the components' writes. */
  class Backend {
    var chats: map<ChatId, seq<Message>>
    var userchats: map<UserId, seq<IndexEntry>>
    var blocked: map<UserId, seq<UserId>>

    function Current(): Db
      reads this
    {
      Db(chats, userchats, blocked)
    }

    constructor (init: Db)
      ensures Current() == init
    {
      chats, userchats, blocked := init.chats, init.userchats, init.blocked;
    }
  }

  /**
   * arrayUnion(x): the array gains x at its end unless x is already there.
   */
  function ArrayUnion<T(==,!new)>(xs: seq<T>, x: T): (r: seq<T>)
    ensures forall y :: y in r <==> y in xs || y == x
    ensures |xs| <= |r| <= |xs| + 1 && r[..|xs|] == xs
    ensures x !in xs ==> |r| == |xs| + 1 && r[|xs|] == x
    ensures x in xs ==> r == xs
  {
    if x in xs then xs else xs + [x]
  }

  /**
   * arrayRemove(x): every occurrence of x leaves the array; the other
   * elements keep their order.
   */
  function ArrayRemove<T(==,!new)>(xs: seq<T>, x: T): (r: seq<T>)
    ensures forall y :: y in r <==> y in xs && y != x
    ensures x !in xs ==> r == xs
  {
    if xs == [] then []
    else if xs[0] == x then ArrayRemove(xs[1..], x)
    else [xs[0]] + ArrayRemove(xs[1..], x)
  }

  /** arrayRemove drops every copy of x and keeps every other element as often as it was there. */
  lemma {:induction false} ArrayRemoveCounts<T(!new)>(xs: seq<T>, x: T)
    ensures multiset(ArrayRemove(xs, x)) == multiset(xs)[x := 0]
  {
    if xs != [] {
      assert xs == [xs[0]] + xs[1..];
      ArrayRemoveCounts(xs[1..], x);
      ArrayRemoveCons(xs[0], xs[1..], x);
    }
  }

  /** arrayRemove looks at the head and then at the rest. */
  lemma ArrayRemoveCons<T(!new)>(y: T, t: seq<T>, x: T)
    ensures ArrayRemove([y] + t, x) == (if y == x then [] else [y]) + ArrayRemove(t, x)
  {
    assert ([y] + t)[0] == y && ([y] + t)[1..] == t;
  }

  /**
   * arrayRemove works element by element: removing from a concatenation
   * removes from each part, so every kept element stays in its place
   * relative to the others.
   */
  lemma {:induction false} ArrayRemoveAppend<T(!new)>(a: seq<T>, b: seq<T>, x: T)
    ensures ArrayRemove(a + b, x) == ArrayRemove(a, x) + ArrayRemove(b, x)
  {
    if a == [] {
      assert a + b == b;
    } else {
      var head := if a[0] == x then [] else [a[0]];
      assert a == [a[0]] + a[1..];
      assert a + b == [a[0]] + (a[1..] + b);
      ArrayRemoveCons(a[0], a[1..] + b, x);
      ArrayRemoveCons(a[0], a[1..], x);
      ArrayRemoveAppend(a[1..], b, x);
      assert head + (ArrayRemove(a[1..], x) + ArrayRemove(b, x))
          == (head + ArrayRemove(a[1..], x)) + ArrayRemove(b, x);
    }
  }

  /** A single element is dropped exactly when it is x. */
  lemma ArrayRemoveOne<T(!new)>(y: T, x: T)
    ensures ArrayRemove([y], x) == if y == x then [] else [y]
  {
    assert [y][1..] == [];
  }
}
