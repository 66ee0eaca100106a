/** The document store as the client sees it: the `users` and `chats`
    collections, each chat's `messages` sub-collection, the per-field
    update operators (`increment`, `arrayUnion`, `arrayRemove`) and the
    server clock behind `serverTimestamp()`. */
module Store {
  import opened Common
  import opened Sorting

  type Uid = string

  /** Chat documents get store-generated ids; the model numbers them. */
  type ChatId = nat

  datatype Preferences = Preferences(notifications: bool, emailUpdates: bool, privateAccount: bool)

  /** A `users` document. A counter field may be absent (`None`); an absent
      array field is the empty list, which is how every reader and every
      update operator of the client treats it. */
  datatype UserDoc = UserDoc(
    uid: Uid,
    email: string,
    displayName: Option<string>,
    photoURL: Option<string>,
    username: Option<string>,
    bio: string,
    followers: Option<int>,
    following: Option<int>,
    followingList: seq<Uid>,
    followedBy: seq<Uid>,
    totalViews: int,
    totalLikes: int,
    isVerified: bool,
    preferences: Preferences,
    online: bool,
    createdAt: Option<nat>,
    updatedAt: Option<nat>,
    lastLogin: Option<nat>)

  /** The `unreadCount` field of a chat: absent, a plain number, or a map
      from user id to number (what a write to `unreadCount.<uid>` leaves). */
  datatype Unread = Missing | Count(n: int) | PerUser(counts: map<Uid, int>)

  datatype ChatDoc = ChatDoc(
    users: seq<Uid>,
    createdAt: nat,
    lastMessageTime: nat,
    lastMessage: string,
    unreadCount: Unread)

  datatype MessageDoc = MessageDoc(text: string, senderId: Uid, createdAt: nat, read: bool)

  function MessageTime(m: MessageDoc): int { m.createdAt }

  // ---------------------------------------------------------------------
  // Field update operators

  /** `data.field || 0` for a counter. */
  function CounterValue(c: Option<int>): int {
    if c.Some? then c.value else 0
  }

  /** `increment(d)`: an absent field counts from zero. */
  function Increment(c: Option<int>, d: int): (r: Option<int>)
    ensures r.Some? && CounterValue(r) == CounterValue(c) + d
  {
    Some(CounterValue(c) + d)
  }

  ghost predicate NoDuplicates(l: seq<Uid>) {
    forall i, j :: 0 <= i < j < |l| ==> l[i] != l[j]
  }

  /** `arrayUnion(x)`: appends `x` unless it is already an element. */
  function ArrayUnion(l: seq<Uid>, x: Uid): (r: seq<Uid>)
    ensures forall y :: y in r <==> y in l || y == x
    ensures |l| <= |r| && r[..|l|] == l
    ensures NoDuplicates(l) ==> NoDuplicates(r)
    ensures |r| == if x in l then |l| else |l| + 1
  {
    if x in l then l else l + [x]
  }

  /** `arrayRemove(x)`: removes every occurrence of `x`, keeping the order
      of the rest. */
  function ArrayRemove(l: seq<Uid>, x: Uid): (r: seq<Uid>)
    ensures forall y :: y in r <==> y in l && y != x
    ensures |r| <= |l|
    ensures x !in l ==> r == l
  {
    if l == [] then []
    else if l[0] == x then ArrayRemove(l[1..], x)
    else [l[0]] + ArrayRemove(l[1..], x)
  }

  /** Adding an element twice is the same as adding it once. */
  lemma ArrayUnionIdempotent(l: seq<Uid>, x: Uid)
    ensures ArrayUnion(ArrayUnion(l, x), x) == ArrayUnion(l, x)
  {
  }

  /** Removing an element that was just added to a list without it gives the
      list back. */
  lemma {:induction false} RemoveUndoesUnion(l: seq<Uid>, x: Uid)
    requires x !in l
    ensures ArrayRemove(ArrayUnion(l, x), x) == l
  {
    if l == [] {
    } else {
      assert (l + [x])[1..] == l[1..] + [x];
      RemoveUndoesUnion(l[1..], x);
    }
  }

  lemma {:induction false} RemovePreservesNoDuplicates(l: seq<Uid>, x: Uid)
    requires NoDuplicates(l)
    ensures NoDuplicates(ArrayRemove(l, x))
  {
    if l != [] {
      RemovePreservesNoDuplicates(l[1..], x);
      var rest := ArrayRemove(l[1..], x);
      if l[0] != x {
        assert l[0] !in l[1..] by {
          forall k | 0 <= k < |l[1..]| ensures l[1..][k] != l[0] {
            assert l[1..][k] == l[k + 1];
          }
        }
        assert l[0] !in rest;
        var r := [l[0]] + rest;
        forall i, j | 0 <= i < j < |r| ensures r[i] != r[j] {
          if i == 0 { assert r[j] == rest[j - 1] && r[j] in rest; }
        }
      }
    }
  }

  /** On a list without duplicates, removing a member shortens it by one. */
  lemma {:induction false} RemoveMemberLength(l: seq<Uid>, x: Uid)
    requires NoDuplicates(l) && x in l
    ensures |ArrayRemove(l, x)| == |l| - 1
  {
    if l[0] == x {
      assert x !in l[1..] by {
        forall k | 0 <= k < |l[1..]| ensures l[1..][k] != x {
          assert l[1..][k] == l[k + 1];
        }
      }
    } else {
      assert x in l[1..] by {
        var k :| 0 <= k < |l| && l[k] == x;
        assert k > 0 && l[1..][k - 1] == x;
      }
      RemoveMemberLength(l[1..], x);
    }
  }

  // ---------------------------------------------------------------------
  // The store

  /** Every message of a chat's log carries a timestamp issued before the
      clock's current value, in strictly increasing append order. */
  ghost predicate Chronological(log: seq<MessageDoc>, clock: nat) {
    && StrictlyIncreasing(log, MessageTime)
    && forall i :: 0 <= i < |log| ==> log[i].createdAt < clock
  }

  /** A later clock keeps a log chronological. */
  lemma ChronologicalLater(log: seq<MessageDoc>, clock: nat, later: nat)
    requires Chronological(log, clock) && clock <= later
    ensures Chronological(log, later)
  {
  }

  /** Appending a message stamped with the current clock, and then
      advancing the clock, keeps a log chronological. */
  lemma ChronologicalAppend(log: seq<MessageDoc>, m: MessageDoc, clock: nat)
    requires Chronological(log, clock) && m.createdAt == clock
    ensures Chronological(log + [m], clock + 1)
  {
    var l := log + [m];
    forall i, j | 0 <= i < j < |l| ensures MessageTime(l[i]) < MessageTime(l[j]) {
      if j == |log| {
        assert l[i] == log[i];
      }
    }
  }

  /** The messages of chat `c` (an absent sub-collection is empty). */
  function LogOf(messages: map<ChatId, seq<MessageDoc>>, c: ChatId): seq<MessageDoc> {
    if c in messages then messages[c] else []
  }

  /** A later clock keeps every log chronological. */
  lemma LogsLater(messages: map<ChatId, seq<MessageDoc>>, clock: nat, later: nat)
    requires forall id :: id in messages ==> Chronological(messages[id], clock)
    requires clock <= later
    ensures forall id :: id in messages ==> Chronological(messages[id], later)
  {
    forall id | id in messages ensures Chronological(messages[id], later) {
      ChronologicalLater(messages[id], clock, later);
    }
  }

  /** Appending a message stamped with the clock to one log, and advancing
      the clock, keeps every log chronological. */
  lemma LogsAppend(messages: map<ChatId, seq<MessageDoc>>, c: ChatId, m: MessageDoc, clock: nat)
    requires forall id :: id in messages ==> Chronological(messages[id], clock)
    requires m.createdAt == clock
    ensures var messages' := messages[c := LogOf(messages, c) + [m]];
      forall id :: id in messages' ==> Chronological(messages'[id], clock + 1)
  {
    var messages' := messages[c := LogOf(messages, c) + [m]];
    ChronologicalAppend(LogOf(messages, c), m, clock);
    forall id | id in messages' ensures Chronological(messages'[id], clock + 1) {
      if id != c {
        ChronologicalLater(messages[id], clock, clock + 1);
      }
    }
  }

  // ---------------------------------------------------------------------
  // The summary invariant

  /** Every non-empty `lastMessage` is the text of a message in the chat's
      log. */
  ghost predicate SummariesBacked(chats: map<ChatId, ChatDoc>, messages: map<ChatId, seq<MessageDoc>>) {
    forall id :: id in chats && chats[id].lastMessage != "" ==>
      exists m :: m in LogOf(messages, id) && m.text == chats[id].lastMessage
  }

  /** Appending to a log keeps every summary backed. */
  lemma AppendKeepsBacked(chats: map<ChatId, ChatDoc>, messages: map<ChatId, seq<MessageDoc>>, c: ChatId, m: MessageDoc)
    requires SummariesBacked(chats, messages)
    ensures SummariesBacked(chats, messages[c := LogOf(messages, c) + [m]])
  {
    var messages' := messages[c := LogOf(messages, c) + [m]];
    forall k | k in chats && chats[k].lastMessage != ""
      ensures exists x :: x in LogOf(messages', k) && x.text == chats[k].lastMessage
    {
      var x :| x in LogOf(messages, k) && x.text == chats[k].lastMessage;
      assert x in LogOf(messages', k);
    }
  }

  /** A summary naming a message of its own chat's log keeps every summary
      backed. */
  lemma SummaryKeepsBacked(chats: map<ChatId, ChatDoc>, messages: map<ChatId, seq<MessageDoc>>, c: ChatId, doc: ChatDoc, m: MessageDoc)
    requires SummariesBacked(chats, messages)
    requires m in LogOf(messages, c) && doc.lastMessage == m.text
    ensures SummariesBacked(chats[c := doc], messages)
  {
    var chats' := chats[c := doc];
    forall k | k in chats' && chats'[k].lastMessage != ""
      ensures exists x :: x in LogOf(messages, k) && x.text == chats'[k].lastMessage
    {
      if k == c {
        assert m in LogOf(messages, k);
      } else {
        var x :| x in LogOf(messages, k) && x.text == chats[k].lastMessage;
        assert x in LogOf(messages, k);
      }
    }
  }

  class DocumentStore {
    var users: map<Uid, UserDoc>
    var chats: map<ChatId, ChatDoc>
    var messages: map<ChatId, seq<MessageDoc>>
    /** The id the next created chat receives. */
    var nextChatId: ChatId
    /** The value the next `serverTimestamp()` resolves to. */
    var clock: nat

    ghost predicate Valid()
      reads this
    {
      && (forall id :: id in chats ==> id < nextChatId)
      && (forall id :: id in messages ==> Chronological(messages[id], clock))
    }

    constructor ()
      ensures Valid()
      ensures users == map[] && chats == map[] && messages == map[]
    {
      users, chats, messages := map[], map[], map[];
      nextChatId, clock := 0, 0;
    }

    /** `addDoc` on the messages of chat `c`, the message stamped with the
        current server time. */
    method AddMessage(c: ChatId, m: MessageDoc)
      requires Valid() && m.createdAt == clock
      modifies this`messages, this`clock
      ensures Valid()
      ensures messages == old(messages)[c := LogOf(old(messages), c) + [m]]
      ensures clock == old(clock) + 1
      ensures SummariesBacked(chats, old(messages)) ==> SummariesBacked(chats, messages)
    {
      if SummariesBacked(chats, messages) {
        AppendKeepsBacked(chats, messages, c, m);
      }
      LogsAppend(messages, c, m, clock);
      messages := messages[c := LogOf(messages, c) + [m]];
      clock := clock + 1;
    }

    /** `addDoc` on the chats collection: the new chat receives a fresh
        id. */
    method AddChat(doc: ChatDoc) returns (id: ChatId)
      requires Valid()
      modifies this`chats, this`nextChatId, this`clock
      ensures Valid()
      ensures id == old(nextChatId) && id !in old(chats)
      ensures chats == old(chats)[id := doc] && nextChatId == id + 1 && clock == old(clock) + 1
      ensures SummariesBacked(old(chats), messages) && doc.lastMessage == "" ==> SummariesBacked(chats, messages)
    {
      id := nextChatId;
      LogsLater(messages, clock, clock + 1);
      chats := chats[id := doc];
      nextChatId := id + 1;
      clock := clock + 1;
    }

    /** `updateDoc` on chat `c`, which exists, with a summary stamped with
        the current server time. */
    method UpdateChat(c: ChatId, doc: ChatDoc)
      requires Valid() && c in chats && doc.lastMessageTime == clock
      modifies this`chats, this`clock
      ensures Valid()
      ensures chats == old(chats)[c := doc] && clock == old(clock) + 1
      ensures SummariesBacked(old(chats), messages) && (exists x :: x in LogOf(messages, c) && x.text == doc.lastMessage) ==>
        SummariesBacked(chats, messages)
    {
      if SummariesBacked(chats, messages) && exists x :: x in LogOf(messages, c) && x.text == doc.lastMessage {
        var x :| x in LogOf(messages, c) && x.text == doc.lastMessage;
        SummaryKeepsBacked(chats, messages, c, doc, x);
      }
      LogsLater(messages, clock, clock + 1);
      chats := chats[c := doc];
      clock := clock + 1;
    }
  }
}
