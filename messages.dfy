/** The messages screen: the live chat list of the signed-in user (chats
    whose `users` contain them, newest first, each with its counterpart's
    profile), the live message log of the selected chat, get-or-create of
    a two-user chat, and sending a message (an append to the chat's
    `messages`, then an update of the chat's summary). */
module Messages {
  import opened Common
  import opened Sorting
  import opened Store

  /** A document of a chats query result. */
  datatype Snap = Snap(id: ChatId, chat: ChatDoc)

  function SnapTime(s: Snap): int { s.chat.lastMessageTime }

  /** The counterpart shown for a chat. */
  datatype ChatUser = ChatUser(id: Uid, name: string, avatar: string, online: bool)

  /** A chat as the screen holds it. A chat selected by `startNewChat`
      lacks the summary fields or the counterpart that a list entry has. */
  datatype ChatView = ChatView(
    id: ChatId,
    users: seq<Uid>,
    lastMessage: Option<string>,
    lastMessageTime: Option<nat>,
    unreadCount: Unread,
    user: Option<ChatUser>)

  // ---------------------------------------------------------------------
  // Queries

  /** `where('users', 'array-contains', me)` over the chats with ids below
      `n`, in ascending id order. */
  function ChatsWith(chats: map<ChatId, ChatDoc>, n: nat, me: Uid): (r: seq<Snap>)
    ensures forall s :: s in r <==> s.id < n && s.id in chats && s.chat == chats[s.id] && me in s.chat.users
    ensures forall i, j :: 0 <= i < j < |r| ==> r[i].id < r[j].id
  {
    if n == 0 then []
    else
      var prev := ChatsWith(chats, n - 1, me);
      if n - 1 in chats && me in chats[n - 1].users then
        assert forall i :: 0 <= i < |prev| ==> prev[i] in prev;
        prev + [Snap(n - 1, chats[n - 1])]
      else prev
  }

  /** The chat-list query: the same filter, `orderBy('lastMessageTime',
      'desc')`. */
  function ChatListQuery(chats: map<ChatId, ChatDoc>, n: nat, me: Uid): (r: seq<Snap>)
    ensures forall s :: s in r <==> s.id < n && s.id in chats && s.chat == chats[s.id] && me in s.chat.users
    ensures NonIncreasing(r, SnapTime)
    // each matching document is returned once
    ensures multiset(r) == multiset(ChatsWith(chats, n, me))
    ensures forall i, j :: 0 <= i < j < |r| ==> r[i].id != r[j].id
  {
    var mine := ChatsWith(chats, n, me);
    var r := SortDesc(mine, SnapTime);
    assert forall s :: s in r <==> s in multiset(r);
    assert forall s :: s in mine <==> s in multiset(mine);
    PermutationKeepsDistinct(r, mine);
    forall i, j | 0 <= i < j < |r| ensures r[i].id != r[j].id {
      assert r[i] in r && r[j] in r;
    }
    r
  }

  /** `users.find(id => id !== me)`: the first member other than `me`. */
  function FirstOther(users: seq<Uid>, me: Uid): (r: Option<Uid>)
    ensures r.None? <==> forall i :: 0 <= i < |users| ==> users[i] == me
    ensures r.Some? ==> r.value != me
    ensures r.Some? ==>
      exists i :: 0 <= i < |users| && users[i] == r.value && forall j :: 0 <= j < i ==> users[j] == me
  {
    if users == [] then None
    else if users[0] != me then Some(users[0])
    else
      var rest := FirstOther(users[1..], me);
      assert forall i :: 0 < i < |users| ==> users[i] == users[1..][i - 1];
      rest
  }

  /** `data.unreadCount || 0`: only a missing count becomes 0 (a map is
      truthy and stays a map). */
  function ShownUnread(u: Unread): (r: Unread)
    ensures r.Missing? == false
    ensures u.Missing? ==> r == Count(0)
    ensures !u.Missing? ==> r == u
  {
    if u.Missing? then Count(0) else u
  }

  /** `chat.unreadCount > 0`: a map compares false against a number. */
  predicate ShowsBadge(u: Unread) {
    u.Count? && u.n > 0
  }

  /** The write `unreadCount.<who>: increment(1)`: a plain number or a
      missing field is replaced by a map, and only `who`'s entry grows. */
  function IncrementUnread(u: Unread, who: Uid): (r: Unread)
    ensures r.PerUser? && who in r.counts
    ensures u.PerUser? && who in u.counts ==> r.counts[who] == u.counts[who] + 1
    ensures !(u.PerUser? && who in u.counts) ==> r.counts[who] == 1
    ensures u.PerUser? ==> (r.counts.Keys == u.counts.Keys + {who}
      && forall x :: x in u.counts && x != who ==> r.counts[x] == u.counts[x])
    ensures !u.PerUser? ==> r.counts.Keys == {who}
    // the list reads the count back as a scalar, so the badge never shows
    ensures !ShowsBadge(ShownUnread(r))
  {
    if u.PerUser? then
      PerUser(u.counts[who := (if who in u.counts then u.counts[who] else 0) + 1])
    else PerUser(map[who := 1])
  }

  /** The counterpart's display: `displayName || 'User'`, `photoURL ||
      ''`, `online || false`; an absent profile reads as all missing. */
  function CounterpartOf(other: Uid, profiles: map<Uid, UserDoc>): (u: ChatUser)
    ensures u.id == other && u.name != ""
    ensures other !in profiles ==> u.name == "User" && u.avatar == "" && !u.online
    ensures other in profiles ==>
      && u.name == StringOr(profiles[other].displayName, "User")
      && u.avatar == StringOr(profiles[other].photoURL, "")
      && u.online == profiles[other].online
  {
    if other in profiles then
      var p := profiles[other];
      ChatUser(other, StringOr(p.displayName, "User"), StringOr(p.photoURL, ""), p.online)
    else ChatUser(other, "User", "", false)
  }

  function ListEntry(s: Snap, other: Uid, profiles: map<Uid, UserDoc>): ChatView {
    ChatView(s.id, s.chat.users, Some(s.chat.lastMessage), Some(s.chat.lastMessageTime),
             ShownUnread(s.chat.unreadCount), Some(CounterpartOf(other, profiles)))
  }

  /** The chat list built from a snapshot, one entry per document in
      snapshot order. A chat with no member other than `me` has no
      counterpart, and the profile read with an undefined id throws, so the
      whole snapshot yields no list. */
  function ChatList(docs: seq<Snap>, profiles: map<Uid, UserDoc>, me: Uid): (r: Option<seq<ChatView>>)
    ensures r.None? <==> exists i :: 0 <= i < |docs| && FirstOther(docs[i].chat.users, me).None?
    ensures r.Some? ==> |r.value| == |docs| && forall i :: 0 <= i < |docs| ==>
      && r.value[i].id == docs[i].id
      && r.value[i].users == docs[i].chat.users
      && r.value[i].lastMessage == Some(docs[i].chat.lastMessage)
      && r.value[i].lastMessageTime == Some(docs[i].chat.lastMessageTime)
      && r.value[i].unreadCount == ShownUnread(docs[i].chat.unreadCount)
      && !r.value[i].unreadCount.Missing?
      && FirstOther(docs[i].chat.users, me).Some?
      && r.value[i].user == Some(CounterpartOf(FirstOther(docs[i].chat.users, me).value, profiles))
      && r.value[i].user.value.id != me && r.value[i].user.value.id in docs[i].chat.users
      && r.value[i].user.value.name != ""
  {
    if exists i :: 0 <= i < |docs| && FirstOther(docs[i].chat.users, me).None? then None
    else Some(seq(|docs|, i requires 0 <= i < |docs| =>
      ListEntry(docs[i], FirstOther(docs[i].chat.users, me).value, profiles)))
  }

  /** The snapshot handler's loop, which pushes one entry per document. */
  method BuildChatList(docs: seq<Snap>, profiles: map<Uid, UserDoc>, me: Uid) returns (list: Option<seq<ChatView>>)
    ensures list == ChatList(docs, profiles, me)
  {
    var acc: seq<ChatView> := [];
    for i := 0 to |docs|
      invariant |acc| == i
      invariant forall j :: 0 <= j < i ==> FirstOther(docs[j].chat.users, me).Some?
      invariant forall j :: 0 <= j < i ==>
        acc[j] == ListEntry(docs[j], FirstOther(docs[j].chat.users, me).value, profiles)
    {
      var other := FirstOther(docs[i].chat.users, me);
      if other.None? {
        return None;
      }
      acc := acc + [ListEntry(docs[i], other.value, profiles)];
    }
    assert acc == seq(|docs|, i requires 0 <= i < |docs| =>
      ListEntry(docs[i], FirstOther(docs[i].chat.users, me).value, profiles));
    return Some(acc);
  }

  /** The handler as written: the loop variable `doc` shadows the
      document-reference function, so the profile lookup calls a snapshot
      and throws on the first document; only an empty snapshot reaches
      `setChats`. */
  function ChatListAsWritten(docs: seq<Snap>, profiles: map<Uid, UserDoc>, me: Uid): (r: Option<seq<ChatView>>)
    ensures r.Some? ==> r.value == []
  {
    if docs == [] then Some([]) else None
  }

  /** With the shadowing, no chat ever reaches the list: every non-empty
      snapshot that the corrected handler lists is lost. */
  lemma ShadowedDocLosesChatList(docs: seq<Snap>, profiles: map<Uid, UserDoc>, me: Uid)
    requires docs != [] && ChatList(docs, profiles, me).Some?
    ensures ChatListAsWritten(docs, profiles, me).None?
    ensures |ChatList(docs, profiles, me).value| == |docs|
  {
  }

  /** A concrete case: one chat between "a" and "b". */
  lemma ShadowedDocExample()
    ensures var docs := [Snap(0, ChatDoc(["a", "b"], 0, 0, "", Count(0)))];
      && ChatListAsWritten(docs, map[], "a").None?
      && ChatList(docs, map[], "a") == Some([ChatView(0, ["a", "b"], Some(""), Some(0), Count(0),
                                                       Some(ChatUser("b", "User", "", false)))])
  {
    var docs := [Snap(0, ChatDoc(["a", "b"], 0, 0, "", Count(0)))];
    assert FirstOther(["a", "b"], "a") == Some("b");
    assert !exists i :: 0 <= i < |docs| && FirstOther(docs[i].chat.users, "a").None?;
    var l := ChatList(docs, map[], "a").value;
    assert |l| == 1 && l[0] == ChatView(0, ["a", "b"], Some(""), Some(0), Count(0),
                                        Some(ChatUser("b", "User", "", false)));
    assert l == [l[0]];
  }

  /** The list shown for `me` holds exactly the chats whose `users` contain
      `me`, newest first. */
  lemma ChatListShowsMyChats(chats: map<ChatId, ChatDoc>, n: nat, profiles: map<Uid, UserDoc>, me: Uid)
    requires forall id :: id in chats ==> id < n
    requires ChatList(ChatListQuery(chats, n, me), profiles, me).Some?
    ensures var v := ChatList(ChatListQuery(chats, n, me), profiles, me).value;
      && (forall id :: (exists i :: 0 <= i < |v| && v[i].id == id) <==> id in chats && me in chats[id].users)
      && (forall i, j :: 0 <= i < j < |v| ==> v[i].lastMessageTime.value >= v[j].lastMessageTime.value)
      && (forall i, j :: 0 <= i < j < |v| ==> v[i].id != v[j].id)
  {
    var q := ChatListQuery(chats, n, me);
    var v := ChatList(q, profiles, me).value;
    forall id ensures (exists i :: 0 <= i < |v| && v[i].id == id) <==> id in chats && me in chats[id].users {
      if id in chats && me in chats[id].users {
        var s := Snap(id, chats[id]);
        assert s in q;
        var i :| 0 <= i < |q| && q[i] == s;
        assert v[i].id == id;
      }
      if exists i :: 0 <= i < |v| && v[i].id == id {
        var i :| 0 <= i < |v| && v[i].id == id;
        assert q[i] in q;
      }
    }
  }

  /** A chat whose members are all `me` (a chat with oneself) leaves the
      list without an update. */
  lemma SelfChatBlocksChatList(docs: seq<Snap>, profiles: map<Uid, UserDoc>, me: Uid, k: nat)
    requires k < |docs| && docs[k].chat.users == [me, me]
    ensures ChatList(docs, profiles, me).None?
  {
    assert FirstOther(docs[k].chat.users, me).None?;
  }

  // ---------------------------------------------------------------------
  // The message log

  /** `orderBy('createdAt', 'desc')` and then `reverse()`. */
  function DisplayOrder(log: seq<MessageDoc>): (r: seq<MessageDoc>)
    ensures multiset(r) == multiset(log)
    ensures NonDecreasing(r, MessageTime)
  {
    var d := SortDesc(log, MessageTime);
    ReverseIsPermutation(d);
    ReverseReversesOrder(d, MessageTime);
    Reverse(d)
  }

  /** A log with strictly increasing stamps is displayed in append order. */
  lemma DisplayOrderOfChronological(log: seq<MessageDoc>, clock: nat)
    requires Chronological(log, clock)
    ensures DisplayOrder(log) == log
  {
    SortDescOfIncreasing(log, MessageTime);
    assert Reverse(Reverse(log)) == log;
  }

  // ---------------------------------------------------------------------
  // Get-or-create

  /** `docs.find(d => d.users.includes(target))`. */
  function FindExisting(docs: seq<Snap>, target: Uid): (r: Option<Snap>)
    ensures r.None? <==> forall i :: 0 <= i < |docs| ==> target !in docs[i].chat.users
    ensures r.Some? ==> target in r.value.chat.users
    ensures r.Some? ==>
      exists i :: 0 <= i < |docs| && docs[i] == r.value && forall j :: 0 <= j < i ==> target !in docs[j].chat.users
  {
    if docs == [] then None
    else if target in docs[0].chat.users then Some(docs[0])
    else
      var rest := FindExisting(docs[1..], target);
      assert forall i :: 0 < i < |docs| ==> docs[i] == docs[1..][i - 1];
      rest
  }

  /** The chat `startNewChat` creates. */
  function NewChat(me: Uid, target: Uid, now: nat): (c: ChatDoc)
    ensures c.users == [me, target] && c.lastMessage == "" && c.unreadCount == Count(0)
    ensures c.createdAt == now && c.lastMessageTime == now
  {
    ChatDoc([me, target], now, now, "", Count(0))
  }

  lemma {:induction false} ChatsWithUnaffected(chats: map<ChatId, ChatDoc>, n: nat, m: nat, c: ChatDoc, who: Uid)
    requires n <= m
    ensures ChatsWith(chats[m := c], n, who) == ChatsWith(chats, n, who)
  {
    if n > 0 {
      ChatsWithUnaffected(chats, n - 1, m, c, who);
    }
  }

  /** After A starts a chat with B and none contained both, B starting a
      chat with A finds the chat A created: the lookup is by membership,
      not by order. */
  lemma CreatedChatFoundInReverse(chats: map<ChatId, ChatDoc>, n: nat, a: Uid, b: Uid, now: nat)
    requires forall id :: id in chats ==> id < n
    requires FindExisting(ChatsWith(chats, n, a), b).None?
    ensures var chats' := chats[n := NewChat(a, b, now)];
      FindExisting(ChatsWith(chats', n + 1, b), a) == Some(Snap(n, NewChat(a, b, now)))
  {
    var c := NewChat(a, b, now);
    var chats' := chats[n := c];
    ChatsWithUnaffected(chats, n, n, c, b);
    var prev := ChatsWith(chats, n, b);
    assert ChatsWith(chats', n + 1, b) == prev + [Snap(n, c)];
    NoChatWithBoth(chats, n, a, b);
    FoundAtEnd(prev, Snap(n, c), a);
  }

  /** When no chat of `a` contains `b`, no chat of `b` contains `a`. */
  lemma NoChatWithBoth(chats: map<ChatId, ChatDoc>, n: nat, a: Uid, b: Uid)
    requires FindExisting(ChatsWith(chats, n, a), b).None?
    ensures var prev := ChatsWith(chats, n, b);
      forall i :: 0 <= i < |prev| ==> a !in prev[i].chat.users
  {
    var mine := ChatsWith(chats, n, a);
    var prev := ChatsWith(chats, n, b);
    forall s | s in mine ensures b !in s.chat.users {
      var k :| 0 <= k < |mine| && mine[k] == s;
    }
    forall i | 0 <= i < |prev| ensures a !in prev[i].chat.users {
      assert prev[i] in prev;
    }
  }


  /** A lookup that no earlier document satisfies finds the last one. */
  lemma {:induction false} FoundAtEnd(prev: seq<Snap>, s: Snap, target: Uid)
    requires forall i :: 0 <= i < |prev| ==> target !in prev[i].chat.users
    requires target in s.chat.users
    ensures FindExisting(prev + [s], target) == Some(s)
  {
    if prev != [] {
      assert (prev + [s])[1..] == prev[1..] + [s];
      FoundAtEnd(prev[1..], s, target);
    }
  }

  // ---------------------------------------------------------------------
  // The chat header

  /** The chat window's header reads `selectedChat.user.avatar`, `.name`
      and `.online`: with a selected chat that has no `user`, rendering
      throws. */
  predicate HeaderRenders(selected: Option<ChatView>) {
    selected.None? || selected.value.user.Some?
  }

  /** Every entry of the chat list can be selected and rendered. */
  lemma ListedChatsRender(docs: seq<Snap>, profiles: map<Uid, UserDoc>, me: Uid)
    requires ChatList(docs, profiles, me).Some?
    ensures var v := ChatList(docs, profiles, me).value;
      forall i :: 0 <= i < |v| ==> HeaderRenders(Some(v[i]))
  {
  }

  // ---------------------------------------------------------------------
  // The screen

  class MessagesScreen {
    var chats: seq<ChatView>
    var selectedChat: Option<ChatView>
    var messages: seq<MessageDoc>
    var newMessage: string

    constructor ()
      ensures chats == [] && selectedChat.None? && messages == [] && newMessage == ""
    {
      chats, selectedChat, messages, newMessage := [], None, [], "";
    }

    /** A snapshot of the chat-list query. No subscription exists without a
        signed-in user; a snapshot the handler cannot list leaves the list
        as it was. */
    method OnChatListSnapshot(store: DocumentStore, me: Option<Uid>)
      modifies this`chats
      ensures me.None? ==> chats == old(chats)
      ensures me.Some? ==>
        var l := ChatList(ChatListQuery(store.chats, store.nextChatId, me.value), store.users, me.value);
        chats == if l.Some? then l.value else old(chats)
    {
      if me.None? {
        return;
      }
      var docs := ChatListQuery(store.chats, store.nextChatId, me.value);
      var list := BuildChatList(docs, store.users, me.value);
      if list.Some? {
        chats := list.value;
      }
    }

    /** A click on the `i`-th chat of the list. */
    method SelectChat(i: nat)
      requires i < |chats|
      modifies this`selectedChat
      ensures selectedChat == Some(chats[i])
    {
      selectedChat := Some(chats[i]);
    }

    method EditMessage(text: string)
      modifies this`newMessage
      ensures newMessage == text
    {
      newMessage := text;
    }

    /** A snapshot of the selected chat's messages; there is no subscription
        without a selected chat and a signed-in user. */
    method OnMessagesSnapshot(store: DocumentStore, me: Option<Uid>)
      modifies this`messages
      ensures selectedChat.None? || me.None? ==> messages == old(messages)
      ensures selectedChat.Some? && me.Some? ==>
        messages == DisplayOrder(LogOf(store.messages, selectedChat.value.id))
    {
      if selectedChat.None? || me.None? {
        return;
      }
      messages := DisplayOrder(LogOf(store.messages, selectedChat.value.id));
    }

    /** `startNewChat(target)`: the first chat of `me` containing `target`
        is selected, without its counterpart; otherwise exactly one chat
        `[me, target]` is created and selected. `queryOk` and `createOk` are
        the outcomes of the lookup and of the creation. */
    method StartNewChat(store: DocumentStore, me: Option<Uid>, target: Uid, queryOk: bool, createOk: bool)
      requires store.Valid()
      modifies this`selectedChat, store`chats, store`nextChatId, store`clock
      ensures store.Valid()
      ensures store.users == old(store.users) && store.messages == old(store.messages)
      ensures me.None? || !queryOk ==>
        selectedChat == old(selectedChat) && store.chats == old(store.chats)
        && store.nextChatId == old(store.nextChatId) && store.clock == old(store.clock)
      ensures me.Some? && queryOk ==>
        var found := FindExisting(ChatsWith(old(store.chats), old(store.nextChatId), me.value), target);
        && (found.Some? ==>
              && store.chats == old(store.chats) && store.nextChatId == old(store.nextChatId)
              && store.clock == old(store.clock)
              && selectedChat == Some(ChatView(found.value.id, found.value.chat.users,
                   Some(found.value.chat.lastMessage), Some(found.value.chat.lastMessageTime),
                   found.value.chat.unreadCount, None))
              && !HeaderRenders(selectedChat))
        && (found.None? && !createOk ==>
              selectedChat == old(selectedChat) && store.chats == old(store.chats)
              && store.nextChatId == old(store.nextChatId) && store.clock == old(store.clock))
        && (found.None? && createOk ==>
              var id := old(store.nextChatId);
              && id !in old(store.chats)
              && store.chats == old(store.chats)[id := NewChat(me.value, target, old(store.clock))]
              && store.nextChatId == id + 1 && store.clock == old(store.clock) + 1
              && selectedChat == Some(ChatView(id, [me.value, target], None, None, Count(0),
                   Some(ChatUser(target, "User", "", false))))
              && HeaderRenders(selectedChat))
      ensures SummariesBacked(old(store.chats), store.messages) ==> SummariesBacked(store.chats, store.messages)
    {
      if me.None? || !queryOk {
        return;
      }
      var found := FindExisting(ChatsWith(store.chats, store.nextChatId, me.value), target);
      if found.Some? {
        var s := found.value;
        selectedChat := Some(ChatView(s.id, s.chat.users, Some(s.chat.lastMessage),
                                      Some(s.chat.lastMessageTime), s.chat.unreadCount, None));
        return;
      }
      if !createOk {
        return;
      }
      var id := store.AddChat(NewChat(me.value, target, store.clock));
      selectedChat := Some(ChatView(id, [me.value, target], None, None, Count(0),
                                    Some(ChatUser(target, "User", "", false))));
    }

    /** `handleSendMessage`. A blank text, no selected chat or no signed-in
        user is a no-op. The message (untrimmed text, unread) is appended
        first (`appendOk`); then the summary update (`updateOk`) needs the
        selected chat's counterpart, and a chat selected without one throws
        there, after the append. The text is cleared only when both writes
        succeed. */
    method SendMessage(store: DocumentStore, me: Option<Uid>, appendOk: bool, updateOk: bool)
      requires store.Valid()
      modifies this`newMessage, store`chats, store`messages, store`clock
      ensures store.Valid()
      ensures store.users == old(store.users) && store.nextChatId == old(store.nextChatId)
      ensures IsBlank(old(newMessage)) || selectedChat.None? || me.None? || !appendOk ==>
        && newMessage == old(newMessage) && store.chats == old(store.chats)
        && store.messages == old(store.messages) && store.clock == old(store.clock)
      ensures !IsBlank(old(newMessage)) && selectedChat.Some? && me.Some? && appendOk ==>
        var id := selectedChat.value.id;
        var m := MessageDoc(old(newMessage), me.value, old(store.clock), false);
        && store.messages == old(store.messages)[id := LogOf(old(store.messages), id) + [m]]
        && (if selectedChat.value.user.Some? && updateOk && id in old(store.chats) then
              var c := old(store.chats)[id];
              && store.chats == old(store.chats)[id := c.(
                   lastMessage := old(newMessage),
                   lastMessageTime := old(store.clock) + 1,
                   unreadCount := IncrementUnread(c.unreadCount, selectedChat.value.user.value.id))]
              && store.clock == old(store.clock) + 2
              && newMessage == ""
            else
              && store.chats == old(store.chats) && store.clock == old(store.clock) + 1
              && newMessage == old(newMessage))
      ensures SummariesBacked(old(store.chats), old(store.messages)) ==> SummariesBacked(store.chats, store.messages)
    {
      if IsBlank(newMessage) || selectedChat.None? || me.None? || !appendOk {
        return;
      }
      var id := selectedChat.value.id;
      var now := store.clock;
      var text := newMessage;
      var m := MessageDoc(text, me.value, now, false);
      store.AddMessage(id, m);
      if selectedChat.value.user.None? || !updateOk || id !in store.chats {
        return;
      }
      var c := store.chats[id];
      var doc := c.(
        lastMessage := text,
        lastMessageTime := now + 1,
        unreadCount := IncrementUnread(c.unreadCount, selectedChat.value.user.value.id));
      assert m in LogOf(store.messages, id);
      store.UpdateChat(id, doc);
      newMessage := "";
    }
  }
}
