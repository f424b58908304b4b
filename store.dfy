/** The app's context object over an in-memory document store: users by
    id, chats by id (with the order a chats query scans them in) and the
    messages of each chat. Each store call of the app is a read or a write
    of these maps; server times, generated ids and identity-provider
    outcomes are parameters. */
module ChatStore {
  import opened Types
  import opened Auth
  import opened Threads
  import opened Messages
  import opened Previews

  /** What the identity provider answered to an account creation. */
  datatype SignUp = Created(uid: UserId) | SignUpRejected(error: AuthError)

  /** What the identity provider answered to a sign-in. */
  datatype SignIn = SignedIn(uid: UserId) | SignInRejected(error: AuthError)

  /** The chat `startChat` creates for a pair that has none. */
  function NewChat(userId: UserId, friendId: UserId, now: int): (c: Chat)
    ensures |c.participants| == 2 && userId in c.participants && friendId in c.participants
    ensures c.participants[0] == userId && c.participants[1] == friendId
    ensures c.lastMessage.None? && c.messagesCount == 0
    ensures c.typingStatus.Keys == {userId, friendId}
    ensures forall u :: u in c.typingStatus ==> !c.typingStatus[u]
  {
    Chat([userId, friendId], now, None, now, map[userId := false, friendId := false], 0)
  }

  /** `order` lists every chat of `chats` exactly once. */
  ghost predicate ScanOrder(order: seq<ChatId>, chats: map<ChatId, Chat>) {
    && (forall i :: 0 <= i < |order| ==> order[i] in chats)
    && (forall id :: id in chats ==> id in order)
    && (forall i, j :: 0 <= i < j < |order| ==> order[i] != order[j])
  }

  /** A new chat placed anywhere in the scan order keeps it a listing of
      every chat exactly once. */
  lemma InsertKeepsScanOrder(order: seq<ChatId>, chats: map<ChatId, Chat>, newId: ChatId, at: nat, c: Chat)
    requires ScanOrder(order, chats) && newId !in chats && at <= |order|
    ensures ScanOrder(order[..at] + [newId] + order[at..], chats[newId := c])
  {
    var o := order[..at] + [newId] + order[at..];
    assert forall i :: 0 <= i < |o| ==> o[i] == (if i < at then order[i] else if i == at then newId else order[i - 1]);
    forall id | id in chats[newId := c] ensures id in o {
      if id != newId {
        var k :| 0 <= k < |order| && order[k] == id;
        assert o[if k < at then k else k + 1] == id;
      } else {
        assert o[at] == newId;
      }
    }
  }

  /** `startChat`'s scan over the rows of the viewer's chats: each row that
      is a thread of the pair replaces the candidate found so far. */
  method FindThread(rows: seq<ChatRow>, userId: UserId, friendId: UserId) returns (found: Option<ChatId>)
    ensures found == LastThread(rows, userId, friendId)
  {
    found := None;
    var i := 0;
    while i < |rows|
      invariant 0 <= i <= |rows|
      invariant found == LastThread(rows[..i], userId, friendId)
    {
      var participants := rows[i].chat.participants;
      assert rows[..i + 1][..i] == rows[..i];
      if |participants| == 2 && userId in participants && friendId in participants {
        found := Some(rows[i].id);
      }
      i := i + 1;
    }
    assert rows[..i] == rows;
  }

  class Store {
    var users: map<UserId, User>
    var chats: map<ChatId, Chat>
    /** The order a query over the chats collection visits them in. */
    var order: seq<ChatId>
    var messages: map<ChatId, seq<Message>>

    /** `order` lists every chat exactly once. */
    ghost predicate Valid()
      reads this
    {
      ScanOrder(order, chats)
    }

    constructor ()
      ensures Valid()
      ensures users == map[] && chats == map[] && order == [] && messages == map[]
    {
      users, chats, order, messages := map[], map[], [], map[];
    }

    /** The rows of the query "chats whose participants contain userId". */
    function Snapshot(userId: UserId): (rows: seq<ChatRow>)
      reads this
      ensures forall r :: r in rows ==> userId in r.chat.participants && r.id in chats && chats[r.id] == r.chat
      ensures Valid() ==> forall id :: id in chats && userId in chats[id].participants ==> ChatRow(id, chats[id]) in rows
    {
      Rows(order, chats, userId)
    }

    /** The messages of a chat; none when it has no messages collection. */
    function MessagesOf(chatId: ChatId): seq<Message>
      reads this
    {
      if chatId in messages then messages[chatId] else []
    }

    /** `register`: on a created account, write the initial user record. */
    method Register(outcome: SignUp, email: string, username: string, phone: string,
                    createdIso: string, seenIso: string) returns (r: AuthResult)
      requires Valid()
      modifies this
      ensures Valid()
      ensures chats == old(chats) && order == old(order) && messages == old(messages)
      ensures outcome.SignUpRejected? ==>
                r == AuthResult(false, RegisterMessage(outcome.error)) && users == old(users)
      ensures outcome.Created? ==>
                r == AuthResult(true, "Registration successful") &&
                users == old(users)[outcome.uid := InitialUser(outcome.uid, email, username, phone, createdIso, seenIso)]
      ensures outcome.Created? && outcome.uid != "" ==> FriendsUpdate(outcome.uid) == Some([])
      ensures forall u :: outcome.SignUpRejected? || u != outcome.uid ==> FriendsUpdate(u) == old(FriendsUpdate(u))
    {
      match outcome
      case SignUpRejected(e) =>
        r := AuthResult(false, RegisterMessage(e));
      case Created(uid) =>
        users := users[uid := InitialUser(uid, email, username, phone, createdIso, seenIso)];
        r := AuthResult(true, "Registration successful");
    }

    /** `login`: on a successful sign-in, refresh the user's `lastSeen`.
        Updating a missing user record fails with the store's not-found
        error, whose text is `missingText`. */
    method Login(outcome: SignIn, nowIso: string, missingText: string) returns (r: AuthResult)
      requires Valid()
      modifies this
      ensures Valid()
      ensures chats == old(chats) && order == old(order) && messages == old(messages)
      ensures outcome.SignInRejected? ==>
                r == AuthResult(false, LoginMessage(outcome.error)) && users == old(users)
      ensures outcome.SignedIn? && outcome.uid in old(users) ==>
                r == AuthResult(true, "Login successful") &&
                users == old(users)[outcome.uid := old(users)[outcome.uid].(lastSeen := nowIso)]
      ensures outcome.SignedIn? && outcome.uid !in old(users) ==>
                r == AuthResult(false, LoginMessage(AuthError(NotFoundCode, missingText))) && users == old(users)
      ensures forall u :: FriendsUpdate(u) == old(FriendsUpdate(u))
    {
      match outcome
      case SignInRejected(e) =>
        r := AuthResult(false, LoginMessage(e));
      case SignedIn(uid) =>
        if uid in users {
          users := users[uid := users[uid].(lastSeen := nowIso)];
          r := AuthResult(true, "Login successful");
        } else {
          r := AuthResult(false, LoginMessage(AuthError(NotFoundCode, missingText)));
        }
    }

    /** `startChat`: scan the user's chats for a two-party chat with the
        friend (the last match wins); if there is none, add a new chat under
        the generated id `newId`, which takes position `at` in the scan
        order. Either way the next scan finds the returned chat. */
    method StartChat(userId: UserId, friendId: UserId, newId: ChatId, at: nat, now: int)
      returns (chatId: ChatId)
      requires Valid()
      requires newId !in chats && at <= |order|
      modifies this
      ensures Valid()
      ensures users == old(users) && messages == old(messages)
      ensures LastThread(old(Snapshot(userId)), userId, friendId).Some? ==>
                chatId == LastThread(old(Snapshot(userId)), userId, friendId).value &&
                chats == old(chats) && order == old(order)
      ensures LastThread(old(Snapshot(userId)), userId, friendId).None? ==>
                chatId == newId && chatId !in old(chats) &&
                chats == old(chats)[newId := NewChat(userId, friendId, now)] &&
                order == old(order[..at] + [newId] + order[at..])
      ensures LastThread(Snapshot(userId), userId, friendId) == Some(chatId)
      ensures forall u :: FriendsUpdate(u) == old(FriendsUpdate(u))
    {
      var chatDoc := FindThread(Snapshot(userId), userId, friendId);
      if chatDoc.Some? {
        return chatDoc.value;
      }
      assert newId !in order;
      FreshThreadIsFound(order, chats, userId, friendId, newId, at, NewChat(userId, friendId, now));
      InsertKeepsScanOrder(order, chats, newId, at, NewChat(userId, friendId, now));
      chats := chats[newId := NewChat(userId, friendId, now)];
      order := order[..at] + [newId] + order[at..];
      chatId := newId;
    }

    /** `sendMessage`: add the message to the chat's messages, then rewrite
        the chat's last message and bump its count. The message is added
        even when the chat record does not exist; the chat update then
        fails and changes nothing. */
    method SendMessage(chatId: ChatId, senderId: UserId, text: string, imageUrl: Option<string>, now: int)
      requires Valid()
      modifies this
      ensures Valid()
      ensures users == old(users) && order == old(order)
      ensures messages == old(messages)[chatId := old(MessagesOf(chatId)) + [Sent(senderId, text, imageUrl, now)]]
      ensures chatId in old(chats) ==>
                chats == old(chats)[chatId := Posted(old(chats)[chatId], senderId, text, imageUrl, now)]
      ensures chatId !in old(chats) ==> chats == old(chats)
      ensures forall u :: FriendsUpdate(u) == old(FriendsUpdate(u))
    {
      messages := messages[chatId := MessagesOf(chatId) + [Sent(senderId, text, imageUrl, now)]];
      if chatId in chats {
        chats := chats[chatId := Posted(chats[chatId], senderId, text, imageUrl, now)];
      }
    }

    /** `markMessagesAsRead`: if the unread query returns anything, commit
        one batch that appends the reader to every returned message lacking
        it and to the chat's last message when that lacks it. */
    method MarkMessagesAsRead(chatId: ChatId, userId: UserId)
      requires Valid()
      modifies this
      ensures Valid()
      ensures users == old(users) && order == old(order)
      ensures !QueryHits(old(MessagesOf(chatId)), userId) ==>
                messages == old(messages) && chats == old(chats)
      ensures QueryHits(old(MessagesOf(chatId)), userId) ==>
                messages == old(messages)[chatId := MarkAll(old(MessagesOf(chatId)), userId)]
      ensures QueryHits(old(MessagesOf(chatId)), userId) && chatId in old(chats) ==>
                chats == old(chats)[chatId := MarkLast(old(chats)[chatId], userId)]
      ensures chatId !in old(chats) ==> chats == old(chats)
      ensures forall m :: m in MessagesOf(chatId) ==> userId in m.readBy
      ensures forall u :: FriendsUpdate(u) == old(FriendsUpdate(u))
    {
      var msgs := MessagesOf(chatId);
      if !QueryHits(msgs, userId) {
        MarkingLeavesAllRead(msgs, userId);
        return;
      }
      var batch: seq<Message> := [];
      var i := 0;
      while i < |msgs|
        invariant 0 <= i <= |msgs|
        invariant |batch| == i
        invariant forall k :: 0 <= k < i ==> batch[k] == MarkOne(msgs[k], userId)
      {
        var m := msgs[i];
        if InQuery(m, userId) && userId !in m.readBy {
          batch := batch + [m.(readBy := m.readBy + [userId])];
        } else {
          batch := batch + [m];
        }
        i := i + 1;
      }
      assert batch == MarkAll(msgs, userId);
      MarkingLeavesAllRead(msgs, userId);
      messages := messages[chatId := batch];
      if chatId in chats {
        chats := chats[chatId := MarkLast(chats[chatId], userId)];
      }
    }

    /** One emission of `listenToUserFriends`: the friend list (`friends ||
        []`) of an existing user record; nothing for an empty id or a
        missing record. */
    function FriendsUpdate(userId: UserId): (r: Option<seq<UserId>>)
      reads this
      ensures r.Some? <==> userId != "" && userId in users
      ensures r.Some? && users[userId].friends.None? ==> r.value == []
      ensures r.Some? && users[userId].friends.Some? ==> r.value == users[userId].friends.value
    {
      if userId == "" || userId !in users then None else Some(FriendList(users[userId]))
    }

    /** `getChatPreviews`: the unsorted previews of the user's friends that
        have a profile; empty for a missing user record. */
    function ChatPreviews(userId: UserId, parseIso: string -> int, localeTime: int -> string): (r: seq<Preview>)
      reads this
      ensures userId !in users ==> r == []
      ensures userId in users ==> |r| == |Known(FriendList(users[userId]), users)|
      ensures forall p :: p in r ==>
                userId in users && p.friendId in FriendList(users[userId]) && p.friendId in users &&
                p.sortTimestamp == 0
      ensures userId in users ==>
                var k := Known(FriendList(users[userId]), users);
                forall i :: 0 <= i < |k| ==>
                  k[i] in users &&
                  r[i] == OneShotPreview(userId, k[i], users[k[i]], Snapshot(userId), parseIso, localeTime)
    {
      if userId !in users then []
      else
        var friends := FriendList(users[userId]);
        var r := OneShotPass(userId, friends, users, Snapshot(userId), parseIso, localeTime);
        assert forall p :: p in r ==> exists i :: 0 <= i < |r| && r[i] == p;
        r
    }

    /** What `listenToChatPreviews` hands its callback: an empty friend list
        yields [] at once; otherwise one pass over the current chats. */
    function LivePreviews(friends: seq<UserId>, userId: UserId,
                          parseIso: string -> int, hourMinute: int -> string): (r: seq<Preview>)
      reads this
      ensures friends == [] ==> r == []
      ensures FeedOrdered(r)
      ensures |r| == |Known(friends, users)|
      ensures multiset(r) == multiset(Gather(friends, users, LiveMaker(userId, Snapshot(userId), parseIso, hourMinute)))
      ensures forall p :: p in r ==>
                p.friendId in friends && p.friendId in users &&
                p == LivePreview(userId, p.friendId, users[p.friendId], Snapshot(userId), parseIso, hourMinute)
    {
      if friends == [] then [] else LivePass(userId, friends, users, Snapshot(userId), parseIso, hourMinute)
    }
  }
}
