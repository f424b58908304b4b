/** The chat-preview read model: one record per friend whose profile
    exists, joined with the viewer's chats, and (in the live variant)
    sorted so that recently messaged friends come first and never-messaged
    friends last. */
module Previews {
  import opened Types
  import opened Threads
  import opened Messages

  /** One row of the chat list. */
  datatype Preview = Preview(
    friendId: UserId,
    chatId: Option<ChatId>,
    profileImage: string,
    name: string,
    lastMessage: string,
    time: string,
    isOnline: bool,
    lastSeen: string,
    sortTimestamp: int,
    isUnread: bool)

  /** Text shown for a friend with nothing to show. */
  const Greeting := "Say hi!"

  /** The name shown: `name || username`. */
  function DisplayName(u: User): string {
    if u.name != "" then u.name else u.username
  }

  /** The text shown for a last message: `text || "Say hi!"`. */
  function ShownText(text: string): string {
    if text != "" then text else Greeting
  }

  /** Epoch millis of a last message's `createdAt`, from the first shape
      test that applies: toDate(), then an ISO string, then a truthy
      `seconds`; None when no test applies. */
  function StampMillis(s: Stamp, parseIso: string -> int): (ms: Option<int>)
    ensures ms.None? <==> s.Unset? || s == EpochSeconds(0)
    ensures s.StoreTime? ==> ms == Some(s.millis)
    ensures s.IsoText? ==> ms == Some(parseIso(s.text))
    ensures s.EpochSeconds? && ms.Some? ==> ms.value == s.seconds * 1000
  {
    match s
    case StoreTime(millis) => Some(millis)
    case IsoText(text) => Some(parseIso(text))
    case EpochSeconds(seconds) => if seconds != 0 then Some(seconds * 1000) else None
    case Unset => None
  }

  /** True when the friend's chat among `rows` exists and has a last message. */
  predicate HasLastMessage(rows: seq<ChatRow>, friendId: UserId) {
    FirstPair(rows, friendId).Some? && FirstPair(rows, friendId).value.chat.lastMessage.Some?
  }

  /** The defaults of a friend with no chat, or whose chat has no message yet. */
  predicate ShowsDefaults(p: Preview) {
    p.chatId.None? && p.lastMessage == Greeting && p.time == "" && p.sortTimestamp == 0 && !p.isUnread
  }

  /** The profile fields a preview copies from the friend's record. */
  predicate ShowsProfile(p: Preview, friendId: UserId, friend: User) {
    p.friendId == friendId && p.profileImage == friend.profileImage && p.name == DisplayName(friend) &&
    p.isOnline == friend.isOnline && p.lastSeen == friend.lastSeen
  }

  /** The record the live pass builds for one friend. */
  function LivePreview(viewer: UserId, friendId: UserId, friend: User, rows: seq<ChatRow>,
                       parseIso: string -> int, hourMinute: int -> string): (p: Preview)
    ensures ShowsProfile(p, friendId, friend)
    ensures p.lastMessage != ""
    ensures !HasLastMessage(rows, friendId) ==> ShowsDefaults(p)
    ensures HasLastMessage(rows, friendId) ==>
              var row := FirstPair(rows, friendId).value;
              var lm := row.chat.lastMessage.value;
              var ms := StampMillis(lm.createdAt, parseIso);
              p.chatId == Some(row.id) && p.isUnread == IsUnread(lm, viewer) &&
              (lm.text != "" ==> p.lastMessage == lm.text) &&
              (lm.text == "" ==> p.lastMessage == Greeting) &&
              p.sortTimestamp == ms.GetOr(0) &&
              (ms.Some? ==> p.time == hourMinute(ms.value)) &&
              (ms.None? ==> p.time == "")
  {
    var base := Preview(friendId, None, friend.profileImage, DisplayName(friend), Greeting, "",
                        friend.isOnline, friend.lastSeen, 0, false);
    match FirstPair(rows, friendId)
    case None => base
    case Some(row) =>
      match row.chat.lastMessage
      case None => base
      case Some(lm) =>
        var ms := StampMillis(lm.createdAt, parseIso);
        base.(chatId := Some(row.id),
              lastMessage := ShownText(lm.text),
              time := if ms.Some? then hourMinute(ms.value) else "",
              sortTimestamp := ms.GetOr(0),
              isUnread := IsUnread(lm, viewer))
  }

  /** The record the one-shot `getChatPreviews` builds: the same rules, a
      time label only for the toDate() and ISO shapes, and no timestamp
      (its records carry 0). */
  function OneShotPreview(viewer: UserId, friendId: UserId, friend: User, rows: seq<ChatRow>,
                          parseIso: string -> int, localeTime: int -> string): (p: Preview)
    ensures ShowsProfile(p, friendId, friend)
    ensures p.lastMessage != "" && p.sortTimestamp == 0
    ensures !HasLastMessage(rows, friendId) ==> ShowsDefaults(p)
    ensures HasLastMessage(rows, friendId) ==>
              var row := FirstPair(rows, friendId).value;
              var lm := row.chat.lastMessage.value;
              p.chatId == Some(row.id) && p.isUnread == IsUnread(lm, viewer) &&
              (lm.text != "" ==> p.lastMessage == lm.text) &&
              (lm.text == "" ==> p.lastMessage == Greeting) &&
              (lm.createdAt.StoreTime? ==> p.time == localeTime(lm.createdAt.millis)) &&
              (lm.createdAt.IsoText? ==> p.time == localeTime(parseIso(lm.createdAt.text))) &&
              (lm.createdAt.EpochSeconds? || lm.createdAt.Unset? ==> p.time == "")
  {
    var base := Preview(friendId, None, friend.profileImage, DisplayName(friend), Greeting, "",
                        friend.isOnline, friend.lastSeen, 0, false);
    match FirstPair(rows, friendId)
    case None => base
    case Some(row) =>
      match row.chat.lastMessage
      case None => base
      case Some(lm) =>
        var time := match lm.createdAt
                    case StoreTime(millis) => localeTime(millis)
                    case IsoText(text) => localeTime(parseIso(text))
                    case _ => "";
        base.(chatId := Some(row.id),
              lastMessage := ShownText(lm.text),
              time := time,
              isUnread := IsUnread(lm, viewer))
  }

  /** A message whose `seconds` is 0 (or whose time has any other shape)
      sorts as never messaged, yet its chat and unread flag are still set. */
  lemma UnstampedMessageStillLinksChat(viewer: UserId, friendId: UserId, friend: User, rows: seq<ChatRow>,
                                       parseIso: string -> int, hourMinute: int -> string)
    requires HasLastMessage(rows, friendId)
    requires var t := FirstPair(rows, friendId).value.chat.lastMessage.value.createdAt;
             t.Unset? || t == EpochSeconds(0)
    ensures var p := LivePreview(viewer, friendId, friend, rows, parseIso, hourMinute);
            p.sortTimestamp == 0 && p.time == "" && p.chatId.Some?
  {
  }

  // ---- The join: one lookup per friend, then `filter(Boolean)` ----

  /** One profile lookup per friend, in friend-list order; None where the
      profile does not exist. */
  function Lookups(friends: seq<UserId>, users: map<UserId, User>,
                   make: (UserId, User) -> Preview): (r: seq<Option<Preview>>)
  {
    if friends == [] then []
    else
      var head := if friends[0] in users then Some(make(friends[0], users[friends[0]])) else None;
      [head] + Lookups(friends[1..], users, make)
  }

  /** The present entries, in order (`filter(Boolean)`). */
  function Present(s: seq<Option<Preview>>): seq<Preview> {
    if s == [] then []
    else (if s[0].Some? then [s[0].value] else []) + Present(s[1..])
  }

  /** The friends whose profile exists, in friend-list order. */
  function Known(friends: seq<UserId>, users: map<UserId, User>): (k: seq<UserId>)
    ensures |k| <= |friends|
    ensures forall x :: x in k <==> x in friends && x in users
  {
    if friends == [] then []
    else (if friends[0] in users then [friends[0]] else []) + Known(friends[1..], users)
  }

  /** The previews of all friends before sorting. */
  function Gather(friends: seq<UserId>, users: map<UserId, User>, make: (UserId, User) -> Preview): seq<Preview> {
    Present(Lookups(friends, users, make))
  }

  /** The join keeps exactly the friends whose profile exists, in
      friend-list order, each with the record built from its profile. */
  lemma {:induction false} GatherFollowsFriends(friends: seq<UserId>, users: map<UserId, User>,
                                                make: (UserId, User) -> Preview)
    ensures var r := Gather(friends, users, make);
            var k := Known(friends, users);
            |r| == |k| && forall i :: 0 <= i < |k| ==> k[i] in users && r[i] == make(k[i], users[k[i]])
  {
    if friends != [] {
      GatherFollowsFriends(friends[1..], users, make);
      var s := Lookups(friends, users, make);
      assert s[1..] == Lookups(friends[1..], users, make);
    }
  }

  // ---- Sorting ----

  /** The comparator handed to `sort`. */
  function Compare(a: Preview, b: Preview): int {
    if a.sortTimestamp == 0 && b.sortTimestamp == 0 then 0
    else if a.sortTimestamp == 0 then 1
    else if b.sortTimestamp == 0 then -1
    else b.sortTimestamp - a.sortTimestamp
  }

  /** `a` may stand before `b` in the sorted list. */
  predicate Precedes(a: Preview, b: Preview) {
    Compare(a, b) <= 0
  }

  /** Sorted by the comparator. */
  predicate FeedOrdered(s: seq<Preview>) {
    forall i, j :: 0 <= i < j < |s| ==> Precedes(s[i], s[j])
  }

  /** The entries of `s` whose timestamp is `t`, in order. */
  function WithStamp(s: seq<Preview>, t: int): seq<Preview> {
    if s == [] then []
    else (if s[0].sortTimestamp == t then [s[0]] else []) + WithStamp(s[1..], t)
  }

  /** Inserts `x` before the first entry it may precede. */
  function InsertPreview(x: Preview, s: seq<Preview>): (r: seq<Preview>)
    ensures multiset(r) == multiset(s) + multiset{x}
  {
    if s == [] then [x]
    else if Precedes(x, s[0]) then [x] + s
    else
      assert s == [s[0]] + s[1..];
      [s[0]] + InsertPreview(x, s[1..])
  }

  /** The stable sort `Array.prototype.sort` performs with `Compare`. */
  function SortFeed(s: seq<Preview>): (r: seq<Preview>)
    ensures multiset(r) == multiset(s)
  {
    if s == [] then []
    else
      assert s == [s[0]] + s[1..];
      InsertPreview(s[0], SortFeed(s[1..]))
  }

  lemma PrecedesTransitive(a: Preview, b: Preview, c: Preview)
    requires Precedes(a, b) && Precedes(b, c)
    ensures Precedes(a, c)
  {
  }

  lemma PrecedesTotal(a: Preview, b: Preview)
    ensures Precedes(a, b) || Precedes(b, a)
  {
  }

  /** An entry that may precede everything of an ordered list may head it. */
  lemma ConsOrdered(x: Preview, s: seq<Preview>)
    requires FeedOrdered(s)
    requires forall y :: y in s ==> Precedes(x, y)
    ensures FeedOrdered([x] + s)
  {
    var r := [x] + s;
    forall i, j | 0 <= i < j < |r| ensures Precedes(r[i], r[j]) {
      assert r[j] == s[j - 1];
      if i == 0 {
        assert s[j - 1] in s;
      } else {
        assert r[i] == s[i - 1];
      }
    }
  }

  /** Every entry of an insertion result is the inserted one or an old one. */
  lemma InsertedFrom(x: Preview, s: seq<Preview>, y: Preview)
    requires y in InsertPreview(x, s)
    ensures y == x || y in s
  {
    assert y in multiset(InsertPreview(x, s));
  }

  lemma {:induction false} InsertKeepsOrder(x: Preview, s: seq<Preview>)
    requires FeedOrdered(s)
    ensures FeedOrdered(InsertPreview(x, s))
  {
    if s == [] {
    } else if Precedes(x, s[0]) {
      forall y | y in s ensures Precedes(x, y) {
        var j :| 0 <= j < |s| && s[j] == y;
        if j > 0 {
          PrecedesTransitive(x, s[0], y);
        }
      }
      ConsOrdered(x, s);
    } else {
      var rest := s[1..];
      assert FeedOrdered(rest) by {
        forall i, j | 0 <= i < j < |rest| ensures Precedes(rest[i], rest[j]) {
          assert rest[i] == s[i + 1] && rest[j] == s[j + 1];
        }
      }
      InsertKeepsOrder(x, rest);
      var t := InsertPreview(x, rest);
      forall y | y in t ensures Precedes(s[0], y) {
        InsertedFrom(x, rest, y);
        if y != x {
          var j :| 0 <= j < |rest| && rest[j] == y;
          assert s[j + 1] == y;
        } else {
          PrecedesTotal(x, s[0]);
        }
      }
      ConsOrdered(s[0], t);
    }
  }

  /** The sorted list is ordered by the comparator. */
  lemma {:induction false} SortFeedIsOrdered(s: seq<Preview>)
    ensures FeedOrdered(SortFeed(s))
  {
    if s != [] {
      SortFeedIsOrdered(s[1..]);
      InsertKeepsOrder(s[0], SortFeed(s[1..]));
    }
  }

  lemma {:induction false} InsertIsStable(x: Preview, s: seq<Preview>, t: int)
    ensures WithStamp(InsertPreview(x, s), t) ==
            if x.sortTimestamp == t then [x] + WithStamp(s, t) else WithStamp(s, t)
  {
    if s == [] {
      assert WithStamp([x], t) == (if x.sortTimestamp == t then [x] else []) + WithStamp([], t);
    } else if Precedes(x, s[0]) {
      var r := [x] + s;
      assert r[0] == x && r[1..] == s;
    } else {
      InsertIsStable(x, s[1..], t);
      var r := [s[0]] + InsertPreview(x, s[1..]);
      assert r[0] == s[0] && r[1..] == InsertPreview(x, s[1..]);
    }
  }

  /** Sorting keeps the relative order of entries with equal timestamps;
      in particular never-messaged friends stay in friend-list order. */
  lemma {:induction false} SortIsStable(s: seq<Preview>, t: int)
    ensures WithStamp(SortFeed(s), t) == WithStamp(s, t)
  {
    if s != [] {
      SortIsStable(s[1..], t);
      InsertIsStable(s[0], SortFeed(s[1..]), t);
    }
  }

  /** What the order means: every entry with a timestamp precedes every
      entry without one, and timestamps never increase down the list. */
  lemma FeedShape(s: seq<Preview>)
    requires FeedOrdered(s)
    ensures forall i, j :: 0 <= i < j < |s| && s[i].sortTimestamp == 0 ==> s[j].sortTimestamp == 0
    ensures forall i, j :: 0 <= i < j < |s| && s[j].sortTimestamp != 0 ==>
              s[i].sortTimestamp != 0 && s[i].sortTimestamp >= s[j].sortTimestamp
  {
    forall i, j | 0 <= i < j < |s| ensures Precedes(s[i], s[j]) { }
  }

  // ---- The passes ----

  function LiveMaker(viewer: UserId, rows: seq<ChatRow>, parseIso: string -> int, hourMinute: int -> string)
    : (UserId, User) -> Preview
  {
    (f, u) => LivePreview(viewer, f, u, rows, parseIso, hourMinute)
  }

  function OneShotMaker(viewer: UserId, rows: seq<ChatRow>, parseIso: string -> int, localeTime: int -> string)
    : (UserId, User) -> Preview
  {
    (f, u) => OneShotPreview(viewer, f, u, rows, parseIso, localeTime)
  }

  /** One pass of the live subscription's callback: the friends' previews,
      sorted. The result is ordered and is a rearrangement of the previews
      of exactly the friends whose profile exists, each built by
      `LivePreview`. */
  function LivePass(viewer: UserId, friends: seq<UserId>, users: map<UserId, User>, rows: seq<ChatRow>,
                    parseIso: string -> int, hourMinute: int -> string): (r: seq<Preview>)
    ensures FeedOrdered(r)
    ensures multiset(r) == multiset(Gather(friends, users, LiveMaker(viewer, rows, parseIso, hourMinute)))
    ensures |r| == |Known(friends, users)|
    ensures forall p :: p in r ==> p.friendId in friends && p.friendId in users &&
                                   p == LivePreview(viewer, p.friendId, users[p.friendId], rows, parseIso, hourMinute)
  {
    var g := Gather(friends, users, LiveMaker(viewer, rows, parseIso, hourMinute));
    GatherFollowsFriends(friends, users, LiveMaker(viewer, rows, parseIso, hourMinute));
    SortFeedIsOrdered(g);
    var r := SortFeed(g);
    assert |r| == |multiset(r)| == |multiset(g)| == |g|;
    forall p | p in r
      ensures p.friendId in friends && p.friendId in users &&
              p == LivePreview(viewer, p.friendId, users[p.friendId], rows, parseIso, hourMinute)
    {
      assert p in multiset(g);
      var k := Known(friends, users);
      var i :| 0 <= i < |g| && g[i] == p;
      assert k[i] in k;
    }
    r
  }

  /** The one-shot `getChatPreviews` list: the friends whose profile
      exists, in friend-list order, unsorted. */
  function OneShotPass(viewer: UserId, friends: seq<UserId>, users: map<UserId, User>, rows: seq<ChatRow>,
                       parseIso: string -> int, localeTime: int -> string): (r: seq<Preview>)
    ensures var k := Known(friends, users);
            |r| == |k| &&
            forall i :: 0 <= i < |k| ==> k[i] in users &&
                                         r[i] == OneShotPreview(viewer, k[i], users[k[i]], rows, parseIso, localeTime)
  {
    GatherFollowsFriends(friends, users, OneShotMaker(viewer, rows, parseIso, localeTime));
    Gather(friends, users, OneShotMaker(viewer, rows, parseIso, localeTime))
  }
}
