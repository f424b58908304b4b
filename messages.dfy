/** What sending a message and marking a chat read do to one chat and to its
    messages, as values; the store applies them. */
module Messages {
  import opened Types

  /** Padding entry of the second list in the unread query. */
  const Dummy := "dummy"

  /** A last message is unread for the viewer when someone else sent it and
      the viewer is not in its `readBy` (an absent list counts as empty). */
  predicate IsUnread(m: LastMessage, viewer: UserId) {
    m.senderId != viewer && viewer !in m.readBy.GetOr([])
  }

  /** The message document `sendMessage` adds; `now` is the server time. */
  function Sent(senderId: UserId, text: string, imageUrl: Option<string>, now: int): (m: Message)
    ensures m.readBy == [senderId] && m.senderId == senderId && m.text == text && m.imageUrl == imageUrl
  {
    Message(senderId, text, imageUrl, now, [senderId])
  }

  /** The chat after `sendMessage`'s update: a new last message, read only
      by its sender, a new update time and one more message counted. */
  function Posted(c: Chat, senderId: UserId, text: string, imageUrl: Option<string>, now: int): (c': Chat)
    ensures c'.messagesCount == c.messagesCount + 1
    ensures c'.participants == c.participants && c'.createdAt == c.createdAt
    ensures c'.typingStatus == c.typingStatus && c'.lastUpdated == now
    ensures c'.lastMessage.Some?
    ensures var lm := c'.lastMessage.value;
            lm.text == text && lm.senderId == senderId && lm.imageUrl == imageUrl &&
            lm.readBy == Some([senderId]) && lm.createdAt == StoreTime(now)
  {
    c.(lastMessage := Some(LastMessage(text, senderId, StoreTime(now), imageUrl, Some([senderId]))),
       lastUpdated := now,
       messagesCount := c.messagesCount + 1)
  }

  /** A freshly sent message is unread for exactly the users other than its
      sender. */
  lemma SentIsUnreadForOthers(c: Chat, senderId: UserId, text: string, imageUrl: Option<string>, now: int,
                              viewer: UserId)
    ensures IsUnread(Posted(c, senderId, text, imageUrl, now).lastMessage.value, viewer) <==> viewer != senderId
  {
  }

  /** The filter of the unread query: `readBy not-in [[userId], [userId, "dummy"]]`. */
  predicate InQuery(m: Message, userId: UserId) {
    m.readBy != [userId] && m.readBy != [userId, Dummy]
  }

  /** True when the unread query returns at least one message. */
  predicate QueryHits(msgs: seq<Message>, userId: UserId) {
    exists k :: 0 <= k < |msgs| && InQuery(msgs[k], userId)
  }

  /** One message after the batch: a queried message lacking the reader
      gets the reader appended to `readBy`; any other is left as it is. */
  function MarkOne(m: Message, userId: UserId): (m': Message)
    ensures |m.readBy| <= |m'.readBy| <= |m.readBy| + 1 && m'.readBy[..|m.readBy|] == m.readBy
    ensures m' == m.(readBy := m'.readBy)
    ensures userId in m.readBy ==> m' == m
    ensures userId !in m.readBy ==> m'.readBy == m.readBy + [userId]
    ensures userId in m'.readBy
  {
    assert !InQuery(m, userId) ==> m.readBy[0] == userId;
    if InQuery(m, userId) && userId !in m.readBy then m.(readBy := m.readBy + [userId]) else m
  }

  /** Every message of the chat after the batch, in the same order. */
  function MarkAll(msgs: seq<Message>, userId: UserId): (r: seq<Message>)
    ensures |r| == |msgs|
    ensures forall k :: 0 <= k < |msgs| ==> r[k] == MarkOne(msgs[k], userId)
  {
    seq(|msgs|, k requires 0 <= k < |msgs| => MarkOne(msgs[k], userId))
  }

  /** The chat after the batch: the last message, when there is one and it
      lacks the reader, gets the reader appended to its `readBy`. */
  function MarkLast(c: Chat, userId: UserId): (c': Chat)
    ensures c' == c.(lastMessage := c'.lastMessage)
    ensures c.lastMessage.None? ==> c' == c
    ensures c.lastMessage.Some? ==>
              (c'.lastMessage.Some? &&
               c'.lastMessage.value == c.lastMessage.value.(readBy := c'.lastMessage.value.readBy))
    ensures c.lastMessage.Some? && userId in c.lastMessage.value.readBy.GetOr([]) ==> c' == c
    ensures c.lastMessage.Some? && userId !in c.lastMessage.value.readBy.GetOr([]) ==>
              c'.lastMessage.value.readBy == Some(c.lastMessage.value.readBy.GetOr([]) + [userId])
    ensures c.lastMessage.Some? ==> !IsUnread(c'.lastMessage.value, userId)
  {
    match c.lastMessage
    case None => c
    case Some(lm) =>
      if userId !in lm.readBy.GetOr([])
      then c.(lastMessage := Some(lm.(readBy := Some(lm.readBy.GetOr([]) + [userId]))))
      else c
  }

  /** After `markMessagesAsRead`, whether or not the unread query found
      anything, every message of the chat lists the reader in `readBy`, and
      `readBy` lists only grew. */
  lemma {:induction false} MarkingLeavesAllRead(msgs: seq<Message>, userId: UserId)
    ensures var after := if QueryHits(msgs, userId) then MarkAll(msgs, userId) else msgs;
            |after| == |msgs| &&
            forall k :: 0 <= k < |msgs| ==>
              userId in after[k].readBy && |msgs[k].readBy| <= |after[k].readBy| &&
              after[k].readBy[..|msgs[k].readBy|] == msgs[k].readBy
  {
    if !QueryHits(msgs, userId) {
      forall k | 0 <= k < |msgs|
        ensures userId in msgs[k].readBy
      {
        assert !InQuery(msgs[k], userId);
        assert msgs[k].readBy[0] == userId;
      }
    }
  }
}
