/** Resolving the two-party chat thread of a pair of users over the rows of
    the query "chats whose participants contain a user". `startChat` keeps
    the LAST matching row of its scan, the preview builder the FIRST. */
module Threads {
  import opened Types

  /** The rows of the query `participants array-contains userId` over the
      chats listed in `ids`, in scan order. */
  function Rows(ids: seq<ChatId>, chats: map<ChatId, Chat>, userId: UserId): (rows: seq<ChatRow>)
    ensures |rows| <= |ids|
    ensures forall r :: r in rows ==>
              r.id in ids && r.id in chats && chats[r.id] == r.chat && userId in r.chat.participants
    ensures forall id :: id in ids && id in chats && userId in chats[id].participants ==>
              ChatRow(id, chats[id]) in rows
  {
    if ids == [] then []
    else
      var rest := Rows(ids[1..], chats, userId);
      if ids[0] in chats && userId in chats[ids[0]].participants
      then [ChatRow(ids[0], chats[ids[0]])] + rest
      else rest
  }

  /** The test `startChat` applies to each row: exactly two participants,
      both users among them. */
  predicate IsThread(row: ChatRow, userId: UserId, friendId: UserId) {
    |row.chat.participants| == 2 && userId in row.chat.participants && friendId in row.chat.participants
  }

  /** The test the preview builder applies to each row of the viewer's
      chats: exactly two participants, the friend among them. */
  predicate IsPairWith(row: ChatRow, friendId: UserId) {
    |row.chat.participants| == 2 && friendId in row.chat.participants
  }

  /** The chat `startChat` settles on: its scan overwrites the candidate on
      every match, so the last matching row wins. */
  function LastThread(rows: seq<ChatRow>, userId: UserId, friendId: UserId): Option<ChatId> {
    if rows == [] then None
    else if IsThread(rows[|rows| - 1], userId, friendId) then Some(rows[|rows| - 1].id)
    else LastThread(rows[..|rows| - 1], userId, friendId)
  }

  /** `startChat` finds a chat exactly when some row is a thread of the
      pair, and then the one no later row overrides. */
  lemma {:induction false} LastThreadSpec(rows: seq<ChatRow>, userId: UserId, friendId: UserId)
    ensures var r := LastThread(rows, userId, friendId);
            (r.None? <==> forall i :: 0 <= i < |rows| ==> !IsThread(rows[i], userId, friendId)) &&
            (r.Some? ==> exists i :: 0 <= i < |rows| && IsThread(rows[i], userId, friendId) &&
                                     rows[i].id == r.value &&
                                     forall j :: i < j < |rows| ==> !IsThread(rows[j], userId, friendId))
  {
    if rows != [] {
      var n := |rows| - 1;
      LastThreadSpec(rows[..n], userId, friendId);
      if !IsThread(rows[n], userId, friendId) {
        assert forall i :: 0 <= i < n ==> rows[..n][i] == rows[i];
      }
    }
  }

  /** The chat the preview builder pairs with a friend: the first match. */
  function FirstPair(rows: seq<ChatRow>, friendId: UserId): Option<ChatRow> {
    if rows == [] then None
    else if IsPairWith(rows[0], friendId) then Some(rows[0])
    else FirstPair(rows[1..], friendId)
  }

  /** The preview builder finds a chat exactly when some row pairs with the
      friend, and then the one no earlier row pairs with. */
  lemma {:induction false} FirstPairSpec(rows: seq<ChatRow>, friendId: UserId)
    ensures var r := FirstPair(rows, friendId);
            (r.None? <==> forall i :: 0 <= i < |rows| ==> !IsPairWith(rows[i], friendId)) &&
            (r.Some? ==> exists i :: 0 <= i < |rows| && rows[i] == r.value &&
                                     IsPairWith(rows[i], friendId) &&
                                     forall j :: 0 <= j < i ==> !IsPairWith(rows[j], friendId))
  {
    if rows != [] {
      FirstPairSpec(rows[1..], friendId);
      if !IsPairWith(rows[0], friendId) {
        assert forall i :: 1 <= i < |rows| ==> rows[1..][i - 1] == rows[i];
        if FirstPair(rows, friendId).Some? {
          var k :| 0 <= k < |rows[1..]| && rows[1..][k] == FirstPair(rows, friendId).value &&
                   IsPairWith(rows[1..][k], friendId) &&
                   forall j :: 0 <= j < k ==> !IsPairWith(rows[1..][j], friendId);
          assert rows[k + 1] == rows[1..][k];
        }
      }
    }
  }

  /** The rows of a concatenation are the rows of its parts. */
  lemma {:induction false} RowsAppend(a: seq<ChatId>, b: seq<ChatId>, chats: map<ChatId, Chat>, userId: UserId)
    ensures Rows(a + b, chats, userId) == Rows(a, chats, userId) + Rows(b, chats, userId)
  {
    if a != [] {
      assert (a + b)[0] == a[0] && (a + b)[1..] == a[1..] + b;
      RowsAppend(a[1..], b, chats, userId);
    } else {
      assert a + b == b;
    }
  }

  /** Writing a chat the scan does not list leaves the query rows alone. */
  lemma {:induction false} RowsIgnoreUnlisted(ids: seq<ChatId>, chats: map<ChatId, Chat>, id: ChatId, c: Chat, userId: UserId)
    requires id !in ids
    ensures Rows(ids, chats[id := c], userId) == Rows(ids, chats, userId)
  {
    if ids != [] {
      RowsIgnoreUnlisted(ids[1..], chats, id, c, userId);
    }
  }

  /** The last match of a concatenation is the last match of its tail part
      when there is one, and of its head part otherwise. */
  lemma {:induction false} LastThreadAppend(a: seq<ChatRow>, b: seq<ChatRow>, userId: UserId, friendId: UserId)
    ensures LastThread(a + b, userId, friendId) ==
            if LastThread(b, userId, friendId).Some? then LastThread(b, userId, friendId)
            else LastThread(a, userId, friendId)
  {
    if b != [] {
      var n := |b| - 1;
      assert (a + b)[..|a + b| - 1] == a + b[..n];
      assert (a + b)[|a + b| - 1] == b[n];
      LastThreadAppend(a, b[..n], userId, friendId);
    } else {
      assert a + b == a;
    }
  }

  /** A thread created where the scan found none is found by the next scan,
      wherever its generated id lands in the scan order; so a second
      `startChat` of the same pair returns the same chat. */
  lemma FreshThreadIsFound(ids: seq<ChatId>, chats: map<ChatId, Chat>, userId: UserId, friendId: UserId,
                           newId: ChatId, at: nat, c: Chat)
    requires LastThread(Rows(ids, chats, userId), userId, friendId).None?
    requires newId !in ids && at <= |ids|
    requires |c.participants| == 2 && userId in c.participants && friendId in c.participants
    ensures LastThread(Rows(ids[..at] + [newId] + ids[at..], chats[newId := c], userId), userId, friendId)
            == Some(newId)
  {
    var chats' := chats[newId := c];
    var pre, post := ids[..at], ids[at..];
    assert ids == pre + post;
    assert newId !in pre && newId !in post;
    RowsAppend(pre + [newId], post, chats', userId);
    RowsAppend(pre, [newId], chats', userId);
    RowsIgnoreUnlisted(pre, chats, newId, c, userId);
    RowsIgnoreUnlisted(post, chats, newId, c, userId);
    RowsAppend(pre, post, chats, userId);
    var row := ChatRow(newId, c);
    assert Rows([newId], chats', userId) == [row];
    var rp, rq := Rows(pre, chats, userId), Rows(post, chats, userId);
    LastThreadAppend(rp, rq, userId, friendId);
    LastThreadAppend(rp + [row], rq, userId, friendId);
    LastThreadAppend(rp, [row], userId, friendId);
    assert LastThread([row], userId, friendId) == Some(newId);
  }

  /** Over the viewer's own chats the two resolvers test the same thing:
      they both find a thread or both find none, and they pick the same one
      when the pair has at most one. */
  lemma ResolversAgree(rows: seq<ChatRow>, userId: UserId, friendId: UserId)
    requires forall r :: r in rows ==> userId in r.chat.participants
    ensures FirstPair(rows, friendId).Some? <==> LastThread(rows, userId, friendId).Some?
    ensures (forall i, j :: 0 <= i < j < |rows| ==>
               !(IsThread(rows[i], userId, friendId) && IsThread(rows[j], userId, friendId))) &&
            FirstPair(rows, friendId).Some? ==>
              LastThread(rows, userId, friendId) == Some(FirstPair(rows, friendId).value.id)
  {
    forall i | 0 <= i < |rows|
      ensures IsPairWith(rows[i], friendId) <==> IsThread(rows[i], userId, friendId)
    {
      assert rows[i] in rows;
    }
    FirstPairSpec(rows, friendId);
    LastThreadSpec(rows, userId, friendId);
    var first, last := FirstPair(rows, friendId), LastThread(rows, userId, friendId);
    if first.Some? && last.Some? {
      var i0 :| 0 <= i0 < |rows| && rows[i0] == first.value && IsPairWith(rows[i0], friendId);
      var i1 :| 0 <= i1 < |rows| && IsThread(rows[i1], userId, friendId) && rows[i1].id == last.value;
      if forall i, j :: 0 <= i < j < |rows| ==>
           !(IsThread(rows[i], userId, friendId) && IsThread(rows[j], userId, friendId)) {
        assert !(i0 < i1) && !(i1 < i0);
      }
    }
  }
}
