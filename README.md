# Chat bookkeeping of a React Native chat app, modelled in Dafny

The app keeps its state in a document store. It has three collections:
`users/{id}`, `chats/{id}` and `chats/{id}/messages/{id}`. The app's
context object (`context/authContext.js`) does the chat bookkeeping on top
of that store:

- it finds or creates the two-party chat of a pair of users (`startChat`);
- it appends messages and keeps the chat's `lastMessage` summary and
  message count up to date (`sendMessage`);
- it marks a chat's messages read for one user (`markMessagesAsRead`);
- it builds the chat list, one preview per friend, joined with the viewer's
  chats and sorted by last-message time (`listenToChatPreviews`, and the
  older one-shot `getChatPreviews`);
- it maps identity-provider error codes to user-facing messages and writes
  the initial user record (`register`, `login`).

The model keeps the store in memory. `ChatStore.Store` is a class whose
fields are the users map, the chats map, the chats' scan order and the
messages of each chat. Every store call of the app becomes a read or a
write of these fields. The state-changing operations are methods whose
loops mirror the app's `forEach` scans. The preview builder, the sort
comparator and the error mapping are pure functions with lemmas.

Modules:

- `Types`: the records.
- `Auth`: error messages and the initial user record.
- `Threads`: query rows and the two chat resolvers.
- `Messages`: sending and read marking, applied to values.
- `Previews`: the preview join and the sort.
- `ChatStore`: the store class.

Parameters stand for what the app gets from outside:

- Server timestamps are a clock reading `now`.
- Generated chat ids are `newId`, together with the position `at` that the
  id takes in the store's scan order.
- ISO date parsing is the function parameter `parseIso`.
- Time formatting is two function parameters, because the two preview
  builders format differently: `hourMinute` stands for the live builder's
  hour-and-minute `toLocaleTimeString` call, and `localeTime` for the
  one-shot builder's call with the default locale format.
- Identity-provider answers are the `SignUp` and `SignIn` values.

Details of the code that the model keeps:

- A thread matches when its participant list has length 2 and contains
  both ids. The check is not a set equality. So `startChat(u, u)` matches
  any two-party chat of `u`.
- `startChat` keeps the last matching chat of its scan. The preview builder
  keeps the first chat that has length 2 and contains the friend.
  `Threads.ResolversAgree` proves that the two choices agree whenever the
  pair has at most one thread.
- The one-shot `getChatPreviews` has no seconds-only timestamp branch, no
  `sortTimestamp` and no sorting.
- A preview is dropped when the friend's profile record does not exist.
  This is the only failure the lookup models.
- `register` stores the name typed at sign-up in `name` and leaves
  `username` empty.

## Model

| member | source | states |
|---|---|---|
| `Auth.RegisterMessage` | context/authContext.js:41-49 | each of the 3 known codes gets its fixed message; any other code gets the error's own text, or "Registration failed" when that is empty |
| `Auth.LoginMessage` | context/authContext.js:67-85 | each of the 8 known codes gets its fixed message; any other code gets the error's own text, or "Login failed" when that is empty |
| `Auth.MessagesNeverBlank` | context/authContext.js:41-85 | a failed registration or login always has a non-empty message, and a known code's message does not depend on the provider's text |
| `Auth.InvalidEmailAgrees` | context/authContext.js:44-45 | a malformed e-mail gets the same message from registration and login |
| `Auth.InitialUser` | context/authContext.js:19-37 | the new user record keeps uid, email and phone; it has no friends, invites or blocks, `name` is the typed name, `username`, `bio`, `city` and `state` are empty, the profile image is the default avatar URL, `createdAt` and `lastSeen` are the two clock readings, and it is not online |
| `ChatStore.Store.Register` | context/authContext.js:15-51 | a rejected sign-up returns `success: false` with the mapped message and writes nothing; a created account gets exactly its initial record written, and its friend stream then emits []; every other user's friend stream is unchanged |
| `ChatStore.Store.Login` | context/authContext.js:54-87 | a rejected sign-in returns `success: false` with the mapped message; a signed-in user gets only `lastSeen` refreshed, so no friend stream changes; a missing user record fails with the store's not-found error, mapped the same way |
| `Threads.Rows` | context/authContext.js:110-112 | the query rows are exactly the listed chats whose participants contain the user, in scan order |
| `ChatStore.Store.Snapshot` | context/authContext.js:294-298 | every row of the viewer's chats query contains the viewer and carries the stored chat, and every stored chat that contains the viewer is a row |
| `Threads.LastThreadSpec` | context/authContext.js:113-123 | the scan finds a chat if and only if some row has two participants including both ids, and it returns the last such row |
| `Threads.FirstPairSpec` | context/authContext.js:305-307 | the preview lookup finds a chat if and only if some row has two participants including the friend, and it returns the first such row |
| `Threads.ResolversAgree` | context/authContext.js:114-123 | over the viewer's chats, `startChat`'s scan and the preview lookup both find a thread or both find none, and they pick the same chat when the pair has at most one |
| `Threads.FreshThreadIsFound` | context/authContext.js:127-139 | a chat created where the scan found none is found by the next scan, wherever its generated id lands in the scan order |
| `ChatStore.FindThread` | context/authContext.js:113-123 | the scan over the viewer's chats ends with the last row that is a thread of the pair, or with none when no row is |
| `ChatStore.NewChat` | context/authContext.js:127-137 | the created chat has participants `[userId, friendId]`, no last message, count 0 and both typing flags false |
| `ChatStore.InsertKeepsScanOrder` | context/authContext.js:138 | adding a chat under a fresh id keeps the scan order a listing of every chat exactly once |
| `ChatStore.Store.StartChat` | context/authContext.js:108-144 | when a thread exists, returns the last one found and changes nothing; otherwise adds exactly the new chat under the fresh id; either way the next scan returns the same id, and no friend stream changes |
| `Messages.Sent` | context/authContext.js:151-158 | the added message carries sender, text and image, and `readBy = [senderId]` |
| `Messages.Posted` | context/authContext.js:159-169 | the chat's last message gets the same text, sender and image with `readBy = [senderId]` and a server time; the count goes up by exactly 1; participants, typing flags and creation time are kept |
| `Messages.SentIsUnreadForOthers` | context/authContext.js:156-166 | a freshly sent message is unread for exactly the users other than its sender |
| `ChatStore.Store.SendMessage` | context/authContext.js:147-173 | exactly one message is appended to the chat's messages; the chat's summary is rewritten only when the chat exists; users, other chats, the scan order and every friend stream are unchanged |
| `Messages.MarkOne` | context/authContext.js:185-192 | `readBy` only grows, by at most the reader; a message already read by the reader is untouched; one lacking the reader gets `old + [reader]`; afterwards the reader is always listed |
| `Messages.MarkAll` | context/authContext.js:185-192 | the batch keeps every message in place and applies the per-message rule to each |
| `Messages.MarkLast` | context/authContext.js:194-203 | only the last message's `readBy` may change; a chat without a last message, or whose last message already lists the reader, is untouched; otherwise the reader is appended to the old list (an absent list counts as empty); afterwards the last message is not unread for the reader |
| `Messages.MarkingLeavesAllRead` | context/authContext.js:178-192 | whether or not the unread query returns anything, every message of the chat afterwards lists the reader, and each `readBy` is an extension of the old one |
| `ChatStore.Store.MarkMessagesAsRead` | context/authContext.js:175-209 | an empty query result changes nothing; otherwise the batch applies to every message and, when the chat exists, to its last message; afterwards every message of the chat lists the reader; no friend stream changes |
| `ChatStore.Store.FriendsUpdate` | context/authContext.js:278-286 | emits the stored friend list when the record has one, and [] when the field is absent; emits nothing for an empty id or a missing record |
| `Previews.StampMillis` | context/authContext.js:317-329 | the toDate shape gives its millis, an ISO string its parsed time, a nonzero `seconds` gives `seconds * 1000`; no timestamp exactly for the unset shape and for `seconds == 0` |
| `Previews.LivePreview` | context/authContext.js:300-346 | defaults ("Say hi!", no chat id, time "", timestamp 0, not unread) when there is no chat or no last message; otherwise the chat id, the text or "Say hi!" for empty text, the normalised timestamp with its hour-and-minute label (no label when there is none), and unread if and only if someone else sent it and the viewer is not in `readBy`; the name falls back to `username` |
| `Previews.OneShotPreview` | context/authContext.js:231-268 | the same defaults, text rule and unread rule as the live preview, timestamp 0; a label from the toDate millis or the parsed ISO string, and none for the seconds-only or unknown shape |
| `Previews.UnstampedMessageStillLinksChat` | context/authContext.js:325-332 | a last message with `seconds == 0` or an unknown time shape sorts as never messaged, yet its chat id is still set |
| `Previews.Known` | context/authContext.js:301-302 | the kept friends are exactly the listed friends whose profile exists |
| `Previews.GatherFollowsFriends` | context/authContext.js:300-348 | the join keeps exactly the friends whose profile exists, in friend-list order, each with the record built from its profile |
| `Previews.InsertPreview` | context/authContext.js:349-354 | inserting into the sorted list adds exactly the one entry |
| `Previews.SortFeed` | context/authContext.js:349-354 | sorting is a permutation of its input |
| `Previews.SortFeedIsOrdered` | context/authContext.js:349-354 | the sorted list is ordered by the comparator |
| `Previews.SortIsStable` | context/authContext.js:349-354 | entries with equal timestamps keep their relative order; in particular never-messaged friends stay in friend-list order |
| `Previews.FeedShape` | context/authContext.js:349-354 | in an ordered list every nonzero timestamp precedes every zero one, and nonzero timestamps never increase |
| `Previews.LivePass` | context/authContext.js:297-356 | one pass emits an ordered rearrangement of the previews of exactly the friends whose profile exists |
| `Previews.OneShotPass` | context/authContext.js:231-271 | the one-shot list holds the previews of exactly the friends whose profile exists, in friend-list order, unsorted |
| `ChatStore.Store.ChatPreviews` | context/authContext.js:219-276 | a missing user record yields []; otherwise entry i is the one-shot preview of the i-th friend whose profile exists, in friend-list order, all with timestamp 0 |
| `ChatStore.Store.LivePreviews` | context/authContext.js:288-360 | an empty friend list yields [] at once; otherwise the list is ordered by the comparator, is a rearrangement of the previews of exactly the friends whose profile exists (one per such friend-list entry), and each entry is its friend's live preview |

## Left out

- Store SDK and subscriptions: the provider calls, `onSnapshot` listeners and their unsubscribe handles, `onAuthStateChanged`, and the React `isAuthenticated` state. One preview pass is a function over the current store contents, not a live stream.
- `Promise.all` over the friends' profile lookups runs as a sequential map, in friend-list order.
- Time: `serverTimestamp()` is the clock parameter `now`. ISO parsing and `toLocaleTimeString` are uninterpreted parameters. `parseIso` always returns an integer, so an unparsable date, which the app turns into NaN, is not modelled, and neither is how a NaN compares in the sort.
- Query order: the store returns query rows in document-id order, and generated ids are random. The model stands for this with the insertion position of each new chat.
- Transport errors: every catch block that only logs or returns a failure for a network or permission error. This includes `startChat`'s `success: false` path and a `sendMessage` or batch that fails halfway.
- Races from non-atomic writes: two concurrent `startChat` calls may both create a chat, and `sendMessage` makes two separate writes.
- An empty chat id, which makes the store's `doc()` throw before anything is written.
- Result wrappers: `startChat`'s `{ success, chatId }` is its chat id, `register`'s result omits the provider's user object, and the one-shot preview's `{ uri }` image wrapper is a plain string.
- `login` when the provider reports success but has no current user; the app then skips the `lastSeen` update.
- `logout`, `updateProfileImage`, `fetchUserProfile` and `updateUserProfile`: navigation, blob upload and profile reads or writes of arbitrary payloads for the signed-in user.
- `listenForMessages`: a subscription that returns the messages ordered by creation time.
- `deleteUserProfile`: it calls `deleteDoc`, which is never imported, so it always fails into its catch block without deleting anything.
- Friend invites, accepting, blocking and removing friends, and the relationship status shown on a profile. These are implemented in the profile screens `app/(others)/NotFriendProfile.jsx` and `app/(others)/FriendProfile.jsx`, which are not part of this model. The context only creates the lists empty and reads `friends`.
- The sign-in and sign-up screens, the splash screen and the layout components: rendering, navigation and empty-field checks.
