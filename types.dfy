/** The records the chat app keeps in its document store: user profiles,
    chat threads, the messages of a thread, and the rows a chats query
    returns. A field the app reads through a fallback (`x || default`) is
    modelled with its default standing for "absent". */
module Types {

  datatype Option<+T> = None | Some(value: T) {
    /** The wrapped value, or `default` when there is none. */
    function GetOr(default: T): T {
      match this
      case Some(v) => v
      case None => default
    }
  }

  type UserId = string
  type ChatId = string

  /** The shapes the `createdAt` field of a chat's last message takes when
      it is read back. */
  datatype Stamp =
    | StoreTime(millis: int)      // a store timestamp object, which has toDate()
    | IsoText(text: string)       // an ISO-8601 string
    | EpochSeconds(seconds: int)  // a plain object with a `seconds` field only
    | Unset                       // null, missing, a pending server time, any other shape

  /** The summary a chat keeps of its latest message. `readBy` may be absent. */
  datatype LastMessage = LastMessage(
    text: string,
    senderId: UserId,
    createdAt: Stamp,
    imageUrl: Option<string>,
    readBy: Option<seq<UserId>>)

  /** A chat document, `chats/{chatId}`; server times are clock readings. */
  datatype Chat = Chat(
    participants: seq<UserId>,
    createdAt: int,
    lastMessage: Option<LastMessage>,
    lastUpdated: int,
    typingStatus: map<UserId, bool>,
    messagesCount: int)

  /** A message document, `chats/{chatId}/messages/{messageId}`. */
  datatype Message = Message(
    senderId: UserId,
    text: string,
    imageUrl: Option<string>,
    createdAt: int,
    readBy: seq<UserId>)

  /** A user document, `users/{userId}`. `friends` may be absent; an absent
      `isOnline` reads as false and an absent `lastSeen` as "". */
  datatype User = User(
    uid: UserId,
    email: string,
    name: string,
    username: string,
    phone: string,
    bio: string,
    city: string,
    state: string,
    createdAt: string,
    blockedUsers: seq<UserId>,
    invitesSend: seq<UserId>,
    invitesReceived: seq<UserId>,
    friends: Option<seq<UserId>>,
    lastSeen: string,
    profileImage: string,
    isOnline: bool)

  /** One document of a chats query result: its id and its data. */
  datatype ChatRow = ChatRow(id: ChatId, chat: Chat)

  /** The friend list as the app reads it: `friends || []`. */
  function FriendList(u: User): seq<UserId> {
    u.friends.GetOr([])
  }
}
