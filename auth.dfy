/** Account creation and sign-in outcomes: the initial user record written
    on registration and the mapping from identity-provider error codes to
    the messages shown to the user. */
module Auth {
  import opened Types

  /** An identity-provider (or store) error: its code and its own text. */
  datatype AuthError = AuthError(code: string, message: string)

  /** What `register` and `login` hand back to the screens. */
  datatype AuthResult = AuthResult(success: bool, message: string)

  const RegisterFallback := "Registration failed"
  const LoginFallback := "Login failed"
  const InvalidEmailText := "Invalid email format. Please enter a valid email."

  /** The code the document store raises when an updated document is missing. */
  const NotFoundCode := "not-found"

  /** Image every new profile starts with. */
  const DefaultProfileImage := "https://images.rawpixel.com/image_800/czNmcy1wcml2YXRlL3Jhd3BpeGVsX2ltYWdlcy93ZWJzaXRlX2NvbnRlbnQvbHIvdjkzNy1hZXctMTExXzMuanBn.jpg"

  /** The codes `register` recognises, with their fixed messages. */
  const RegisterTexts: map<string, string> := map[
    "auth/email-already-in-use" := "Email already in use. Please use a different email.",
    "auth/invalid-email" := InvalidEmailText,
    "auth/weak-password" := "Password is too weak. Please choose a stronger password."
  ]

  /** The codes `login` recognises, with their fixed messages. */
  const LoginTexts: map<string, string> := map[
    "auth/user-not-found" := "User not found. Please check your email and password.",
    "auth/invalid-email" := InvalidEmailText,
    "auth/wrong-password" := "Incorrect password. Please try again.",
    "auth/user-disabled" := "User account is disabled. Please contact support.",
    "auth/too-many-requests" := "Too many login attempts. Please try again later.",
    "auth/network-request-failed" := "Network error. Please check your internet connection.",
    "auth/operation-not-allowed" := "Email/password sign-in is not enabled. Please contact support.",
    "auth/invalid-credential" := "Invalid credentials. Please check your email and password."
  ]

  /** The message `register` reports for a failed sign-up, decided by the
      same if-chain as the app: the error's own text (or the fallback) is
      overridden for the three known codes. */
  function RegisterMessage(e: AuthError): (m: string)
    ensures e.code in RegisterTexts ==> m == RegisterTexts[e.code]
    ensures e.code !in RegisterTexts && e.message != "" ==> m == e.message
    ensures e.code !in RegisterTexts && e.message == "" ==> m == RegisterFallback
  {
    var m := if e.message != "" then e.message else RegisterFallback;
    if e.code == "auth/email-already-in-use" then "Email already in use. Please use a different email."
    else if e.code == "auth/invalid-email" then InvalidEmailText
    else if e.code == "auth/weak-password" then "Password is too weak. Please choose a stronger password."
    else m
  }

  /** The message `login` reports for a failed sign-in, decided by the same
      if-chain as the app over its eight known codes. */
  function LoginMessage(e: AuthError): (m: string)
    ensures e.code in LoginTexts ==> m == LoginTexts[e.code]
    ensures e.code !in LoginTexts && e.message != "" ==> m == e.message
    ensures e.code !in LoginTexts && e.message == "" ==> m == LoginFallback
  {
    var m := if e.message != "" then e.message else LoginFallback;
    if e.code == "auth/user-not-found" then "User not found. Please check your email and password."
    else if e.code == "auth/invalid-email" then InvalidEmailText
    else if e.code == "auth/wrong-password" then "Incorrect password. Please try again."
    else if e.code == "auth/user-disabled" then "User account is disabled. Please contact support."
    else if e.code == "auth/too-many-requests" then "Too many login attempts. Please try again later."
    else if e.code == "auth/network-request-failed" then "Network error. Please check your internet connection."
    else if e.code == "auth/operation-not-allowed" then "Email/password sign-in is not enabled. Please contact support."
    else if e.code == "auth/invalid-credential" then "Invalid credentials. Please check your email and password."
    else m
  }

  /** A failed registration or login always has something to show, and a
      known code's message does not depend on the provider's own text. */
  lemma MessagesNeverBlank(e: AuthError, e': AuthError)
    ensures RegisterMessage(e) != "" && LoginMessage(e) != ""
    ensures e.code == e'.code && e.code in RegisterTexts ==> RegisterMessage(e) == RegisterMessage(e')
    ensures e.code == e'.code && e.code in LoginTexts ==> LoginMessage(e) == LoginMessage(e')
  {
  }

  /** A malformed e-mail address gets the same message from both forms. */
  lemma InvalidEmailAgrees(e: AuthError)
    requires e.code == "auth/invalid-email"
    ensures RegisterMessage(e) == LoginMessage(e) == InvalidEmailText
  {
  }

  /** True when a profile has no friends, invites or blocks recorded. */
  predicate NoRelations(u: User) {
    FriendList(u) == [] && u.invitesSend == [] && u.invitesReceived == [] && u.blockedUsers == []
  }

  /** The user record `register` writes for a new account. The name typed
      at sign-up goes to `name` while `username` stays empty; the two ISO
      times are two separate clock readings. */
  function InitialUser(uid: UserId, email: string, username: string, phone: string,
                       createdIso: string, seenIso: string): (u: User)
    ensures u.uid == uid && u.email == email && u.phone == phone
    ensures NoRelations(u) && u.friends == Some([])
    ensures u.name == username && u.username == "" && u.bio == ""
    ensures !u.isOnline && u.profileImage == DefaultProfileImage
    ensures u.city == "" && u.state == ""
    ensures u.createdAt == createdIso && u.lastSeen == seenIso
  {
    User(uid, email, username, "", phone, "", "", "", createdIso,
         [], [], [], Some([]), seenIso, DefaultProfileImage, false)
  }
}
