/**
 * Credential sign-in and the session callbacks. The user collection is a map from email to
 * the stored account, `bcrypt.compare` is the parameter `compare`, and the JWT and session
 * objects that the callbacks update in place are classes.
 */
module Auth {
  import opened Wrappers
  import opened JsString

  /** A MongoDB object id; `toString()` gives its hexadecimal text. */
  datatype ObjectId = ObjectId(hex: string)

  /** The form fields `authorize` receives; either may be absent. */
  datatype Credentials = Credentials(email: Option<string>, password: Option<string>)

  /** A stored account: its id and its bcrypt digest (never the plaintext). */
  datatype StoredUser = StoredUser(id: ObjectId, passwordHash: string)

  /** Accounts keyed by their exact email (`User.findOne({ email })`). */
  type UserStore = map<string, StoredUser>

  /** What a successful sign-in yields: the id as text and the email, nothing else. */
  datatype Identity = Identity(id: string, email: string)

  datatype AuthError = MissingCredentials | NoAccount | WrongPassword {
    /** The text of the error `authorize` throws: never empty, so never read as a success. */
    function Message(): (r: string)
      ensures !IsFalsy(Some(r))
    {
      match this
      case MissingCredentials => "Please enter email and password"
      case NoAccount => "No account found with this email. Please sign up first."
      case WrongPassword => "Invalid password. Please try again."
    }
  }

  /** The three failures of `authorize` throw three different texts. */
  lemma MessagesDistinct(a: AuthError, b: AuthError)
    ensures a.Message() == b.Message() <==> a == b
  {
  }

  predicate MissingInput(credentials: Option<Credentials>) {
    credentials.None? || IsFalsy(credentials.value.email) || IsFalsy(credentials.value.password)
  }

  /**
   * `authorize(credentials)`: missing input, then an unknown email, then a wrong password,
   * each rejected with its own error; otherwise the account's id and email. A successful
   * result always names an account that is in the store.
   */
  function Authorize(credentials: Option<Credentials>, users: UserStore,
                     compare: (string, string) -> bool): (r: Result<Identity, AuthError>)
    ensures r.Ok? ==> r.value.email in users && r.value.id == users[r.value.email].id.hex
    ensures r.Ok? ==> !MissingInput(credentials) && r.value.email == credentials.value.email.value
  {
    if MissingInput(credentials) then Err(MissingCredentials)
    else
      var email := credentials.value.email.value;
      var password := credentials.value.password.value;
      if email !in users then Err(NoAccount)
      else
        var user := users[email];
        if !compare(password, user.passwordHash) then Err(WrongPassword)
        else Ok(Identity(user.id.hex, email))
  }

  /** Missing input is rejected before the store or the hash comparison is consulted. */
  lemma MissingInputRejectedFirst(credentials: Option<Credentials>, users: UserStore,
                                  compare: (string, string) -> bool)
    requires MissingInput(credentials)
    ensures Authorize(credentials, users, compare) == Err(MissingCredentials)
    ensures forall other: UserStore :: Authorize(credentials, other, compare) == Err(MissingCredentials)
  {
  }

  /** An email with no exactly matching account gets the no-account error. */
  lemma UnknownEmailRejected(email: string, password: string, users: UserStore,
                             compare: (string, string) -> bool)
    requires email != "" && password != "" && email !in users
    ensures Authorize(Some(Credentials(Some(email), Some(password))), users, compare) == Err(NoAccount)
  {
  }

  /** A known email with a password that does not match is a wrong-password error, never a no-account one. */
  lemma WrongPasswordRejected(email: string, password: string, users: UserStore,
                              compare: (string, string) -> bool)
    requires email != "" && password != "" && email in users
    requires !compare(password, users[email].passwordHash)
    ensures Authorize(Some(Credentials(Some(email), Some(password))), users, compare) == Err(WrongPassword)
  {
  }

  /** Sign-in succeeds exactly for a known email whose digest matches, and returns `{id, email}`. */
  lemma AuthorizeSucceedsIff(email: string, password: string, users: UserStore,
                             compare: (string, string) -> bool)
    requires email != "" && password != ""
    ensures var r := Authorize(Some(Credentials(Some(email), Some(password))), users, compare);
      (r.Ok? <==> email in users && compare(password, users[email].passwordHash))
      && (r.Ok? ==> r.value == Identity(users[email].id.hex, email))
  {
  }

  /** Session lifetime in seconds: thirty days. */
  const SessionMaxAge: nat := 30 * 24 * 60 * 60

  lemma SessionMaxAgeIsThirtyDays()
    ensures SessionMaxAge == 2592000
  {
  }

  /** The claims of a decoded session token as the rest of the application sees them. */
  datatype Claims = Claims(id: Option<string>, email: Option<string>)

  /** The JWT object the `jwt` callback receives and updates in place. */
  class JwtToken {
    var id: Option<string>
    var email: Option<string>

    constructor (email: Option<string>)
      ensures this.email == email && id == None
    {
      this.email := email;
      id := None;
    }

    function AsClaims(): Claims
      reads this
    {
      Claims(id, email)
    }
  }

  /**
   * What the `jwt` callback does to the claims: with a signed-in user it records the
   * user's id, otherwise it leaves the token as it was.
   */
  function JwtUpdate(c: Claims, user: Option<Identity>): (r: Claims)
    ensures r.email == c.email
    ensures user.Some? ==> r.id == Some(user.value.id)
    ensures user.None? ==> r == c
  {
    match user
    case Some(u) => c.(id := Some(u.id))
    case None => c
  }

  /** `jwt({ token, user })`: sets `token.id` when `user` is present and returns the token. */
  method JwtCallback(token: JwtToken, user: Option<Identity>) returns (r: JwtToken)
    modifies token
    ensures r == token
    ensures token.AsClaims() == JwtUpdate(old(token.AsClaims()), user)
  {
    if user.Some? {
      token.id := Some(user.value.id);
    }
    r := token;
  }

  /** The claims after the `jwt` callback has run once for each entry of `users`, in order. */
  function JwtHistory(c: Claims, users: seq<Option<Identity>>): Claims {
    if users == [] then c else JwtUpdate(JwtHistory(c, users[..|users| - 1]), users[|users| - 1])
  }

  /** The most recent sign-in among the callback invocations, if any. */
  function LastSignIn(users: seq<Option<Identity>>): Option<Identity> {
    if users == [] then None
    else if users[|users| - 1].Some? then users[|users| - 1]
    else LastSignIn(users[..|users| - 1])
  }

  /**
   * Over any run of `jwt` callbacks the token carries the id of the latest sign-in (refreshes
   * without a user do not touch it), is unchanged when nobody signed in, and keeps its email.
   */
  lemma {:induction false} LatestSignInWins(c: Claims, users: seq<Option<Identity>>)
    ensures JwtHistory(c, users).email == c.email
    ensures LastSignIn(users).Some? ==> JwtHistory(c, users).id == Some(LastSignIn(users).value.id)
    ensures LastSignIn(users).None? ==> JwtHistory(c, users) == c
  {
    if users != [] {
      LatestSignInWins(c, users[..|users| - 1]);
    }
  }

  class SessionUser {
    var id: Option<string>
    var email: Option<string>

    constructor (email: Option<string>)
      ensures this.email == email && id == None
    {
      this.email := email;
      id := None;
    }
  }

  class Session {
    var user: SessionUser

    constructor (user: SessionUser)
      ensures this.user == user
    {
      this.user := user;
    }
  }

  /** `session({ session, token })`: copies `token.id` into `session.user.id` when there is a token. */
  method SessionCallback(session: Session, token: JwtToken?) returns (r: Session)
    modifies session.user
    ensures r == session && session.user == old(session.user)
    ensures token != null ==> session.user.id == token.id
    ensures token == null ==> session.user.id == old(session.user.id)
    ensures session.user.email == old(session.user.email)
  {
    if token != null {
      session.user.id := token.id;
    }
    r := session;
  }
}
