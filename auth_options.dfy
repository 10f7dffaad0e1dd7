/**
 * The NextAuth configuration (`lib/authOptions.ts`): the credentials `authorize` decision,
 * the `jwt` and `session` callbacks that carry the user id and role into the token and the
 * session, and the `signIn` callback that creates or links a user on Google sign-in.
 * NextAuth itself, the OAuth exchange and the database adapter are not modelled.
 */
module AuthOptions {
  import opened Wrappers
  import opened JsString
  import opened UserModel

  /* ---------- authorize ---------- */

  const MissingCredentials: string := "Please enter your email and password"
  const InvalidCredentials: string := "Invalid email or password"
  /** What bcryptjs throws when it is handed no hash to compare with. */
  const NoHashToCompare: string := "Illegal arguments: string, undefined"

  /** The refusal for an account of another provider. */
  function ProviderMessage(provider: string): string {
    "Please sign in with " + provider
  }

  /** A credentials field the route treats as given: present and not empty. */
  predicate Present(field: Option<string>) {
    field.Some? && field.value != ""
  }

  /** `role || 'user'`. */
  function RoleOr(role: Option<string>): (r: string)
    ensures r != ""
    ensures role.Some? && role.value != "" ==> r == role.value
  {
    if role.Some? && role.value != "" then role.value else "user"
  }

  /** The user object `authorize` hands to NextAuth. */
  datatype AuthUser = AuthUser(id: string, email: Option<string>, name: Option<string>, role: string)

  /** `authorize` returns a user or throws an error with a message. */
  datatype AuthResult = Denied(message: string) | Authorized(user: AuthUser)

  /** The email `authorize` looks up: `String(email).toLowerCase().trim()`. */
  function CredentialKey(email: string): string {
    Trim(Lower(email))
  }

  /**
   * `authorize(credentials)`: both fields required; the user found by the normalised email;
   * a user of another provider is sent to it before any password check; a wrong password
   * gets the same message as an unknown email; on success id, email, name and role.
   */
  function Authorize(users: map<string, UserRecord>, email: Option<string>, password: Option<string>): (r: AuthResult)
    ensures !Present(email) || !Present(password) ==> r == Denied(MissingCredentials)
    ensures Present(email) && Present(password) && FindByEmail(users, CredentialKey(email.value)).None?
            ==> r == Denied(InvalidCredentials)
    ensures r.Authorized? <==>
            && Present(email) && Present(password)
            && FindByEmail(users, CredentialKey(email.value)).Some?
            && var u := FindByEmail(users, CredentialKey(email.value)).value;
               u.provider == "local" && u.password.Some? && Matches(password.value, u.password.value)
    ensures r.Authorized? ==>
            var u := FindByEmail(users, CredentialKey(email.value)).value;
            r.user == AuthUser(u.id, u.email, u.name, RoleOr(Some(u.role)))
  {
    if !Present(email) || !Present(password) then Denied(MissingCredentials)
    else
      match FindByEmail(users, CredentialKey(email.value))
      case None => Denied(InvalidCredentials)
      case Some(u) =>
        if u.provider != "local" then Denied(ProviderMessage(u.provider))
        else if u.password.None? then Denied(NoHashToCompare)
        else if !Matches(password.value, u.password.value) then Denied(InvalidCredentials)
        else Authorized(AuthUser(u.id, u.email, u.name, RoleOr(Some(u.role))))
  }

  /** An unknown email and a wrong password cannot be told apart by the error. */
  lemma UnknownAndWrongPasswordAlike(users: map<string, UserRecord>, email: string, password: string, other: map<string, UserRecord>)
    requires email != "" && password != ""
    requires FindByEmail(users, CredentialKey(email)).None?
    requires FindByEmail(other, CredentialKey(email)).Some?
    requires var u := FindByEmail(other, CredentialKey(email)).value;
      u.provider == "local" && u.password.Some? && !Matches(password, u.password.value)
    ensures Authorize(users, Some(email), Some(password)) == Authorize(other, Some(email), Some(password))
    ensures Authorize(users, Some(email), Some(password)) == Denied(InvalidCredentials)
  {
  }

  /** A user of another provider is refused by name, whatever password is given. */
  lemma OtherProviderRefused(users: map<string, UserRecord>, email: string, password: string)
    requires email != "" && password != ""
    requires FindByEmail(users, CredentialKey(email)).Some?
    requires FindByEmail(users, CredentialKey(email)).value.provider != "local"
    ensures Authorize(users, Some(email), Some(password))
            == Denied(ProviderMessage(FindByEmail(users, CredentialKey(email)).value.provider))
  {
  }

  /**
   * A stored, valid email typed back exactly as stored reaches its own record: the
   * lower-casing and trimming of `authorize` and of the query leave it alone.
   */
  lemma StoredEmailFindsItself(users: map<string, UserRecord>, email: string)
    requires email in users && EmailRegex(email) && Lower(email) == email
    ensures FindByEmail(users, CredentialKey(email)) == Some(users[email])
  {
    ValidEmailIsNormal(email);
  }

  /* ---------- jwt and session ---------- */

  /** The user NextAuth passes to `jwt` on sign-in. */
  datatype SignInUser = SignInUser(id: string, role: Option<string>)

  /** The provider account NextAuth passes on sign-in. */
  datatype Account = Account(provider: string, accessToken: Option<string>)

  /** The JWT: the fields the callbacks write, and the other claims NextAuth keeps in it. */
  class Token {
    var id: Option<string>
    var role: Option<string>
    var accessToken: Option<string>
    var claims: map<string, string>

    constructor (id: Option<string>, role: Option<string>, accessToken: Option<string>, claims: map<string, string>)
      ensures this.id == id && this.role == role && this.accessToken == accessToken && this.claims == claims
    {
      this.id := id;
      this.role := role;
      this.accessToken := accessToken;
      this.claims := claims;
    }
  }

  /**
   * The `jwt` callback: on the first sign-in (account and user) a new token spreading the old
   * one with id, role (default 'user') and the access token; with only a user, id and role
   * written into the token itself; otherwise the token unchanged.
   */
  method JwtCallback(token: Token, user: Option<SignInUser>, account: Option<Account>) returns (result: Token)
    modifies token
    ensures account.Some? && user.Some? ==>
            && fresh(result)
            && result.id == Some(user.value.id) && result.role == Some(RoleOr(user.value.role))
            && result.accessToken == account.value.accessToken && result.claims == old(token.claims)
            && unchanged(token)
    ensures account.None? && user.Some? ==>
            && result == token
            && token.id == Some(user.value.id) && token.role == Some(RoleOr(user.value.role))
            && token.accessToken == old(token.accessToken) && token.claims == old(token.claims)
    ensures user.None? ==> result == token && unchanged(token)
  {
    if account.Some? && user.Some? {
      result := new Token(Some(user.value.id), Some(RoleOr(user.value.role)), account.value.accessToken, token.claims);
      return;
    }
    if user.Some? {
      token.id := Some(user.value.id);
      token.role := Some(RoleOr(user.value.role));
    }
    result := token;
  }

  /** The session NextAuth builds from the token; `user` may be missing. */
  class Session {
    var hasUser: bool
    var userId: Option<string>
    var userRole: string
    var accessToken: Option<string>

    constructor (hasUser: bool)
      ensures this.hasUser == hasUser && userId.None? && userRole == "" && accessToken.None?
    {
      this.hasUser := hasUser;
      userId := None;
      userRole := "";
      accessToken := None;
    }
  }

  /**
   * The `session` callback: when the session has a user, copy the token's id, its role
   * (default 'user') and its access token; otherwise leave the session alone.
   */
  method SessionCallback(session: Session, token: Token) returns (result: Session)
    modifies session
    ensures result == session
    ensures session.hasUser == old(session.hasUser)
    ensures old(session.hasUser) ==>
            && session.userId == token.id && session.userRole == RoleOr(token.role)
            && session.accessToken == token.accessToken
    ensures !old(session.hasUser) ==> unchanged(session)
  {
    if session.hasUser {
      session.userId := token.id;
      session.userRole := RoleOr(token.role);
      session.accessToken := token.accessToken;
    }
    result := session;
  }

  /**
   * Sign-in through both callbacks, as NextAuth runs them: the session ends up with the
   * signed-in user's id and a role that is never empty, the stored one or 'user'.
   */
  method SignInSession(user: SignInUser, account: Account, session: Session) returns (token: Token)
    requires session.hasUser
    modifies session
    ensures session.userId == Some(user.id)
    ensures session.userRole == RoleOr(user.role) && session.userRole != ""
    ensures user.role.Some? && user.role.value in Roles ==> session.userRole in Roles
    ensures session.accessToken == account.accessToken
  {
    var blank := new Token(None, None, None, map[]);
    token := JwtCallback(blank, Some(user), Some(account));
    var _ := SessionCallback(session, token);
  }

  /* ---------- signIn (Google) ---------- */

  /** The profile Google returns. */
  datatype OAuthUser = OAuthUser(email: Option<string>, name: Option<string>, image: Option<string>)

  /** The user `signIn` creates for an unknown Google email. */
  function GoogleUser(id: string, user: OAuthUser): (u: UserRecord)
    requires user.email.Some?
    ensures u.provider == "google" && u.emailVerified && u.role == "user" && u.password.None?
    ensures u.email == Some(Lower(user.email.value))
  {
    NewUser(id, UserInput(user.name, user.email, None, user.image, Some(true), Some("google"), Some("user")))
  }

  /** An existing user after Google sign-in: switched to Google and verified unless already Google. */
  function Linked(u: UserRecord): (r: UserRecord)
    ensures r.provider == "google"
    ensures u.provider == "google" ==> r == u
    ensures u.provider != "google" ==> r == u.(provider := "google", emailVerified := true)
  {
    if u.provider != "google" then u.(provider := "google", emailVerified := true) else u
  }

  /**
   * The `signIn` callback: other providers pass with no change; Google needs an email, then
   * creates the user or links the existing one to Google; either save is refused when the
   * document fails validation, and an error thrown inside makes the callback return false.
   */
  method SignInCallback(store: UserStore, provider: Option<string>, user: OAuthUser, freshId: string) returns (allowed: bool)
    modifies store
    ensures provider != Some("google") ==> allowed && store.users == old(store.users)
    ensures provider == Some("google") && !Present(user.email) ==> !allowed && store.users == old(store.users)
    ensures provider == Some("google") && Present(user.email) && Lower(user.email.value) !in old(store.users) ==>
            && (allowed <==> ValidUser(GoogleUser(freshId, user)))
            && store.users == if allowed then old(store.users)[Lower(user.email.value) := GoogleUser(freshId, user)]
                              else old(store.users)
    ensures provider == Some("google") && Present(user.email) && Lower(user.email.value) in old(store.users) ==>
            var u := old(store.users)[Lower(user.email.value)];
            && (allowed <==> u.provider == "google" || ValidUser(Linked(u)))
            && store.users == if allowed then old(store.users)[Lower(user.email.value) := Linked(u)] else old(store.users)
    ensures old(store.Valid()) ==> store.Valid()
  {
    if provider != Some("google") {
      return true;
    }
    if !Present(user.email) {
      return false;
    }
    var existing := FindByEmail(store.users, user.email.value);
    if existing.None? {
      allowed := CreateGoogleUser(store, user, freshId);
    } else {
      allowed := LinkToGoogle(store, Lower(user.email.value));
    }
  }

  /** The first Google sign-in of an unknown email: save a new verified Google user. */
  method CreateGoogleUser(store: UserStore, user: OAuthUser, freshId: string) returns (allowed: bool)
    requires Present(user.email) && Lower(user.email.value) !in store.users
    modifies store
    ensures allowed <==> ValidUser(GoogleUser(freshId, user))
    ensures store.users == if allowed then old(store.users)[Lower(user.email.value) := GoogleUser(freshId, user)]
                           else old(store.users)
    ensures old(store.Valid()) ==> store.Valid()
  {
    var doc := new UserDocument(freshId, UserInput(user.name, user.email, None, user.image, Some(true), Some("google"), Some("user")));
    if !ValidUser(doc.record) {
      return false;
    }
    doc.PreSave();
    store.users := store.users[Lower(user.email.value) := doc.record];
    return true;
  }

  /** A known email signing in with Google: a non-Google account is switched to Google and verified. */
  method LinkToGoogle(store: UserStore, key: string) returns (allowed: bool)
    requires key in store.users
    modifies store
    ensures var u := old(store.users)[key];
      && (allowed <==> u.provider == "google" || ValidUser(Linked(u)))
      && store.users == if allowed then old(store.users)[key := Linked(u)] else old(store.users)
    ensures old(store.Valid()) ==> store.Valid()
  {
    var u := store.users[key];
    if u.provider != "google" {
      var linked := u.(provider := "google", emailVerified := true);
      if !ValidUser(linked) {
        return false;
      }
      store.users := store.users[key := linked];
    } else {
      assert store.users[key := Linked(u)] == store.users;
    }
    return true;
  }

  /** A valid store stays valid through Google sign-in. */
  lemma LinkedStaysValid(u: UserRecord)
    requires ValidUser(u)
    ensures ValidUser(Linked(u)) && Linked(u).email == u.email
  {
  }

  /** Once linked to Google, an account can no longer sign in with its password. */
  lemma LinkingEndsPasswordSignIn(users: map<string, UserRecord>, email: string, password: string)
    requires email in users && EmailRegex(email) && Lower(email) == email && password != ""
    ensures Authorize(users[email := Linked(users[email])], Some(email), Some(password))
            == Denied(ProviderMessage("google"))
  {
    var linked := users[email := Linked(users[email])];
    StoredEmailFindsItself(linked, email);
    assert FindByEmail(linked, CredentialKey(email)).value.provider == "google";
    OtherProviderRefused(linked, email, password);
  }
}
