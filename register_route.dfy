/**
 * POST /api/auth/register: the guard cascade (fields present, password length, email not
 * yet used) and the insertion of a local, verified user.
 *
 * The route hashes the password itself and then saves it through the User schema, whose
 * `pre('save')` hook hashes any modified password again, so the stored hash is a hash of a
 * hash.  `Register` models the route as written; `RegisterHashOnce` hashes once, and the
 * lemmas below show that only the second lets the new user sign in.
 */
module RegisterRoute {
  import opened Wrappers
  import opened JsString
  import opened UserModel
  import opened AuthOptions

  datatype RegisterBody = RegisterBody(name: Option<string>, email: Option<string>, password: Option<string>)

  /** The guards before the lookup: all three fields given, and a password of 8 or more. */
  predicate WellFormed(body: RegisterBody) {
    Present(body.name) && Present(body.email) && Present(body.password) && Length(body.password.value) >= 8
  }

  /** The fields of `new User({...})`, with whatever the route puts in `password`. */
  function RegisterInput(body: RegisterBody, password: string): UserInput {
    UserInput(body.name, body.email, Some(password), None, Some(true), Some("local"), Some("user"))
  }

  /** The record the route as written stores: its own hash, hashed again by the hook. */
  function StoredAsWritten(id: string, body: RegisterBody): (u: UserRecord)
    requires Present(body.password)
    ensures u.password == Some(Hash(Hash(body.password.value)))
    ensures u == NewUser(id, RegisterInput(body, Hash(body.password.value))).(password := u.password)
  {
    var doc := NewUser(id, RegisterInput(body, Hash(body.password.value)));
    doc.(password := SavedPassword(true, doc.password))
  }

  /** The record stored when the hook is left to do the only hashing. */
  function StoredHashOnce(id: string, body: RegisterBody): (u: UserRecord)
    requires Present(body.password)
    ensures u.password == Some(Hash(body.password.value))
    ensures u == NewUser(id, RegisterInput(body, body.password.value)).(password := u.password)
  {
    var doc := NewUser(id, RegisterInput(body, body.password.value));
    doc.(password := SavedPassword(true, doc.password))
  }

  /**
   * The route as written: 400 for a missing field, 400 for a short password, 409 when the
   * (lower-cased) email is taken, 500 when a schema validator rejects the document, and
   * otherwise exactly one new user under its email and 201.
   */
  method Register(store: UserStore, body: RegisterBody, freshId: string) returns (code: int)
    modifies store
    ensures !Present(body.name) || !Present(body.email) || !Present(body.password) ==> code == 400
    ensures Present(body.name) && Present(body.email) && Present(body.password) && Length(body.password.value) < 8 ==> code == 400
    ensures WellFormed(body) && Lower(body.email.value) in old(store.users) ==> code == 409
    ensures code == 201 <==>
            && WellFormed(body) && Lower(body.email.value) !in old(store.users)
            && ValidUser(NewUser(freshId, RegisterInput(body, Hash(body.password.value))))
    ensures code == 201 ==> store.users == old(store.users)[Lower(body.email.value) := StoredAsWritten(freshId, body)]
    ensures code != 201 ==> store.users == old(store.users)
    ensures code in {201, 400, 409, 500}
    ensures old(store.Valid()) ==> store.Valid()
  {
    if !Present(body.name) || !Present(body.email) || !Present(body.password) {
      return 400;
    }
    var password := body.password.value;
    if Length(password) < 8 {
      return 400;
    }
    if FindByEmail(store.users, body.email.value).Some? {
      return 409;
    }
    var hashed := Hash(password);
    var doc := new UserDocument(freshId, RegisterInput(body, hashed));
    if !ValidUser(doc.record) {
      return 500;
    }
    doc.PreSave();
    assert doc.record == StoredAsWritten(freshId, body);
    if store.Valid() {
      RegisterKeepsStoreValid(store.users, body, freshId);
    }
    store.users := store.users[Lower(body.email.value) := doc.record];
    return 201;
  }

  /** The same route with the password handed to the schema unhashed. */
  method RegisterHashOnce(store: UserStore, body: RegisterBody, freshId: string) returns (code: int)
    modifies store
    ensures !Present(body.name) || !Present(body.email) || !Present(body.password) ==> code == 400
    ensures Present(body.name) && Present(body.email) && Present(body.password) && Length(body.password.value) < 8 ==> code == 400
    ensures WellFormed(body) && Lower(body.email.value) in old(store.users) ==> code == 409
    ensures code == 201 <==>
            && WellFormed(body) && Lower(body.email.value) !in old(store.users)
            && ValidUser(NewUser(freshId, RegisterInput(body, body.password.value)))
    ensures code == 201 ==> store.users == old(store.users)[Lower(body.email.value) := StoredHashOnce(freshId, body)]
    ensures code != 201 ==> store.users == old(store.users)
    ensures code in {201, 400, 409, 500}
  {
    if !Present(body.name) || !Present(body.email) || !Present(body.password) {
      return 400;
    }
    if Length(body.password.value) < 8 {
      return 400;
    }
    if FindByEmail(store.users, body.email.value).Some? {
      return 409;
    }
    var doc := new UserDocument(freshId, RegisterInput(body, body.password.value));
    if !ValidUser(doc.record) {
      return 500;
    }
    doc.PreSave();
    store.users := store.users[Lower(body.email.value) := doc.record];
    return 201;
  }

  /** Registration keeps the store's invariant: every user under its own email, and valid. */
  lemma RegisterKeepsStoreValid(users: map<string, UserRecord>, body: RegisterBody, id: string)
    requires forall e :: e in users ==> users[e].email == Some(e) && ValidUser(users[e])
    requires WellFormed(body) && ValidUser(NewUser(id, RegisterInput(body, Hash(body.password.value))))
    ensures var after := users[Lower(body.email.value) := StoredAsWritten(id, body)];
      forall e :: e in after ==> after[e].email == Some(e) && ValidUser(after[e])
  {
    StoredAsWrittenValid(id, body);
  }

  /** The stored record passes the validators and sits under its own email. */
  lemma StoredAsWrittenValid(id: string, body: RegisterBody)
    requires WellFormed(body) && ValidUser(NewUser(id, RegisterInput(body, Hash(body.password.value))))
    ensures StoredAsWritten(id, body).email == Some(Lower(body.email.value))
    ensures ValidUser(StoredAsWritten(id, body))
  {
    var h := Hash(Hash(body.password.value));
    assert Length(h) >= |h| >= 8;
  }

  /**
   * The email a user registered with, typed again at sign-in, reaches the new record.
   * (A registration only succeeds with an email the pattern accepts, so it has no spaces.)
   */
  lemma RegisteredEmailFound(users: map<string, UserRecord>, body: RegisterBody, stored: UserRecord)
    requires Present(body.email)
    requires EmailRegex(Lower(body.email.value))
    ensures FindByEmail(users[Lower(body.email.value) := stored], CredentialKey(body.email.value)) == Some(stored)
  {
    var key := Lower(body.email.value);
    LowerIdempotent(body.email.value);
    StoredEmailFindsItself(users[key := stored], key);
    assert CredentialKey(key) == Trim(key);
    assert CredentialKey(body.email.value) == CredentialKey(key);
  }

  /** As written, a user who has just registered can never sign in with the password they chose. */
  lemma RegisteredUserCannotSignIn(users: map<string, UserRecord>, body: RegisterBody, id: string)
    requires WellFormed(body)
    requires ValidUser(NewUser(id, RegisterInput(body, Hash(body.password.value))))
    ensures Authorize(users[Lower(body.email.value) := StoredAsWritten(id, body)], body.email, body.password)
            == Denied(InvalidCredentials)
  {
    RegisteredEmailFound(users, body, StoredAsWritten(id, body));
    NoMatchAfterDoubleHash(body.password.value);
  }

  /** Hashing once, the new user signs in with that password as a local user with role 'user'. */
  lemma RegisteredUserSignsIn(users: map<string, UserRecord>, body: RegisterBody, id: string)
    requires WellFormed(body)
    requires ValidUser(NewUser(id, RegisterInput(body, body.password.value)))
    ensures var u := StoredHashOnce(id, body);
      Authorize(users[Lower(body.email.value) := u], body.email, body.password)
      == Authorized(AuthUser(id, Some(Lower(body.email.value)), u.name, "user"))
  {
    RegisteredEmailFound(users, body, StoredHashOnce(id, body));
    MatchesHash(body.password.value, body.password.value);
  }
}
