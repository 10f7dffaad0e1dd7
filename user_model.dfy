/**
 * The User schema (`models/User.ts`): the setters and defaults applied when a document is
 * built, the validators checked when it is saved, the `pre('save')` hook that hashes a
 * modified password, `comparePassword`, and the user collection keyed by its unique email.
 *
 * bcrypt is a foreign call.  It is replaced by a concrete stand-in with the one property the
 * storefront relies on: a candidate matches a hash exactly when the hash was made from it.
 */
module UserModel {
  import opened Wrappers
  import opened JsString

  /* ---------- bcrypt stand-in ---------- */

  /** `bcrypt.hash(password, salt)`, with the salt left out. */
  function Hash(password: string): (h: string)
    ensures StartsWith(h, "$2b$")
  {
    "$2b$" + password
  }

  /** `bcrypt.compare(candidate, hash)`. */
  predicate Matches(candidate: string, hash: string) {
    hash == Hash(candidate)
  }

  /** A candidate matches the hash of a password exactly when it is that password. */
  lemma MatchesHash(candidate: string, password: string)
    ensures Matches(candidate, Hash(password)) <==> candidate == password
  {
    if Matches(candidate, Hash(password)) {
      assert candidate == Hash(candidate)[4..] == Hash(password)[4..] == password;
    }
  }

  /** No password matches the hash of its own hash: hashing is never the identity. */
  lemma NoMatchAfterDoubleHash(password: string)
    ensures !Matches(password, Hash(Hash(password)))
  {
    assert |Hash(Hash(password))| != |Hash(password)|;
  }

  /* ---------- email ---------- */

  /** `[^\s@]`. */
  predicate PlainChar(c: char) {
    !IsWhitespace(c) && c != '@'
  }

  /** `[^\s@]+`. */
  predicate PlainRun(s: string) {
    |s| > 0 && forall i :: 0 <= i < |s| ==> PlainChar(s[i])
  }

  /**
   * `/^[^\s@]+@[^\s@]+\.[^\s@]+$/`: the string splits at some '@' and some later '.' into
   * three non-empty runs without whitespace or '@'.
   */
  predicate EmailRegex(s: string) {
    exists at, dot ::
      && 0 <= at < dot < |s| && s[at] == '@' && s[dot] == '.'
      && PlainRun(s[..at]) && PlainRun(s[at + 1..dot]) && PlainRun(s[dot + 1..])
  }

  /**
   * The same language described directly: no whitespace, exactly one '@' with something
   * before it, and a '.' in the domain that is neither its first nor its last character.
   */
  predicate EmailShape(s: string) {
    && (forall i :: 0 <= i < |s| ==> !IsWhitespace(s[i]))
    && '@' in s
    && var at := IndexOf(s, '@');
       var domain := s[at + 1..];
       && at > 0
       && '@' !in domain
       && |domain| >= 3 && '.' in domain[1..|domain| - 1]
  }

  /** The regex accepts exactly the strings of that shape. */
  lemma EmailRegexIff(s: string)
    ensures EmailRegex(s) <==> EmailShape(s)
  {
    if EmailRegex(s) {
      var at, dot :| && 0 <= at < dot < |s| && s[at] == '@' && s[dot] == '.'
                    && PlainRun(s[..at]) && PlainRun(s[at + 1..dot]) && PlainRun(s[dot + 1..]);
      EmailRegexShape(s, at, dot);
    }
    if EmailShape(s) {
      EmailShapeRegex(s);
    }
  }

  /** A non-empty stretch of a string without whitespace, where no '@' occurs, is a `[^\s@]+` run. */
  lemma PlainSlice(s: string, lo: int, hi: int)
    requires 0 <= lo < hi <= |s|
    requires forall i :: 0 <= i < |s| ==> !IsWhitespace(s[i])
    requires forall i :: lo <= i < hi ==> s[i] != '@'
    ensures PlainRun(s[lo..hi])
  {
    assert forall i :: 0 <= i < hi - lo ==> s[lo..hi][i] == s[lo + i];
  }

  /** After the first '@', a string with no further '@' has none at any later index. */
  lemma NoAtAfter(s: string, at: int)
    requires 0 <= at < |s| && '@' !in s[at + 1..]
    ensures forall i :: at < i < |s| ==> s[i] != '@'
  {
    forall i | at < i < |s| ensures s[i] != '@' {
      assert s[i] == s[at + 1..][i - at - 1];
    }
  }

  lemma EmailShapeRegex(s: string)
    requires EmailShape(s)
    ensures EmailRegex(s)
  {
    var at := IndexOf(s, '@');
    var domain := s[at + 1..];
    assert at > 0 && '@' !in domain && |domain| >= 3 && '.' in domain[1..|domain| - 1];
    var inner := domain[1..|domain| - 1];
    var k :| 0 <= k < |inner| && inner[k] == '.';
    var dot := at + 2 + k;
    assert s[dot] == inner[k];
    forall i | 0 <= i < at ensures s[i] != '@' {
      assert s[i] == s[..at][i];
    }
    PlainSlice(s, 0, at);
    assert s[..at] == s[0..at];
    NoAtAfter(s, at);
    PlainSlice(s, at + 1, dot);
    PlainSlice(s, dot + 1, |s|);
    assert s[dot + 1..] == s[dot + 1..|s|];
  }

  lemma EmailRegexShape(s: string, at: int, dot: int)
    requires 0 <= at < dot < |s| && s[at] == '@' && s[dot] == '.'
    requires PlainRun(s[..at]) && PlainRun(s[at + 1..dot]) && PlainRun(s[dot + 1..])
    ensures EmailShape(s)
  {
    assert forall i :: 0 <= i < at ==> s[i] == s[..at][i];
    assert forall i :: at < i < dot ==> s[i] == s[at + 1..dot][i - at - 1];
    assert forall i :: dot < i < |s| ==> s[i] == s[dot + 1..][i - dot - 1];
    assert IndexOf(s, '@') == at;
    var domain := s[at + 1..];
    assert domain[dot - at - 1] == '.';
    assert domain[1..|domain| - 1][dot - at - 2] == '.';
    forall i | 0 <= i < |domain| ensures domain[i] != '@' {
      assert domain[i] == s[at + 1 + i];
    }
  }

  /* ---------- documents ---------- */

  const Providers: set<string> := {"local", "google"}
  const Roles: set<string> := {"user", "admin"}

  /** The sub-fields of `address`, each defaulting to the empty string. */
  const AddressKeys: set<string> := {"line1", "line2", "city", "state", "postalCode", "country", "phone"}

  function DefaultAddress(): (a: map<string, string>)
    ensures a.Keys == AddressKeys && forall k :: k in a ==> a[k] == ""
  {
    map k | k in AddressKeys :: ""
  }

  /** A stored user; `id` is the `_id` the database assigned. */
  datatype UserRecord = UserRecord(
    id: string, name: Option<string>, firstName: Option<string>, lastName: Option<string>,
    email: Option<string>, password: Option<string>, image: string, address: map<string, string>,
    wishlist: seq<string>, emailVerified: bool, provider: string, role: string)

  /** The fields a creator passes to `new User({...})`; absent ones take the defaults. */
  datatype UserInput = UserInput(
    name: Option<string>, email: Option<string>, password: Option<string>, image: Option<string>,
    emailVerified: Option<bool>, provider: Option<string>, role: Option<string>)

  /** The `trim` setter on a string field that may be absent. */
  function TrimOpt(s: Option<string>): Option<string> {
    if s.Some? then Some(Trim(s.value)) else None
  }

  /**
   * `new User(input)`: name trimmed, email lower-cased (it has no trim setter), image '',
   * the seven address fields '', an empty wishlist, emailVerified false, provider 'local'
   * and role 'user' unless given.
   */
  function NewUser(id: string, input: UserInput): (u: UserRecord)
    ensures u.id == id && u.password == input.password && u.firstName.None? && u.lastName.None?
    ensures u.name == if input.name.Some? then Some(Trim(input.name.value)) else None
    ensures input.name.Some? ==> u.name.Some? && Trimmed(u.name.value)
    ensures u.email == if input.email.Some? then Some(Lower(input.email.value)) else None
    ensures u.image == if input.image.Some? then input.image.value else ""
    ensures u.emailVerified == (input.emailVerified.Some? && input.emailVerified.value)
    ensures u.provider == if input.provider.Some? then input.provider.value else "local"
    ensures u.role == if input.role.Some? then input.role.value else "user"
    ensures u.address == DefaultAddress() && u.wishlist == []
  {
    UserRecord(
      id, TrimOpt(input.name), None, None,
      if input.email.Some? then Some(Lower(input.email.value)) else None,
      input.password, input.image.GetOr(""), DefaultAddress(), [],
      input.emailVerified.GetOr(false), input.provider.GetOr("local"), input.role.GetOr("user"))
  }

  /** The name validators: required (so not empty), a `length` of 2 to 50 UTF-16 code units. */
  predicate ValidName(name: Option<string>) {
    name.Some? && 2 <= Length(name.value) <= 50
  }

  /** The email validators: required and matching the pattern. */
  predicate ValidEmail(email: Option<string>) {
    email.Some? && email.value != "" && EmailRegex(email.value)
  }

  /** `minlength: 8` (in UTF-16 code units) on the stored password, which applies whenever one is set. */
  predicate ValidPassword(password: Option<string>) {
    password.None? || Length(password.value) >= 8
  }

  /** `maxlength: 25` (in UTF-16 code units) on firstName and lastName. */
  predicate ValidPart(part: Option<string>) {
    part.None? || Length(part.value) <= 25
  }

  /** Lengths are code units: four emoji (eight units) meet `minlength: 8`, three (six) do not. */
  lemma EmojiPasswordLength()
    ensures ValidPassword(Some("\U{1F512}\U{1F512}\U{1F512}\U{1F512}"))
    ensures !ValidPassword(Some("\U{1F512}\U{1F512}\U{1F512}"))
  {
    var e: string := "\U{1F512}";
    assert Length(e) == 2;
    LengthAppend(e, e);
    LengthAppend(e + e, e);
    LengthAppend(e + e, e + e);
    assert e + e + e == "\U{1F512}\U{1F512}\U{1F512}";
    assert (e + e) + (e + e) == "\U{1F512}\U{1F512}\U{1F512}\U{1F512}";
  }

  /** All validators the save runs. */
  predicate ValidUser(u: UserRecord) {
    && ValidName(u.name) && ValidPart(u.firstName) && ValidPart(u.lastName)
    && ValidEmail(u.email) && ValidPassword(u.password)
    && u.provider in Providers && u.role in Roles
  }

  /** An email the pattern accepts has no whitespace at either end, so the (absent) trim setter would not change it. */
  lemma ValidEmailIsNormal(email: string)
    requires EmailRegex(email)
    ensures Trimmed(email)
  {
    EmailRegexIff(email);
  }

  /** A user created without a role, provider or verification flag is an unverified local user. */
  lemma NewUserDefaults(id: string, input: UserInput)
    requires input.provider.None? && input.role.None? && input.emailVerified.None?
    ensures var u := NewUser(id, input);
      u.provider in Providers && u.role in Roles && u.provider == "local" && u.role == "user" && !u.emailVerified
  {
  }

  /**
   * The password `pre('save')` leaves: hashed when the path was modified and holds a
   * non-empty value, otherwise unchanged.
   */
  function SavedPassword(modified: bool, password: Option<string>): (r: Option<string>)
    ensures r.None? <==> password.None?
    ensures r != password <==> modified && password.Some? && password.value != ""
    ensures r != password ==> r == Some(Hash(password.value))
  {
    if !modified || password.None? || password.value == "" then password
    else
      assert Hash(password.value) != password.value by { assert |Hash(password.value)| != |password.value|; }
      Some(Hash(password.value))
  }

  /** A document being saved: its fields, and whether `password` was modified since loading. */
  class UserDocument {
    var record: UserRecord
    var passwordModified: bool

    /** `new User(input)`: a new document counts every path it was given as modified. */
    constructor (id: string, input: UserInput)
      ensures record == NewUser(id, input)
      ensures passwordModified == input.password.Some?
    {
      record := NewUser(id, input);
      passwordModified := input.password.Some?;
    }

    /** `pre('save')`: rehash the password when it was modified and is non-empty. */
    method PreSave()
      modifies this
      ensures record == old(record).(password := SavedPassword(old(passwordModified), old(record.password)))
      ensures passwordModified == old(passwordModified)
    {
      if !passwordModified || record.password.None? || record.password.value == "" {
        return;
      }
      var hashed := Hash(record.password.value);
      record := record.(password := Some(hashed));
    }

    /** `comparePassword` on this document. */
    function ComparePassword(candidate: string): (ok: bool)
      reads this
      ensures record.password.None? || record.password == Some("") ==> !ok
      ensures record.password.Some? && record.password.value != "" ==> (ok <==> Matches(candidate, record.password.value))
    {
      PasswordMatches(record, candidate)
    }
  }

  /** `comparePassword`: false when no password is stored, else bcrypt's answer. */
  function PasswordMatches(u: UserRecord, candidate: string): (ok: bool)
    ensures u.password.None? || u.password == Some("") ==> !ok
    ensures u.password.Some? && u.password.value != "" ==> (ok <==> Matches(candidate, u.password.value))
  {
    if u.password.None? || u.password.value == "" then false
    else Matches(candidate, u.password.value)
  }

  /** A password set once and saved matches itself afterwards, and only itself. */
  lemma SavedOnceMatches(password: string, candidate: string)
    requires password != ""
    ensures SavedPassword(true, Some(password)).Some?
    ensures Matches(candidate, SavedPassword(true, Some(password)).value) <==> candidate == password
  {
    MatchesHash(candidate, password);
  }

  /** A value that is already a hash is hashed again when it is saved as a modified password. */
  lemma SavedHashNeverMatches(password: string)
    ensures SavedPassword(true, Some(Hash(password))).Some?
    ensures !Matches(password, SavedPassword(true, Some(Hash(password))).value)
  {
    NoMatchAfterDoubleHash(password);
  }

  /** The collection, keyed by the stored (lower-case) email, which the unique index makes a key. */
  class UserStore {
    var users: map<string, UserRecord>

    constructor ()
      ensures users == map[]
    {
      users := map[];
    }

    /** Every record is stored under its own email and passed the validators. */
    predicate Valid()
      reads this
    {
      forall e :: e in users ==> users[e].email == Some(e) && ValidUser(users[e])
    }
  }

  /** `findOne({ email })`: the query value is cast through the schema's lowercase setter. */
  function FindByEmail(users: map<string, UserRecord>, email: string): (r: Option<UserRecord>)
    ensures r.Some? <==> Lower(email) in users
    ensures r.Some? ==> r.value == users[Lower(email)]
  {
    if Lower(email) in users then Some(users[Lower(email)]) else None
  }
}
