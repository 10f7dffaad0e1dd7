/**
 * `/api/users/me`: GET derives first and last names from the stored user; PATCH merges the
 * body into the stored user, optionally changes the password, optionally replaces the
 * wishlist, and saves with the schema validators.  The lookup by session id is a parameter
 * (the record `findById` returned, if any).
 */
module UsersMeRoute {
  import opened Wrappers
  import opened JsString
  import opened Shop
  import opened UserModel

  /* ---------- GET ---------- */

  /** `a || b` on two strings that may be absent: the first one that is non-empty, else the second. */
  function Or(a: Option<string>, b: Option<string>): (r: Option<string>)
    ensures a.Some? && a.value != "" ==> r == a
    ensures (a.None? || a.value == "") ==> r == b
  {
    if a.Some? && a.value != "" then a else b
  }

  /** `user.firstName || user.name?.split(' ')[0] || ''`. */
  function FirstNameShown(u: UserRecord): string {
    if u.firstName.Some? && u.firstName.value != "" then u.firstName.value
    else if u.name.None? then ""
    else Split(u.name.value, ' ')[0]
  }

  /** `user.lastName || user.name?.split(' ').slice(1).join(' ') || ''`. */
  function LastNameShown(u: UserRecord): string {
    if u.lastName.Some? && u.lastName.value != "" then u.lastName.value
    else if u.name.None? then ""
    else Join(Split(u.name.value, ' ')[1..], ' ')
  }

  /** The profile GET returns (the password is never selected). */
  datatype Profile = Profile(
    id: string, firstName: string, lastName: string, email: Option<string>, name: Option<string>,
    image: string, address: map<string, string>, wishlist: seq<string>)

  datatype GetReply = GetRefused(code: int) | GetOk(profile: Profile)

  /** GET: 401 without a session user id, 404 when no user has that id, else the profile. */
  function GetProfile(session: Option<SessionUser>, found: Option<UserRecord>): (r: GetReply)
    ensures SignedInId(session).None? ==> r == GetRefused(401)
    ensures SignedInId(session).Some? && found.None? ==> r == GetRefused(404)
    ensures r.GetOk? <==> SignedInId(session).Some? && found.Some?
    ensures r.GetOk? ==>
            && r.profile.firstName == FirstNameShown(found.value) && r.profile.lastName == LastNameShown(found.value)
            && r.profile.email == found.value.email && r.profile.name == found.value.name
            && r.profile.id == found.value.id && r.profile.image == found.value.image
            && r.profile.address == found.value.address && r.profile.wishlist == found.value.wishlist
  {
    if SignedInId(session).None? then GetRefused(401)
    else if found.None? then GetRefused(404)
    else
      var u := found.value;
      GetOk(Profile(u.id, FirstNameShown(u), LastNameShown(u), u.email, u.name, u.image, u.address, u.wishlist))
  }

  /** With no stored first or last name, a name containing a space splits and rejoins to itself. */
  lemma {:induction false} NameSplitRoundTrip(u: UserRecord)
    requires u.firstName.None? || u.firstName == Some("")
    requires u.lastName.None? || u.lastName == Some("")
    requires u.name.Some? && ' ' in u.name.value
    ensures FirstNameShown(u) + " " + LastNameShown(u) == u.name.value
  {
    var parts := Split(u.name.value, ' ');
    JoinSplit(u.name.value, ' ');
    assert Join(parts, ' ') == parts[0] + [' '] + Join(parts[1..], ' ');
  }

  /** A name without a space is all first name. */
  lemma NameWithoutSpace(u: UserRecord)
    requires u.firstName.None? || u.firstName == Some("")
    requires u.lastName.None? || u.lastName == Some("")
    requires u.name.Some? && ' ' !in u.name.value
    ensures FirstNameShown(u) == u.name.value && LastNameShown(u) == ""
  {
  }

  /* ---------- PATCH ---------- */

  /** The body's `wishlist`: absent, something other than an array, or an array of ids. */
  datatype WishlistField = NoWishlist | NotAList | List(ids: seq<string>)

  datatype PatchBody = PatchBody(
    firstName: Option<string>, lastName: Option<string>, email: Option<string>, image: Option<string>,
    address: Option<map<string, string>>, wishlist: WishlistField,
    currentPassword: Option<string>, newPassword: Option<string>)

  /** How a template literal prints a string that may be undefined. */
  function Show(s: Option<string>): string {
    if s.Some? then s.value else "undefined"
  }

  /** `` `${firstName || user.firstName} ${lastName || user.lastName}`.trim() ``. */
  function PatchedName(body: PatchBody, u: UserRecord): (name: string)
    ensures Trimmed(name)
  {
    Trim(Show(Or(body.firstName, u.firstName)) + " " + Show(Or(body.lastName, u.lastName)))
  }

  /** Both password fields given: a password change is asked for. */
  predicate ChangeRequested(body: PatchBody) {
    body.currentPassword.Some? && body.currentPassword.value != ""
    && body.newPassword.Some? && body.newPassword.value != ""
  }

  /** The `trim` setter applied to an update value. */
  function TrimmedOpt(s: Option<string>): Option<string> {
    if s.Some? then Some(Trim(s.value)) else None
  }

  /**
   * The `updateData` object literal laid over the stored user: names and email fall back to
   * the stored ones when the body's are empty or absent, the name is rebuilt from those,
   * image falls back only when absent, and address keys of the body override the stored ones.
   */
  function FieldsUpdate(u: UserRecord, body: PatchBody): (m: UserRecord)
    ensures (body.firstName.None? || body.firstName == Some("")) ==> m.firstName == TrimmedOpt(u.firstName)
    ensures body.firstName.Some? && body.firstName.value != "" ==> m.firstName == Some(Trim(body.firstName.value))
    ensures (body.lastName.None? || body.lastName == Some("")) ==> m.lastName == TrimmedOpt(u.lastName)
    ensures body.lastName.Some? && body.lastName.value != "" ==> m.lastName == Some(Trim(body.lastName.value))
    ensures (body.email.None? || body.email == Some("")) && u.email.Some? ==> m.email == Some(Lower(u.email.value))
    ensures body.email.Some? && body.email.value != "" ==> m.email == Some(Lower(body.email.value))
    ensures m.name == Some(PatchedName(body, u))
    ensures body.image.Some? ==> m.image == body.image.value
    ensures body.image.None? ==> m.image == u.image
    ensures m.address == MergedAddress(u.address, body.address)
    ensures m.id == u.id && m.provider == u.provider && m.role == u.role && m.emailVerified == u.emailVerified
    ensures m.password == u.password && m.wishlist == u.wishlist
  {
    var email := Or(body.email, u.email);
    u.(firstName := TrimmedOpt(Or(body.firstName, u.firstName)),
       lastName := TrimmedOpt(Or(body.lastName, u.lastName)),
       email := if email.Some? then Some(Lower(email.value)) else None,
       name := Some(PatchedName(body, u)),
       image := if body.image.Some? then body.image.value else u.image,
       address := MergedAddress(u.address, body.address))
  }

  /**
   * The user after a PATCH that passed the password checks: the object literal's fields, the
   * password hashed when a change was asked for, and the wishlist replaced only by an array.
   */
  function Merged(u: UserRecord, body: PatchBody): (m: UserRecord)
    ensures ChangeRequested(body) ==> m.password == Some(Hash(body.newPassword.value))
    ensures !ChangeRequested(body) ==> m.password == u.password
    ensures body.wishlist.List? ==> m.wishlist == body.wishlist.ids
    ensures !body.wishlist.List? ==> m.wishlist == u.wishlist
    ensures m.(password := u.password, wishlist := u.wishlist) == FieldsUpdate(u, body)
  {
    FieldsUpdate(u, body).(
      password := if ChangeRequested(body) then Some(Hash(body.newPassword.value)) else u.password,
      wishlist := if body.wishlist.List? then body.wishlist.ids else u.wishlist)
  }

  /** `{ ...user.address, ...address }` when the body has an address, else the stored one. */
  function MergedAddress(stored: map<string, string>, given: Option<map<string, string>>): (m: map<string, string>)
    ensures given.None? ==> m == stored
    ensures given.Some? ==> m.Keys == stored.Keys + given.value.Keys
    ensures given.Some? ==> forall k :: k in given.value ==> m[k] == given.value[k]
    ensures given.Some? ==> forall k :: k in stored && k !in given.value ==> m[k] == stored[k]
  {
    if given.Some? then stored + given.value else stored
  }

  /** `runValidators` checks the paths the update sets. */
  predicate ValidUpdate(m: UserRecord) {
    ValidName(m.name) && ValidPart(m.firstName) && ValidPart(m.lastName)
    && ValidEmail(m.email) && ValidPassword(m.password)
  }

  /**
   * PATCH: 401 without a session user id, 404 for an unknown user; when both password fields
   * are given, 400 for a wrong current password and then 400 for a new one under 6
   * characters; 500 when a validator rejects the update; otherwise the merged user and 200.
   */
  method Patch(session: Option<SessionUser>, found: Option<UserRecord>, body: PatchBody)
    returns (code: int, updated: Option<UserRecord>)
    ensures SignedInId(session).None? ==> code == 401
    ensures SignedInId(session).Some? && found.None? ==> code == 404
    ensures (SignedInId(session).Some? && found.Some? && ChangeRequested(body)
             && !PasswordMatches(found.value, body.currentPassword.value)) ==> code == 400
    ensures (SignedInId(session).Some? && found.Some? && ChangeRequested(body)
             && PasswordMatches(found.value, body.currentPassword.value) && Length(body.newPassword.value) < 6) ==> code == 400
    ensures code == 200 <==>
            && SignedInId(session).Some? && found.Some?
            && (ChangeRequested(body) ==>
                  PasswordMatches(found.value, body.currentPassword.value) && Length(body.newPassword.value) >= 6)
            && ValidUpdate(Merged(found.value, body))
    ensures code == 200 ==> updated == Some(Merged(found.value, body))
    ensures code != 200 ==> updated.None?
    ensures code in {200, 400, 401, 404, 500}
  {
    if SignedInId(session).None? {
      return 401, None;
    }
    if found.None? {
      return 404, None;
    }
    var u := found.value;
    var update := FieldsUpdate(u, body);
    if ChangeRequested(body) {
      if !PasswordMatches(u, body.currentPassword.value) {
        return 400, None;
      }
      if Length(body.newPassword.value) < 6 {
        return 400, None;
      }
      update := update.(password := Some(Hash(body.newPassword.value)));
    }
    if body.wishlist.List? {
      update := update.(wishlist := body.wishlist.ids);
    }
    assert update == Merged(u, body);
    if !ValidUpdate(update) {
      return 500, None;
    }
    return 200, Some(update);
  }

  /** After a password change the new password matches the stored hash, and the old one no longer does. */
  lemma ChangedPasswordMatches(u: UserRecord, body: PatchBody)
    requires ChangeRequested(body)
    ensures PasswordMatches(Merged(u, body), body.newPassword.value)
    ensures body.currentPassword.value != body.newPassword.value
            ==> !PasswordMatches(Merged(u, body), body.currentPassword.value)
  {
    MatchesHash(body.newPassword.value, body.newPassword.value);
    MatchesHash(body.currentPassword.value, body.newPassword.value);
  }

  /** The body `useWishlist` sends on every change: only the wishlist. */
  function WishlistSync(ids: seq<string>): PatchBody {
    PatchBody(None, None, None, None, None, List(ids), None, None)
  }

  /**
   * As written, syncing the wishlist of a user who never set a first or last name (every
   * registered or Google user) renames them "undefined undefined", and the update is saved.
   */
  lemma WishlistSyncRenamesUser(u: UserRecord, ids: seq<string>)
    requires u.firstName.None? && u.lastName.None?
    ensures Merged(u, WishlistSync(ids)).name == Some("undefined undefined")
    ensures ValidName(Merged(u, WishlistSync(ids)).name)
  {
    var body := WishlistSync(ids);
    MergedName(u, body);
    UndefinedName(body, u);
    UndefinedIsValid();
  }
  lemma UndefinedIsValid()
    ensures ValidName(Some("undefined undefined"))
  {
    LengthOfBmp("undefined undefined");
  }

  /** The merged user's name is the rebuilt name. */
  lemma MergedName(u: UserRecord, body: PatchBody)
    ensures Merged(u, body).name == Some(PatchedName(body, u))
  {
    assert Merged(u, body).name == FieldsUpdate(u, body).name;
  }

  /** With no name part in the body or the stored user, the template yields "undefined undefined". */
  lemma UndefinedName(body: PatchBody, u: UserRecord)
    requires body.firstName.None? && body.lastName.None?
    requires u.firstName.None? && u.lastName.None?
    ensures PatchedName(body, u) == "undefined undefined"
  {
    var s := "undefined undefined";
    assert Show(Or(body.firstName, u.firstName)) + " " + Show(Or(body.lastName, u.lastName)) == s;
    assert Trimmed(s);
  }

  /**
   * The name rebuilt from the names the profile shows: a body name part when given, else the
   * stored part, else the part GET derives from the current name.
   */
  function CorrectedName(body: PatchBody, u: UserRecord): (name: string)
    ensures Trimmed(name)
  {
    var first := Or(body.firstName, Some(FirstNameShown(u))).value;
    var last := Or(body.lastName, Some(LastNameShown(u))).value;
    Trim(first + " " + last)
  }

  /** Rebuilt that way, a PATCH without name fields leaves a stored (trimmed) name as it was. */
  lemma CorrectedPatchKeepsName(u: UserRecord, body: PatchBody)
    requires u.firstName.None? && u.lastName.None?
    requires u.name.Some? && Trimmed(u.name.value)
    requires body.firstName.None? && body.lastName.None?
    ensures CorrectedName(body, u) == u.name.value
  {
    var n := u.name.value;
    if ' ' in n {
      NameSplitRoundTrip(u);
    } else {
      NameWithoutSpace(u);
      assert FirstNameShown(u) + " " + LastNameShown(u) == n + " ";
      TrimTrailingSpace(n);
    }
  }

  /** Both ways agree whenever the stored first and last names are set and not empty. */
  lemma CorrectedAgreesWithStoredParts(u: UserRecord, body: PatchBody)
    requires u.firstName.Some? && u.firstName.value != "" && u.lastName.Some? && u.lastName.value != ""
    ensures CorrectedName(body, u) == PatchedName(body, u)
  {
  }
}
