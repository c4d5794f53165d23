/**
 * `PATCH /api/user/profile`: validates a partial profile, checks e-mail uniqueness and
 * updates the signed-in user's row. The user table is a sequence of rows.
 */
module ProfileRoute {
  import opened Wrappers
  import opened Seqs
  import opened Text
  import opened Domain
  import opened ApiCommon

  /** A body field: not sent, sent as `null`, or sent as a string. */
  datatype Field = Absent | Null | Text(s: string)

  /** JavaScript truthiness of a field. */
  predicate FieldTruthy(f: Field) {
    f.Text? && f.s != ""
  }

  datatype ProfileBody = ProfileBody(name: Field, email: Field, image: Field, role: Field)

  /** The selected columns of a user row. */
  datatype ProfileUser = ProfileUser(
    id: string,
    name: Option<string>,
    email: Option<string>,
    image: Option<string>,
    role: Option<string>,
    plan: string,
    createdAt: string)

  /** The reply and the user table after the request. */
  datatype ProfileOutcome = ProfileOutcome(reply: Reply<ProfileUser>, users: seq<ProfileUser>)

  const Roles: seq<string> := ["designer", "developer", "admin"]

  const InvalidEmail: string := "Invalid email format"
  const InvalidRole: string := "Invalid role"
  const EmailInUse: string := "Email already in use"
  const UpdateFailed: string := "Failed to update profile"

  // The e-mail pattern `^[^\s@]+@[^\s@]+\.[^\s@]+$`, stated as a decomposition.

  predicate SegmentChar(c: char) {
    !IsWhitespace(c) && c != '@'
  }

  /** One `[^\s@]+` run. */
  predicate IsSegment(t: string) {
    |t| > 0 && forall k | 0 <= k < |t| :: SegmentChar(t[k])
  }

  /** `s` splits as segment, `@`, segment, `.`, segment. */
  ghost predicate MatchesEmailPattern(s: string) {
    exists i, j | 0 <= i < j < |s| ::
      s[i] == '@' && s[j] == '.' && IsSegment(s[..i]) && IsSegment(s[i + 1..j]) && IsSegment(s[j + 1..])
  }

  /** A slice is a segment exactly when it is non-empty and each of its positions holds a segment character. */
  lemma SegmentSlice(s: string, a: nat, b: nat)
    requires a <= b <= |s|
    ensures IsSegment(s[a..b]) <==> a < b && forall k | a <= k < b :: SegmentChar(s[k])
  {
    if a < b && forall k | a <= k < b :: SegmentChar(s[k]) {
      forall k | 0 <= k < b - a
        ensures SegmentChar(s[a..b][k])
      {
        assert s[a..b][k] == s[a + k];
      }
    }
    if IsSegment(s[a..b]) {
      forall k | a <= k < b
        ensures SegmentChar(s[k])
      {
        assert s[k] == s[a..b][k - a];
      }
    }
  }

  /**
   * The executable test: no whitespace, a first `@` not at the start and no `@` after it,
   * and a `.` strictly inside the rest.
   */
  predicate EmailShaped(s: string) {
    && (forall k | 0 <= k < |s| :: !IsWhitespace(s[k]))
    && '@' in s
    && var i := CharIndex(s, '@');
       && 0 < i
       && (forall k | i < k < |s| :: s[k] != '@')
       && exists j | i + 1 < j < |s| - 1 :: s[j] == '.'
  }

  lemma EmailShapedSound(s: string)
    requires EmailShaped(s)
    ensures MatchesEmailPattern(s)
  {
    var i := CharIndex(s, '@');
    var j :| i + 1 < j < |s| - 1 && s[j] == '.';
    SegmentSlice(s, 0, i);
    SegmentSlice(s, i + 1, j);
    SegmentSlice(s, j + 1, |s|);
    assert s[..i] == s[0..i];
  }

  lemma EmailShapedComplete(s: string)
    requires MatchesEmailPattern(s)
    ensures EmailShaped(s)
  {
    var i, j :| 0 <= i < j < |s| && s[i] == '@' && s[j] == '.'
                && IsSegment(s[..i]) && IsSegment(s[i + 1..j]) && IsSegment(s[j + 1..]);
    assert s[..i] == s[0..i];
    SegmentSlice(s, 0, i);
    SegmentSlice(s, i + 1, j);
    SegmentSlice(s, j + 1, |s|);
    ShapedFromParts(s, i, j);
  }

  /** The decomposition, stated position by position, passes the executable test. */
  lemma ShapedFromParts(s: string, i: nat, j: nat)
    requires 0 < i && i + 1 < j && j + 1 < |s| && s[i] == '@' && s[j] == '.'
    requires forall k | 0 <= k < i :: SegmentChar(s[k])
    requires forall k | i < k < j :: SegmentChar(s[k])
    requires forall k | j < k < |s| :: SegmentChar(s[k])
    ensures EmailShaped(s)
  {
    CharIndexAt(s, '@', i);
    assert forall k | 0 <= k < |s| :: !IsWhitespace(s[k]);
  }

  /** The executable test accepts exactly the strings the pattern matches. */
  lemma EmailShapedIff(s: string)
    ensures EmailShaped(s) <==> MatchesEmailPattern(s)
  {
    if EmailShaped(s) {
      EmailShapedSound(s);
    }
    if MatchesEmailPattern(s) {
      EmailShapedComplete(s);
    }
  }

  /** The value a field writes over the current one: `undefined` keeps it, `null` clears it. */
  function Assign(f: Field, current: Option<string>): Option<string> {
    match f
    case Absent => current
    case Null => None
    case Text(s) => Some(s)
  }

  /** The spread of the four defined fields into the update's `data`. */
  function Merge(u: ProfileUser, b: ProfileBody): ProfileUser {
    u.(name := Assign(b.name, u.name), email := Assign(b.email, u.email),
       image := Assign(b.image, u.image), role := Assign(b.role, u.role))
  }

  /** Some row already carries the e-mail (`findUnique({ where: { email } })`). */
  predicate EmailTaken(users: seq<ProfileUser>, e: string) {
    exists k | 0 <= k < |users| :: users[k].email == Some(e)
  }

  /** Whether a field of the reply row carries the body's field over the old value. */
  predicate Applied(f: Field, before: Option<string>, after: Option<string>) {
    && (f.Absent? ==> after == before)
    && (f.Null? ==> after.None?)
    && (f.Text? ==> after == Some(f.s))
  }

  /** The body passes the e-mail format check. */
  ghost predicate EmailFormatOk(b: ProfileBody) {
    !FieldTruthy(b.email) || MatchesEmailPattern(b.email.s)
  }

  /** The body passes the role check. */
  predicate RoleOk(b: ProfileBody) {
    !FieldTruthy(b.role) || b.role.s in Roles
  }

  /** The body's e-mail is unchanged, not sent, or not yet used by any row. */
  predicate EmailFree(b: ProfileBody, own: string, users: seq<ProfileUser>) {
    !FieldTruthy(b.email) || b.email.s == own || !EmailTaken(users, b.email.s)
  }

  /** The three 400 checks, in the route's order; `None` when the body passes them all. */
  function Validate(b: ProfileBody, own: string, users: seq<ProfileUser>): (e: Option<string>)
    ensures e == Some(InvalidEmail) <==> !EmailFormatOk(b)
    ensures e == Some(InvalidRole) <==> EmailFormatOk(b) && !RoleOk(b)
    ensures e == Some(EmailInUse) <==> EmailFormatOk(b) && RoleOk(b) && !EmailFree(b, own, users)
    ensures e.None? <==> EmailFormatOk(b) && RoleOk(b) && EmailFree(b, own, users)
  {
    EmailShapedIff(if b.email.Text? then b.email.s else "");
    if FieldTruthy(b.email) && !EmailShaped(b.email.s) then Some(InvalidEmail)
    else if !RoleOk(b) then Some(InvalidRole)
    else if FieldTruthy(b.email) && b.email.s != own && EmailTaken(users, b.email.s) then Some(EmailInUse)
    else None
  }

  /** The update of the row whose e-mail is `own`; it fails when there is none. */
  function Update(b: ProfileBody, own: string, users: seq<ProfileUser>): (r: ProfileOutcome)
    ensures r.reply.Fail? ==> r == ProfileOutcome(Fail(500, UpdateFailed), users)
    ensures r.reply.Ok? <==> exists k | 0 <= k < |users| :: users[k].email == Some(own)
    ensures r.reply.Ok? ==>
              exists k | 0 <= k < |users| ::
                && users[k].email == Some(own)
                && r.users == users[k := r.reply.body]
                && r.reply.body.id == users[k].id
                && r.reply.body.plan == users[k].plan
                && r.reply.body.createdAt == users[k].createdAt
                && Applied(b.name, users[k].name, r.reply.body.name)
                && Applied(b.email, users[k].email, r.reply.body.email)
                && Applied(b.image, users[k].image, r.reply.body.image)
                && Applied(b.role, users[k].role, r.reply.body.role)
  {
    match FirstIndex(users, (u: ProfileUser) => u.email == Some(own))
    case None => ProfileOutcome(Fail(500, UpdateFailed), users)
    case Some(k) =>
      var updated := Merge(users[k], b);
      ProfileOutcome(Ok(updated), users[k := updated])
  }

  /** The route; `body` is `None` when the JSON body cannot be read. */
  function PatchProfile(session: SessionLookup, body: Option<ProfileBody>, users: seq<ProfileUser>): (r: ProfileOutcome)
    ensures r.reply.Fail? ==> r.users == users
    ensures session.SessionThrew? ==> r.reply == Fail(500, UpdateFailed)
    ensures !session.SessionThrew? && !Authorized(session) ==> r.reply == Fail(401, Unauthorized)
    ensures Authorized(session) && body.None? ==> r.reply == Fail(500, UpdateFailed)
    ensures Authorized(session) && body.Some? ==>
              match Validate(body.value, session.email.value, users)
              case Some(e) => r.reply == Fail(400, e)
              case None => r == Update(body.value, session.email.value, users)
  {
    if session.SessionThrew? then ProfileOutcome(Fail(500, UpdateFailed), users)
    else if !Authorized(session) then ProfileOutcome(Fail(401, Unauthorized), users)
    else
      match body
      case None => ProfileOutcome(Fail(500, UpdateFailed), users)
      case Some(b) =>
        match Validate(b, session.email.value, users)
        case Some(e) => ProfileOutcome(Fail(400, e), users)
        case None => Update(b, session.email.value, users)
  }

  /** No two rows share a present e-mail. */
  predicate UniqueEmails(users: seq<ProfileUser>) {
    forall i, j | 0 <= i < j < |users| :: users[i].email.Some? ==> users[i].email != users[j].email
  }

  /**
   * A successful update keeps e-mails unique, except through the empty string: `""` is falsy,
   * so it skips both checks and is still written.
   */
  lemma PatchKeepsEmailsUnique(session: SessionLookup, b: ProfileBody, users: seq<ProfileUser>)
    requires UniqueEmails(users)
    requires b.email != Text("")
    ensures var r := PatchProfile(session, Some(b), users); UniqueEmails(r.users)
  {
    var r := PatchProfile(session, Some(b), users);
    if r.reply.Ok? {
      assert Validate(b, session.email.value, users).None?;
      var k :| 0 <= k < |users| && users[k].email == session.email && r.users == users[k := r.reply.body]
                && Applied(b.email, users[k].email, r.reply.body.email);
      var e := r.reply.body.email;
      forall i, j | 0 <= i < j < |r.users| && r.users[i].email.Some?
        ensures r.users[i].email != r.users[j].email
      {
        if i != k && j != k {
          assert r.users[i] == users[i] && r.users[j] == users[j];
        } else if b.email.Text? && Some(b.email.s) != session.email {
          assert EmailFree(b, session.email.value, users);
          var other := if i == k then j else i;
          assert r.users[other] == users[other];
          assert !EmailTaken(users, b.email.s);
        } else {
          var other := if i == k then j else i;
          assert e == users[k].email || e.None?;
          assert r.users[other] == users[other];
        }
      }
    }
  }

  /** The unchecked empty string can give two rows the same e-mail. */
  lemma EmptyEmailEscapesUniqueness()
    ensures var users := [ProfileUser("1", None, Some("a@b.co"), None, None, "starter", "t"),
                          ProfileUser("2", None, Some(""), None, None, "starter", "t")];
            var r := PatchProfile(SignedIn(Some("a@b.co")), Some(ProfileBody(Absent, Text(""), Absent, Absent)), users);
            r.reply.Ok? && !UniqueEmails(r.users)
  {
    var users := [ProfileUser("1", None, Some("a@b.co"), None, None, "starter", "t"),
                  ProfileUser("2", None, Some(""), None, None, "starter", "t")];
    assert FirstIndex(users, (u: ProfileUser) => u.email == Some("a@b.co")) == Some(0);
    var r := PatchProfile(SignedIn(Some("a@b.co")), Some(ProfileBody(Absent, Text(""), Absent, Absent)), users);
    assert r.users[0].email == r.users[1].email == Some("");
  }
}
