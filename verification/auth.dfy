/**
 * The NextAuth configuration: the credentials `authorize` callback with its development
 * fallback user, and the `jwt` and `session` callbacks that carry id, plan and role.
 */
module Auth {
  import opened Wrappers
  import opened Text
  import opened Domain

  /** The submitted credentials; `None` is a missing field. */
  datatype Credentials = Credentials(email: Option<string>, password: Option<string>)

  /** A user as `authorize` returns it. */
  datatype AuthUser = AuthUser(id: string, email: string, name: string, plan: Option<string>, role: Option<string>)

  /**
   * What the database does for one sign-in: unreachable (the `SELECT 1` probe failed), an
   * exception in a later query, the user found, or no user and a new row created with the
   * given id and column defaults.
   */
  datatype DbOutcome =
    | DbUnavailable
    | DbThrew
    | UserFound(user: AuthUser)
    | UserCreated(newId: string, defaultPlan: Option<string>, defaultRole: Option<string>)

  const DevUserPrefix: string := "dev-user-"

  /** The character an e-mail character becomes in the fallback id. */
  function IdChar(c: char): char {
    if IsAsciiAlnum(c) then c else '-'
  }

  /** `'dev-user-' + email.replace(/[^a-zA-Z0-9]/g, '-')`. */
  function FallbackUserId(email: string): (id: string)
    ensures |id| == |DevUserPrefix| + |email| && id[..|DevUserPrefix|] == DevUserPrefix
    ensures forall i | 0 <= i < |email| :: id[|DevUserPrefix| + i] == IdChar(email[i])
    ensures forall i | |DevUserPrefix| <= i < |id| :: IsAsciiAlnum(id[i]) || id[i] == '-'
  {
    DevUserPrefix + seq(|email|, i requires 0 <= i < |email| => IdChar(email[i]))
  }

  /** E-mail addresses of the same length whose characters become the same id characters share a fallback id. */
  lemma FallbackIdsAgree(a: string, b: string)
    requires |a| == |b| && forall i | 0 <= i < |a| :: IdChar(a[i]) == IdChar(b[i])
    ensures FallbackUserId(a) == FallbackUserId(b)
  {
    var x := FallbackUserId(a);
    var y := FallbackUserId(b);
    forall k | 0 <= k < |x|
      ensures x[k] == y[k]
    {
      if k < |DevUserPrefix| {
        assert x[k] == x[..|DevUserPrefix|][k] && y[k] == y[..|DevUserPrefix|][k];
      } else {
        assert x[|DevUserPrefix| + (k - |DevUserPrefix|)] == IdChar(a[k - |DevUserPrefix|]);
      }
    }
  }

  /** Two different e-mail addresses can share a fallback id. */
  lemma FallbackIdsCanCollide()
    ensures FallbackUserId("a.b@c") == FallbackUserId("a-b-c")
  {
    var a, b := "a.b@c", "a-b-c";
    assert a[0] == 'a' && a[1] == '.' && a[2] == 'b' && a[3] == '@' && a[4] == 'c';
    assert b[0] == 'a' && b[1] == '-' && b[2] == 'b' && b[3] == '-' && b[4] == 'c';
    FallbackIdsAgree(a, b);
  }

  /** `email.split('@')[0]`. */
  function NameFromEmail(email: string): (name: string)
    ensures '@' !in name && |name| <= |email| && name == email[..|name|]
    ensures |name| < |email| ==> email[|name|] == '@'
  {
    BeforeFirst(email, '@')
  }

  /** The development user returned when the database is unavailable or throws. */
  function FallbackUser(email: string): AuthUser {
    AuthUser(FallbackUserId(email), email, NameFromEmail(email), Some(StarterName), Some("developer"))
  }

  /** `authorize`: `None` is the `null` that rejects the sign-in. */
  function Authorize(credentials: Credentials, db: DbOutcome): (r: Option<AuthUser>)
    ensures !Truthy(credentials.email) || !Truthy(credentials.password) ==> r.None?
    ensures Truthy(credentials.email) && Truthy(credentials.password) ==> r.Some?
    ensures r.Some? && (db.DbUnavailable? || db.DbThrew?) ==>
              var email := credentials.email.value;
              && r.value.email == email
              && r.value.id == FallbackUserId(email)
              && r.value.name == NameFromEmail(email)
              && r.value.plan == Some(StarterName) && r.value.role == Some("developer")
    ensures r.Some? && db.UserFound? ==> r.value == db.user
    ensures r.Some? && db.UserCreated? ==>
              r.value == AuthUser(db.newId, credentials.email.value, NameFromEmail(credentials.email.value),
                                  db.defaultPlan, db.defaultRole)
  {
    if !Truthy(credentials.email) || !Truthy(credentials.password) then None
    else
      var email := credentials.email.value;
      match db
      case DbUnavailable => Some(FallbackUser(email))
      case DbThrew => Some(FallbackUser(email))
      case UserFound(user) => Some(user)
      case UserCreated(id, plan, role) => Some(AuthUser(id, email, NameFromEmail(email), plan, role))
  }

  /** The JWT: the three custom claims and every other claim, untouched by the callback. */
  datatype Token = Token(id: Option<string>, plan: Option<string>, role: Option<string>, claims: map<string, string>)

  /** `value || fallback` on an optional string. */
  function OrDefault(value: Option<string>, fallback: string): string {
    if Truthy(value) then value.value else fallback
  }

  /** The `jwt` callback: on sign-in the user's id, plan (default `starter`) and role (default `developer`). */
  function Jwt(token: Token, user: Option<AuthUser>): (r: Token)
    ensures user.None? ==> r == token
    ensures r.claims == token.claims
    ensures user.Some? ==> r.id == Some(user.value.id)
    ensures user.Some? ==> r.plan.Some? && Truthy(r.plan)
    ensures user.Some? && Truthy(user.value.plan) ==> r.plan == user.value.plan
    ensures user.Some? && !Truthy(user.value.plan) ==> r.plan == Some(StarterName)
    ensures user.Some? && Truthy(user.value.role) ==> r.role == user.value.role
    ensures user.Some? && !Truthy(user.value.role) ==> r.role == Some("developer")
  {
    match user
    case None => token
    case Some(u) =>
      token.(id := Some(u.id), plan := Some(OrDefault(u.plan, StarterName)), role := Some(OrDefault(u.role, "developer")))
  }

  /** `session.user` as the client sees it. */
  datatype SessionUser = SessionUser(
    name: Option<string>, email: Option<string>, image: Option<string>,
    id: Option<string>, plan: Option<string>, role: Option<string>)

  datatype Session = Session(user: Option<SessionUser>, expires: string)

  /** The `session` callback: copies id, plan and role from the token onto a present user. */
  function SessionFromToken(session: Session, token: Token): (r: Session)
    ensures r.expires == session.expires
    ensures r.user.Some? <==> session.user.Some?
    ensures r.user.Some? ==>
              var u := r.user.value;
              var v := session.user.value;
              && u.id == token.id && u.plan == token.plan && u.role == token.role
              && u.name == v.name && u.email == v.email && u.image == v.image
  {
    match session.user
    case None => session
    case Some(u) => session.(user := Some(u.(id := token.id, plan := token.plan, role := token.role)))
  }

  /**
   * Sign-in without a database: the fallback user's session carries the fallback id, plan
   * `starter` and role `developer`, so every page shows the `starter` plan.
   */
  lemma FallbackSignInIsStarter(credentials: Credentials, db: DbOutcome, token: Token, session: Session, contextPlan: Plan)
    requires Truthy(credentials.email) && Truthy(credentials.password)
    requires db.DbUnavailable? || db.DbThrew?
    requires session.user.Some?
    ensures var user := Authorize(credentials, db);
            var s := SessionFromToken(session, Jwt(token, user));
            && s.user.value.id == Some(FallbackUserId(credentials.email.value))
            && s.user.value.role == Some("developer")
            && EffectivePlan(s.user.value.plan, contextPlan) == Starter
  {
  }
}
