/** `POST /api/user/password`: a decision over the session, the user and the user's linked accounts. */
module PasswordRoute {
  import opened Text
  import opened Wrappers
  import opened ApiCommon

  /** `prisma.user.findUnique({ include: { accounts } })`: it threw, found nobody, or the user's accounts' providers. */
  datatype UserLookup = LookupThrew | NoUser | UserWithAccounts(providers: seq<string>)

  /** The JSON reply: status, `error` text and, when present, `isOAuthUser`. */
  datatype PasswordReply = PasswordReply(status: int, error: string, isOAuthUser: Option<bool>)

  const OAuthLead: string := "Password management is handled by your authentication provider "
  const OAuthTail: string := " to change your password."

  /**
   * The 400 message for an OAuth user: the providers joined by ", " appear in parentheses and
   * again as the account to use.
   */
  function OAuthMessage(providers: seq<string>): (m: string)
    ensures Contains(m, "(" + Join(providers, ", ") + ")")
    ensures Contains(m, "use your " + Join(providers, ", ") + " account")
    ensures forall k | 0 <= k < |providers| :: Contains(m, providers[k])
  {
    var listed := Join(providers, ", ");
    var paren := "(" + listed + ")";
    var use := "use your " + listed + " account";
    var m := OAuthLead + paren + ". Please " + use + OAuthTail;
    ContainsSelf(paren);
    ContainsSelf(use);
    ContainsInContext(OAuthLead + paren + ". Please ", use, OAuthTail, use);
    ContainsInContext(OAuthLead, paren, ". Please " + use + OAuthTail, paren);
    Regroup(OAuthLead, paren, ". Please ", use, OAuthTail);
    forall k | 0 <= k < |providers|
      ensures Contains(m, providers[k])
    {
      JoinContainsPart(providers, ", ", k);
      ContainsInContext("(", listed, ")", providers[k]);
      ContainsInContext(OAuthLead, paren, ". Please " + use + OAuthTail, providers[k]);
    }
    m
  }

  /** The message, grouped around its parenthesised list. */
  lemma Regroup(lead: string, paren: string, please: string, use: string, tail: string)
    ensures lead + paren + (please + use + tail) == lead + paren + please + use + tail
  {
  }

  const NotImplemented: string := "Password change is not yet implemented for credential-based accounts."
  const ChangeFailed: string := "Failed to change password"

  function ChangePassword(session: SessionLookup, lookup: UserLookup): (r: PasswordReply)
    ensures r.status in {400, 401, 404, 500, 501}
    ensures session.SessionThrew? ==> r.status == 500
    ensures !session.SessionThrew? && !Authorized(session) ==> r == PasswordReply(401, Unauthorized, None)
    ensures Authorized(session) ==>
              && (lookup.LookupThrew? <==> r.status == 500)
              && (lookup.NoUser? <==> r.status == 404)
              && (lookup.UserWithAccounts? && |lookup.providers| > 0 <==> r.status == 400)
              && (lookup.UserWithAccounts? && |lookup.providers| == 0 <==> r.status == 501)
    ensures r.status == 400 ==>
              && r.isOAuthUser == Some(true)
              && lookup.UserWithAccounts?
              && forall k | 0 <= k < |lookup.providers| :: Contains(r.error, lookup.providers[k])
    ensures r.status == 501 ==> r.isOAuthUser == Some(false)
    ensures r.status in {401, 404, 500} ==> r.isOAuthUser.None?
  {
    if session.SessionThrew? then PasswordReply(500, ChangeFailed, None)
    else if !Authorized(session) then PasswordReply(401, Unauthorized, None)
    else
      match lookup
      case LookupThrew => PasswordReply(500, ChangeFailed, None)
      case NoUser => PasswordReply(404, "User not found", None)
      case UserWithAccounts(providers) =>
        if |providers| > 0 then PasswordReply(400, OAuthMessage(providers), Some(true))
        else PasswordReply(501, NotImplemented, Some(false))
  }
}
