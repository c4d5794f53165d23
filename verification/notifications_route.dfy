/** `PATCH /api/user/notifications`: validates three boolean preferences and echoes them. */
module NotificationsRoute {
  import opened Wrappers
  import opened ApiCommon

  /** A body field as `typeof` sees it: a boolean, or anything else (including absent). */
  datatype Field = BoolValue(b: bool) | NotBool

  datatype NotificationBody = NotificationBody(emailNotifications: Field, projectUpdates: Field, marketingEmails: Field)

  /** The echoed preferences: exactly the three flags. */
  datatype Preferences = Preferences(emailNotifications: bool, projectUpdates: bool, marketingEmails: bool)

  const InvalidPreferences: string := "Invalid notification preferences"
  const UpdateFailed: string := "Failed to update notification preferences"

  /** `body` is `None` when `req.json()` throws. */
  function PatchNotifications(session: SessionLookup, body: Option<NotificationBody>): (r: Reply<Preferences>)
    ensures session.SessionThrew? ==> r == Fail(500, UpdateFailed)
    ensures !session.SessionThrew? && !Authorized(session) ==> r == Fail(401, Unauthorized)
    ensures Authorized(session) && body.None? ==> r == Fail(500, UpdateFailed)
    ensures Authorized(session) && body.Some? ==>
              var b := body.value;
              && (r == Fail(400, InvalidPreferences) <==>
                    !b.emailNotifications.BoolValue? || !b.projectUpdates.BoolValue? || !b.marketingEmails.BoolValue?)
              && (r.Ok? <==> b.emailNotifications.BoolValue? && b.projectUpdates.BoolValue? && b.marketingEmails.BoolValue?)
    ensures r.Ok? ==>
              && body.Some?
              && body.value.emailNotifications == BoolValue(r.body.emailNotifications)
              && body.value.projectUpdates == BoolValue(r.body.projectUpdates)
              && body.value.marketingEmails == BoolValue(r.body.marketingEmails)
  {
    match session
    case SessionThrew => Fail(500, UpdateFailed)
    case _ =>
      if !Authorized(session) then Fail(401, Unauthorized)
      else
        match body
        case None => Fail(500, UpdateFailed)
        case Some(b) =>
          match (b.emailNotifications, b.projectUpdates, b.marketingEmails)
          case (BoolValue(e), BoolValue(p), BoolValue(m)) => Ok(Preferences(e, p, m))
          case _ => Fail(400, InvalidPreferences)
  }
}
