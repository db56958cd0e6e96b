/** The administrative password-reset initiation of server/userRoutes.js
    (POST /users/:id/send-reset-link): a random token and a 24-hour expiry are
    written to the account's row, then a link to the reset page is mailed. The
    random bytes, the clock, a failing UPDATE and the mail transport are parameters. */
module UserRoutes {
  import opened Strings
  import opened Js
  import Hex
  import opened AuthRoutes

  const ResetLinkBase: string := "http://localhost:5173/reset-password/"
  /** 24 hours in milliseconds. */
  const ResetLifetimeMs: int := 3600000 * 24
  const ResetSubject: string := "Password Reset Request"

  const NoEmail: string := "User has no email address configured."
  const SchemaMarker: string := "column \"reset_password_token\""
  const MailerMarker: string := "Nodemailer"
  const SchemaError: string :=
    "Database schema error: Missing \"reset_password_token\" or \"reset_password_expires\" columns."
  const MailError: string := "Email service failed. Check EMAIL_USER, EMAIL_PASS, and App Password."
  const GenericResetError: string := "Failed to initiate password reset due to a server error."

  /** The mail the handler sends; its HTML body is a fixed text around `link`. */
  datatype Mail = Mail(to: string, subject: string, link: string)

  /** `crypto.randomBytes(32).toString('hex')`: 64 lowercase hex characters that decode to the bytes. */
  function ResetToken(bytes: seq<Hex.Byte>): (token: string)
    requires |bytes| == 32
    ensures |token| == 64 && Hex.IsLowerHex(token)
    ensures Hex.Decode(token) == Some(bytes)
  {
    Hex.DecodeEncode(bytes);
    Hex.Encode(bytes)
  }

  function ResetUrl(token: string): (url: string)
    ensures StartsWith(url, ResetLinkBase) && url[|ResetLinkBase|..] == token
  {
    ResetLinkBase + token
  }

  /** The error text of a failed initiation: the schema message first, then the mail message, else the generic one. */
  function ClassifyResetError(message: string): (r: string)
    ensures Contains(message, SchemaMarker) ==> r == SchemaError
    ensures !Contains(message, SchemaMarker) && Contains(message, MailerMarker) ==> r == MailError
    ensures !Contains(message, SchemaMarker) && !Contains(message, MailerMarker) ==> r == GenericResetError
    ensures r in {SchemaError, MailError, GenericResetError}
  {
    if Contains(message, SchemaMarker) then SchemaError
    else if Contains(message, MailerMarker) then MailError
    else GenericResetError
  }

  /** The row after the UPDATE: token and expiry replaced, every other column kept. */
  function WithResetToken(row: UserRow, token: string, expires: int): (r: UserRow)
    ensures r.resetToken == Some(token) && r.resetExpires == Some(expires)
    ensures r.(resetToken := row.resetToken, resetExpires := row.resetExpires) == row
  {
    row.(resetToken := Some(token), resetExpires := Some(expires))
  }

  /** The handler, for an existing account `id`. `updateFailure` is the error
      message of a failing UPDATE (None: it succeeds); `mailer` answers a send
      with an error message or None. `sent` is the mail handed to the transport. */
  method SendResetLink(db: Database, id: int, randomBytes: seq<Hex.Byte>, nowMs: int,
                       updateFailure: Option<string>, mailer: Mail -> Option<string>)
    returns (resp: Response, sent: Option<Mail>)
    requires db.Valid() && id in db.users && |randomBytes| == 32
    modifies db
    ensures db.Valid() && db.nextId == old(db.nextId) && db.roles == old(db.roles)
    ensures old(db.users[id].email) == "" ==>
      && resp == Response(400, Body("error", NoEmail))
      && db.users == old(db.users) && sent.None?
    ensures old(db.users[id].email) != "" && updateFailure.Some? ==>
      && resp == Response(500, Body("error", ClassifyResetError(updateFailure.value)))
      && db.users == old(db.users) && sent.None?
    ensures old(db.users[id].email) != "" && updateFailure.None? ==>
      var email := old(db.users[id].email);
      var token := ResetToken(randomBytes);
      && db.users == old(db.users)[id := WithResetToken(old(db.users[id]), token, nowMs + ResetLifetimeMs)]
      && sent == Some(Mail(email, ResetSubject, ResetUrl(token)))
      && resp == match mailer(Mail(email, ResetSubject, ResetUrl(token)))
                 case None => Response(200, Body("message", "Password reset link sent to " + email))
                 case Some(e) => Response(500, Body("error", ClassifyResetError(e)))
  {
    sent := None;
    var userEmail := db.users[id].email;
    if userEmail == "" {
      resp := Response(400, Body("error", NoEmail));
      return;
    }

    var resetToken := ResetToken(randomBytes);
    var tokenExpiration := nowMs + ResetLifetimeMs;

    if updateFailure.Some? {
      resp := Response(500, Body("error", ClassifyResetError(updateFailure.value)));
      return;
    }
    db.users := db.users[id := WithResetToken(db.users[id], resetToken, tokenExpiration)];
    assert forall k :: k in db.users ==> db.users[k].email == old(db.users)[k].email;

    var mail := Mail(userEmail, ResetSubject, ResetUrl(resetToken));
    sent := Some(mail);
    var mailFailure := mailer(mail);
    if mailFailure.Some? {
      resp := Response(500, Body("error", ClassifyResetError(mailFailure.value)));
      return;
    }
    resp := Response(200, Body("message", "Password reset link sent to " + userEmail));
  }
}
