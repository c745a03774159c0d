/** `POST /api/auth/otp`: check the mail configuration, check the email's
    domain, issue a code and mail it. The mail service is reduced to
    whether its send reports an error. */
module OtpRoute {
  import opened Optional
  import opened Text
  import opened Auth
  import opened Http

  /** Only addresses of the organisation may ask for a code. */
  const OrgSuffix: string := "@navagathatech.com"

  /** The JSON body `{ email }`; `None` for the whole request when the body
      is not JSON. */
  datatype OtpRequest = OtpRequest(email: Option<string>)

  /** The message handed to the mail service. */
  datatype Mail = Mail(to: string, code: string)

  /** The domain guard: a truthy email ending, case-sensitively, in the
      organisation suffix. */
  predicate EmailAllowed(email: Option<string>) {
    !Falsy(email) && EndsWith(email.value, OrgSuffix)
  }

  /** The guard accepts organisation addresses, and nothing with a different
      case, a look-alike domain or a trailing extra label. */
  lemma EmailGuardExamples()
    ensures EmailAllowed(Some("hr@navagathatech.com"))
    ensures !EmailAllowed(Some("hr@NAVAGATHATECH.COM"))
    ensures !EmailAllowed(Some("hr@evilnavagathatech.co"))
    ensures !EmailAllowed(Some("hr@navagathatech.com.evil"))
    ensures !EmailAllowed(Some("")) && !EmailAllowed(None)
  {
    assert "hr@navagathatech.com"[2..] == OrgSuffix;
    assert "hr@NAVAGATHATECH.COM"[2..][3] != OrgSuffix[3];
    assert "hr@evilnavagathatech.co"[5..][0] != OrgSuffix[0];
    assert "hr@navagathatech.com.evil"[7..][0] != OrgSuffix[0];
  }

  /** The handler. A missing API key fails before the body is read; a
      rejected email leaves the store alone; otherwise the code is stored
      first and then mailed, and a send error does not take it back. */
  method Post(store: OtpStore, apiKey: Option<string>, body: Option<OtpRequest>,
              now: nat, random: real, sendFails: bool)
    returns (resp: Response, mail: Option<Mail>)
    requires 0.0 <= random < 1.0
    modifies store
    ensures Falsy(apiKey) ==>
              resp == Response(500, Message("Email service not configured")) &&
              mail.None? && store.entries == old(store.entries)
    ensures !Falsy(apiKey) && body.None? ==>
              resp == InternalError && mail.None? && store.entries == old(store.entries)
    ensures !Falsy(apiKey) && body.Some? && !EmailAllowed(body.value.email) ==>
              resp == Response(403, Message("Access restricted to @navagathatech.com emails.")) &&
              mail.None? && store.entries == old(store.entries)
    ensures !Falsy(apiKey) && body.Some? && EmailAllowed(body.value.email) ==>
              var email := body.value.email.value;
              mail == Some(Mail(email, OtpCode(random))) &&
              store.entries == Issue(old(store.entries), email, OtpCode(random), now) &&
              resp == if sendFails then Response(500, Message("Failed to send OTP"))
                      else Response(200, Succeeded)
  {
    mail := None;
    if Falsy(apiKey) {
      return Response(500, Message("Email service not configured")), mail;
    }
    if body.None? {
      return InternalError, mail;
    }
    var email := body.value.email;
    if !EmailAllowed(email) {
      return Response(403, Message("Access restricted to @navagathatech.com emails.")), mail;
    }
    var otp := store.GenerateOTP(email.value, now, random);
    mail := Some(Mail(email.value, otp));
    if sendFails {
      return Response(500, Message("Failed to send OTP")), mail;
    }
    resp := Response(200, Succeeded);
  }
}
