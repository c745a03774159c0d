/** `POST /api/auth/verify`: check that both fields are there, check the
    code, and on success set the session cookie. */
module VerifyRoute {
  import opened Optional
  import opened Text
  import opened Auth
  import opened Http

  /** The JSON body `{ email, code }`; `None` when the body is not JSON. */
  datatype VerifyRequest = VerifyRequest(email: Option<string>, code: Option<string>)

  /** The single answer for a wrong code and an expired one alike. */
  const Rejected: Response := Response(401, Message("Invalid or expired code."))

  /** The handler. Missing fields are refused before the store is consulted;
      a session is created only when the code was accepted. */
  method Post(store: OtpStore, jar: CookieJar, body: Option<VerifyRequest>, now: nat)
    returns (resp: Response)
    modifies store, jar
    ensures body.None? ==>
              resp == InternalError &&
              store.entries == old(store.entries) && jar.session == old(jar.session)
    ensures body.Some? && (Falsy(body.value.email) || Falsy(body.value.code)) ==>
              resp == Response(400, Message("Email and code are required.")) &&
              store.entries == old(store.entries) && jar.session == old(jar.session)
    ensures body.Some? && !Falsy(body.value.email) && !Falsy(body.value.code) ==>
              var email := body.value.email.value;
              var v := CheckCode(old(store.entries), email, body.value.code.value, now);
              store.entries == v.store &&
              (v.ok ==> resp == Response(200, Succeeded) && jar.session == Some(SignSession(email, now))) &&
              (!v.ok ==> resp == Rejected && jar.session == old(jar.session))
  {
    if body.None? {
      return InternalError;
    }
    var email, code := body.value.email, body.value.code;
    if Falsy(email) || Falsy(code) {
      return Response(400, Message("Email and code are required."));
    }
    var isValid := store.VerifyOTP(email.value, code.value, now);
    if !isValid {
      return Rejected;
    }
    jar.CreateSession(email.value, now);
    resp := Response(200, Succeeded);
  }
}
