/** The login side of the site: the in-memory one-time-code store
    (`otpStore`, `generateOTP`, `verifyOTP`) and the session cookie
    (`createSession`, `getSession`, `logout`). The clock (`Date.now()`, in
    milliseconds) and `Math.random()` are parameters. */
module Auth {
  import opened Optional
  import opened Text

  /** A code lives for five minutes. */
  const OtpLifetimeMs: nat := 5 * 60 * 1000

  /** A pending challenge: the code mailed out and the last instant (in
      milliseconds) at which it is still accepted. */
  datatype Challenge = Challenge(code: string, expires: nat)

  type Store = map<string, Challenge>

  /** The number `Math.floor(100000 + r * 900000)` for a draw `r` of
      `Math.random()`, computed on exact reals. */
  function OtpNumber(r: real): (n: int)
    requires 0.0 <= r < 1.0
    ensures 100000 <= n <= 999999
  {
    (100000.0 + r * 900000.0).Floor
  }

  /** The code `generateOTP` hands out: a numeral of exactly six digits
      whose value lies in [100000, 999999]. */
  function OtpCode(r: real): (code: string)
    requires 0.0 <= r < 1.0
    ensures |code| == 6 && AllDigits(code)
    ensures DecimalValue(code) == OtpNumber(r)
    ensures 100000 <= DecimalValue(code) <= 999999
  {
    var n := OtpNumber(r);
    assert Pow10(6) == 1000000 && Pow10(5) == 100000 by {
      assert Pow10(1) == 10;
      assert Pow10(2) == 100;
      assert Pow10(3) == 1000;
      assert Pow10(4) == 10000;
    }
    DecimalLength(n, 6);
    DecimalRoundTrip(n);
    NatToDecimal(n)
  }

  /** What one `verifyOTP` call answers, and the store it leaves behind. */
  datatype Verdict = Verdict(ok: bool, store: Store)

  /** One `verifyOTP(email, code)` at time `now`: no challenge fails and
      changes nothing; an expired challenge fails and is deleted, even when
      the code is right; a live matching challenge succeeds and is consumed;
      a live challenge with a different code fails and stays. The instant
      `now == expires` is still live. Other emails are never touched. */
  function CheckCode(store: Store, email: string, code: string, now: nat): (v: Verdict)
    ensures v.ok <==> email in store && now <= store[email].expires && store[email].code == code
    ensures email !in store ==> v.store == store
    ensures email in store && now > store[email].expires ==> v.store == store - {email}
    ensures v.ok ==> v.store == store - {email}
    ensures email in store && now <= store[email].expires && store[email].code != code ==> v.store == store
    ensures v.store.Keys <= store.Keys
    ensures forall e :: e != email ==> (e in v.store <==> e in store)
    ensures forall e :: e != email && e in store ==> v.store[e] == store[e]
  {
    if email !in store then Verdict(false, store)
    else if now > store[email].expires then Verdict(false, store - {email})
    else if store[email].code == code then Verdict(true, store - {email})
    else Verdict(false, store)
  }

  /** The challenge `generateOTP` leaves for `email` at time `now`. */
  function Issue(store: Store, email: string, code: string, now: nat): (s: Store)
    ensures email in s && s[email] == Challenge(code, now + OtpLifetimeMs)
    ensures s.Keys == store.Keys + {email}
    ensures forall e :: e != email && e in store ==> s[e] == store[e]
  {
    store[email := Challenge(code, now + OtpLifetimeMs)]
  }

  /** A freshly issued code is accepted at any instant up to five minutes
      later, whatever the store held for that email before. */
  lemma IssuedCodeVerifies(store: Store, email: string, code: string, issuedAt: nat, now: nat)
    requires now <= issuedAt + OtpLifetimeMs
    ensures CheckCode(Issue(store, email, code, issuedAt), email, code, now).ok
  {
  }

  /** After five minutes the issued code is refused, and the challenge is gone. */
  lemma IssuedCodeExpires(store: Store, email: string, code: string, issuedAt: nat, now: nat)
    requires now > issuedAt + OtpLifetimeMs
    ensures !CheckCode(Issue(store, email, code, issuedAt), email, code, now).ok
    ensures email !in CheckCode(Issue(store, email, code, issuedAt), email, code, now).store
  {
  }

  /** A code is good for one login only: once accepted, every later attempt
      for that email fails until a new code is issued. */
  lemma CodeIsSingleUse(store: Store, email: string, code: string, now: nat, again: string, later: nat)
    requires CheckCode(store, email, code, now).ok
    ensures !CheckCode(CheckCode(store, email, code, now).store, email, again, later).ok
  {
  }

  /** A sequence of attempts `(code, time)` for one email, in order. */
  function Attempts(store: Store, email: string, tries: seq<(string, nat)>): Store
    decreases |tries|
  {
    if tries == [] then store
    else Attempts(CheckCode(store, email, tries[0].0, tries[0].1).store, email, tries[1..])
  }

  /** Wrong guesses made before the expiry leave the challenge in place,
      so the right code still works afterwards, until it expires. */
  lemma {:induction false} WrongGuessesKeepChallenge(store: Store, email: string, tries: seq<(string, nat)>)
    requires email in store
    requires forall i :: 0 <= i < |tries| ==> tries[i].0 != store[email].code && tries[i].1 <= store[email].expires
    ensures Attempts(store, email, tries) == store
    decreases |tries|
  {
    if tries != [] {
      assert CheckCode(store, email, tries[0].0, tries[0].1).store == store;
      WrongGuessesKeepChallenge(store, email, tries[1..]);
    }
  }

  /** The right code, presented after any number of wrong guesses and no
      later than the expiry, is accepted. */
  lemma RetryThenSucceed(store: Store, email: string, tries: seq<(string, nat)>, now: nat)
    requires email in store && now <= store[email].expires
    requires forall i :: 0 <= i < |tries| ==> tries[i].0 != store[email].code && tries[i].1 <= store[email].expires
    ensures CheckCode(Attempts(store, email, tries), email, store[email].code, now).ok
  {
    WrongGuessesKeepChallenge(store, email, tries);
  }

  /** The process-wide `otpStore`: at most one challenge per email. */
  class OtpStore {
    var entries: Store

    constructor ()
      ensures entries == map[]
    {
      entries := map[];
    }

    /** `generateOTP(email)`: draw a six-digit code from `random`, store it
        for `email` with an expiry five minutes from `now` (replacing any
        earlier challenge for that email) and return it. */
    method GenerateOTP(email: string, now: nat, random: real) returns (code: string)
      requires 0.0 <= random < 1.0
      modifies this
      ensures code == OtpCode(random)
      ensures |code| == 6 && 100000 <= DecimalValue(code) <= 999999
      ensures entries == Issue(old(entries), email, code, now)
    {
      code := OtpCode(random);
      entries := entries[email := Challenge(code, now + OtpLifetimeMs)];
    }

    /** `verifyOTP(email, code)` at time `now`. */
    method VerifyOTP(email: string, code: string, now: nat) returns (ok: bool)
      modifies this
      ensures Verdict(ok, entries) == CheckCode(old(entries), email, code, now)
    {
      if email !in entries {
        return false;
      }
      var entry := entries[email];
      if now > entry.expires {
        entries := entries - {email};
        return false;
      }
      if entry.code == code {
        entries := entries - {email};
        return true;
      }
      return false;
    }
  }

  /** A session lasts 24 hours; token times are in whole seconds. */
  const SessionLifetimeSec: nat := 24 * 60 * 60

  /** A session token as `createSession` signs it: the email claim, the
      issued-at and expiry claims in seconds, and whether its signature
      verifies against the server secret (forged or corrupted tokens do not). */
  datatype Token = Token(email: string, issuedAt: nat, expiresAt: nat, authentic: bool)

  /** The identity `getSession` recovers. */
  datatype Session = Session(email: string)

  function EpochSeconds(nowMs: nat): nat {
    nowMs / 1000
  }

  /** The token `createSession(email)` signs at `nowMs`. */
  function SignSession(email: string, nowMs: nat): (t: Token)
    ensures t.authentic && t.email == email
    ensures t.issuedAt * 1000 <= nowMs < (t.issuedAt + 1) * 1000
    ensures t.expiresAt == t.issuedAt + SessionLifetimeSec
  {
    var iat := EpochSeconds(nowMs);
    Token(email, iat, iat + SessionLifetimeSec, true)
  }

  /** The token check behind `getSession`: the signature verifies and the
      current second is before the expiry. */
  predicate TokenValid(t: Token, nowMs: nat) {
    t.authentic && EpochSeconds(nowMs) < t.expiresAt
  }

  /** `getSession()` on the cookie value: no cookie, a bad signature or an
      expired token all give `null`; otherwise the token's email. */
  function ReadSession(cookie: Option<Token>, nowMs: nat): (s: Option<Session>)
    ensures s.Some? <==> cookie.Some? && TokenValid(cookie.value, nowMs)
    ensures s.Some? ==> s.value.email == cookie.value.email
  {
    match cookie
    case None => None
    case Some(t) => if TokenValid(t, nowMs) then Some(Session(t.email)) else None
  }

  /** A token signed at `issuedMs` is accepted up to one second short of
      24 hours later, and refused from the 24-hour mark on. */
  lemma SessionLastsADay(email: string, issuedMs: nat, nowMs: nat)
    ensures nowMs + 1000 <= issuedMs + SessionLifetimeSec * 1000 ==>
              ReadSession(Some(SignSession(email, issuedMs)), nowMs) == Some(Session(email))
    ensures nowMs >= issuedMs + SessionLifetimeSec * 1000 ==>
              ReadSession(Some(SignSession(email, issuedMs)), nowMs) == None
  {
  }

  /** The session cookie of one browser. */
  class CookieJar {
    var session: Option<Token>

    constructor ()
      ensures session == None
    {
      session := None;
    }

    /** `createSession(email)`: sign a token and store it as the cookie. */
    method CreateSession(email: string, nowMs: nat)
      modifies this
      ensures session == Some(SignSession(email, nowMs))
    {
      session := Some(SignSession(email, nowMs));
    }

    /** `logout()`: delete the cookie (the token itself stays valid elsewhere). */
    method Logout()
      modifies this
      ensures session == None
    {
      session := None;
    }

    /** `getSession()`. */
    function GetSession(nowMs: nat): Option<Session>
      reads this
    {
      ReadSession(session, nowMs)
    }
  }
}
