/**
  The email one-time-code store and its routes, and the CORS origin decision
  (server/index.js). The store is one process-wide map from email to
  `{otp, expires, attempts}`; the clock and the random draw are parameters.
 */
module OtpServer {
  import opened Js
  import opened Http

  /** Codes live five minutes. */
  const OtpLifetime: int := 5 * 60 * 1000

  /** From this many wrong guesses on, an entry is locked. */
  const MaxAttempts: int := 5

  /** One store entry; `expires` is a time in milliseconds. */
  datatype OtpEntry = OtpEntry(otp: string, expires: int, attempts: int)

  /** The validator's answer: valid, or invalid with its message. */
  datatype OtpResult = Valid | Invalid(message: string)

  const NoOtp: string := "No OTP sent"
  const Expired: string := "OTP expired"
  const Locked: string := "Too many attempts"
  const Mismatch: string := "Invalid OTP"

  // ---------------------------------------------------------------------------
  // Code generation

  /** `Math.floor(100000 + r * 900000).toString()` where `draw` is
      `floor(r * 900000)` for the random `r` in [0, 1). */
  function GenerateOtp(draw: nat): (otp: string)
    requires draw < 900000
    ensures |otp| == 6 && AllDigits(otp) && otp[0] != '0'
    ensures 100000 <= DigitsValue(otp) <= 999999
    ensures DigitsValue(otp) == 100000 + draw
  {
    assert Pow10(5) == 100000 && Pow10(6) == 1000000;
    DecimalStringLength(100000 + draw, 6);
    DecimalStringRoundTrip(100000 + draw);
    DecimalString(100000 + draw)
  }

  /** Different draws give different codes. */
  lemma GenerateOtpInjective(d1: nat, d2: nat)
    requires d1 < 900000 && d2 < 900000 && d1 != d2
    ensures GenerateOtp(d1) != GenerateOtp(d2)
  {
  }

  // ---------------------------------------------------------------------------
  // The store as values

  /** `setOtp`: the key's entry is replaced by a fresh one. */
  function Stored(entries: map<string, OtpEntry>, key: string, otp: string, now: int): map<string, OtpEntry>
  {
    entries[key := OtpEntry(otp, now + OtpLifetime, 0)]
  }

  /** `validateOtp` at time `now`: the answer and the store afterwards. The
      code sent must be the same string (`!==`), so any non-string fails. */
  function Check(entries: map<string, OtpEntry>, key: string, otp: JsValue, now: int): (OtpResult, map<string, OtpEntry>)
  {
    if key !in entries then (Invalid(NoOtp), entries)
    else
      var e := entries[key];
      if now > e.expires then (Invalid(Expired), entries)
      else if e.attempts >= MaxAttempts then (Invalid(Locked), entries)
      else if otp != Str(e.otp) then (Invalid(Mismatch), entries[key := e.(attempts := e.attempts + 1)])
      else (Valid, entries - {key})
  }

  /** Setting a code gives that key a fresh entry (a new code, five minutes,
      no attempts) whatever it held before, and leaves every other key alone. */
  lemma SetOverwrites(entries: map<string, OtpEntry>, key: string, otp: string, now: int)
    ensures var m := Stored(entries, key, otp, now);
            && key in m && m[key] == OtpEntry(otp, now + 300000, 0)
            && forall k :: k != key ==> (k in m <==> k in entries) && (k in m ==> m[k] == entries[k])
  {
  }

  /** The validator's checks, in their order: a missing entry, then expiry
      (strictly after `expires`), then the lock, then the code. */
  lemma CheckOrder(entries: map<string, OtpEntry>, key: string, otp: JsValue, now: int)
    ensures var r := Check(entries, key, otp, now).0;
            && (key !in entries <==> r == Invalid(NoOtp))
            && (r == Invalid(Expired) <==> key in entries && now > entries[key].expires)
            && (r == Invalid(Locked) <==> key in entries && now <= entries[key].expires && entries[key].attempts >= 5)
            && (r == Invalid(Mismatch) <==> key in entries && now <= entries[key].expires && entries[key].attempts < 5
                                             && otp != Str(entries[key].otp))
            && (r == Valid <==> key in entries && now <= entries[key].expires && entries[key].attempts < 5
                                && otp == Str(entries[key].otp))
  {
  }

  /** A wrong code adds exactly one attempt to that entry and touches no other key. */
  lemma MismatchCountsOne(entries: map<string, OtpEntry>, key: string, otp: JsValue, now: int)
    requires Check(entries, key, otp, now).0 == Invalid(Mismatch)
    ensures var m := Check(entries, key, otp, now).1;
            && key in m && m[key] == entries[key].(attempts := entries[key].attempts + 1)
            && forall k :: k != key ==> (k in m <==> k in entries) && (k in m ==> m[k] == entries[k])
  {
  }

  /** A missing, expired or locked entry is answered without changing the
      store: only a new `setOtp` revives it. */
  lemma RefusalsKeepStore(entries: map<string, OtpEntry>, key: string, otp: JsValue, now: int)
    requires Check(entries, key, otp, now).0 in {Invalid(NoOtp), Invalid(Expired), Invalid(Locked)}
    ensures Check(entries, key, otp, now).1 == entries
  {
  }

  /** A code works once: the right code within five minutes of being set is
      valid, and the same request right after is told no code was sent. */
  lemma CodeWorksOnce(entries: map<string, OtpEntry>, key: string, otp: string, sentAt: int, now: int, later: int)
    requires sentAt <= now <= sentAt + 300000
    ensures var (r1, m1) := Check(Stored(entries, key, otp, sentAt), key, Str(otp), now);
            && r1 == Valid
            && key !in m1
            && Check(m1, key, Str(otp), later).0 == Invalid(NoOtp)
  {
  }

  /** `n` wrong guesses in a row, all within the lifetime, leave `n` attempts
      on the entry (up to the lock, which stops the counting). */
  function Guesses(entries: map<string, OtpEntry>, key: string, wrong: JsValue, now: int, n: nat): map<string, OtpEntry>
  {
    if n == 0 then entries else Check(Guesses(entries, key, wrong, now, n - 1), key, wrong, now).1
  }

  lemma {:induction false} GuessesCount(key: string, otp: string, wrong: JsValue, sentAt: int, now: int,
                                        entries: map<string, OtpEntry>, n: nat)
    requires wrong != Str(otp) && sentAt <= now <= sentAt + 300000 && n <= 5
    ensures var m := Guesses(Stored(entries, key, otp, sentAt), key, wrong, now, n);
            key in m && m[key] == OtpEntry(otp, sentAt + 300000, n)
  {
    if n > 0 {
      GuessesCount(key, otp, wrong, sentAt, now, entries, n - 1);
    }
  }

  /** Five wrong guesses lock the entry: the right code is then refused with
      "Too many attempts", and the entry stays. */
  lemma FiveWrongGuessesLock(key: string, otp: string, wrong: JsValue, sentAt: int, now: int, entries: map<string, OtpEntry>)
    requires wrong != Str(otp) && sentAt <= now <= sentAt + 300000
    ensures var m := Guesses(Stored(entries, key, otp, sentAt), key, wrong, now, 5);
            Check(m, key, Str(otp), now) == (Invalid(Locked), m)
  {
    GuessesCount(key, otp, wrong, sentAt, now, entries, 5);
  }

  // ---------------------------------------------------------------------------
  // The store object and the routes

  class OtpStore {
    var entries: map<string, OtpEntry>

    constructor ()
      ensures entries == map[]
    {
      entries := map[];
    }

    /** `setOtp(key, otp)` at time `now`. */
    method SetOtp(key: string, otp: string, now: int)
      modifies this
      ensures entries == Stored(old(entries), key, otp, now)
    {
      entries := entries[key := OtpEntry(otp, now + OtpLifetime, 0)];
    }

    /** `validateOtp(key, otp)` at time `now`. */
    method ValidateOtp(key: string, otp: JsValue, now: int) returns (result: OtpResult)
      modifies this
      ensures (result, entries) == Check(old(entries), key, otp, now)
    {
      if key !in entries {
        return Invalid(NoOtp);
      }
      var entry := entries[key];
      if now > entry.expires {
        return Invalid(Expired);
      }
      if entry.attempts >= MaxAttempts {
        return Invalid(Locked);
      }
      if otp != Str(entry.otp) {
        entries := entries[key := entry.(attempts := entry.attempts + 1)];
        return Invalid(Mismatch);
      }
      entries := entries - {key};
      result := Valid;
    }

    /** POST /api/send-email-otp. "" is a missing email. The code is stored
        before anything can fail: `smtpConfigured` says whether the four SMTP
        settings are all set, `mailSent` whether the mail went out. */
    method SendEmailOtp(email: string, draw: nat, now: int, smtpConfigured: bool, mailSent: bool)
      returns (reply: Reply)
      requires draw < 900000
      modifies this
      ensures email == "" ==> reply == Reply(400, "Email required") && entries == old(entries)
      ensures email != "" ==> entries == Stored(old(entries), email, GenerateOtp(draw), now)
      ensures email != "" ==> reply == (if !smtpConfigured then Reply(500, "Email service not configured")
                                        else if !mailSent then Reply(500, "Failed to send email")
                                        else Reply(200, "OTP sent to email"))
    {
      if email == "" {
        return Reply(400, "Email required");
      }
      var otp := GenerateOtp(draw);
      SetOtp(email, otp, now);
      if !smtpConfigured {
        return Reply(500, "Email service not configured");
      }
      if !mailSent {
        return Reply(500, "Failed to send email");
      }
      reply := Reply(200, "OTP sent to email");
    }

    /** The older server's POST /api/send-email-otp: the same store and guard,
        but no check of the SMTP settings before mailing. */
    method SendEmailOtpOlder(email: string, draw: nat, now: int, mailSent: bool) returns (reply: Reply)
      requires draw < 900000
      modifies this
      ensures email == "" ==> reply == Reply(400, "Email required") && entries == old(entries)
      ensures email != "" ==> entries == Stored(old(entries), email, GenerateOtp(draw), now)
      ensures email != "" ==> reply == (if mailSent then Reply(200, "OTP sent to email")
                                        else Reply(500, "Failed to send email"))
    {
      if email == "" {
        return Reply(400, "Email required");
      }
      var otp := GenerateOtp(draw);
      SetOtp(email, otp, now);
      if !mailSent {
        return Reply(500, "Failed to send email");
      }
      reply := Reply(200, "OTP sent to email");
    }

    /** POST /api/verify-email-otp (the same in the older server). */
    method VerifyEmailOtp(email: string, otp: JsValue, now: int) returns (reply: Reply)
      modifies this
      ensures email == "" || !Truthy(otp) ==> reply == Reply(400, "Email and OTP required") && entries == old(entries)
      ensures email != "" && Truthy(otp) ==>
                var (r, m) := Check(old(entries), email, otp, now);
                && entries == m
                && reply == (if r.Valid? then Reply(200, "Email OTP verified") else Reply(400, r.message))
    {
      if email == "" || !Truthy(otp) {
        return Reply(400, "Email and OTP required");
      }
      var result := ValidateOtp(email, otp, now);
      if result.Invalid? {
        return Reply(400, result.message);
      }
      reply := Reply(200, "Email OTP verified");
    }
  }

  /** What a failed send leaves behind: the code is stored whatever the mail
      outcome, so a code that was never mailed can still be verified. */
  lemma SendStoresBeforeMail(entries: map<string, OtpEntry>, email: string, draw: nat, sentAt: int, now: int)
    requires draw < 900000 && email != "" && sentAt <= now <= sentAt + 300000
    ensures Check(Stored(entries, email, GenerateOtp(draw), sentAt), email, Str(GenerateOtp(draw)), now).0 == Valid
  {
  }

  // ---------------------------------------------------------------------------
  // CORS

  /** The deployed front end's origin. */
  const HostedFrontend: string := "https://vinitamart-frontend.onrender.com"

  /** `allowedOrigins` after `.filter(Boolean)`: the configured front-end URL
      when it is set and non-empty, then the two local development origins and
      the hosted front end. */
  function AllowedOrigins(frontendUrl: Option<string>): (r: seq<string>)
    ensures forall i :: 0 <= i < |r| ==> r[i] != ""
  {
    (if frontendUrl.Some? && frontendUrl.value != "" then [frontendUrl.value] else [])
    + ["http://localhost:5173", "http://127.0.0.1:5173", HostedFrontend]
  }

  /** The origin callback: a request without an Origin header is allowed, any
      other only when its origin is in the list. */
  predicate CorsAllows(origin: Option<string>, frontendUrl: Option<string>)
  {
    origin.None? || origin.value == "" || origin.value in AllowedOrigins(frontendUrl)
  }

  /** The decision spelled out: exactly the empty origin, the configured front
      end and the three fixed origins pass. */
  lemma CorsAllowsExactly(origin: string, frontendUrl: Option<string>)
    ensures CorsAllows(Some(origin), frontendUrl) <==>
              || origin == ""
              || (frontendUrl.Some? && origin == frontendUrl.value)
              || origin == "http://localhost:5173" || origin == "http://127.0.0.1:5173"
              || origin == HostedFrontend
  {
    var fixed := ["http://localhost:5173", "http://127.0.0.1:5173", HostedFrontend];
    if frontendUrl.Some? && frontendUrl.value != "" {
      assert AllowedOrigins(frontendUrl) == [frontendUrl.value] + fixed;
    } else {
      assert AllowedOrigins(frontendUrl) == fixed;
    }
  }
}
