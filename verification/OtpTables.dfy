// The otp_challenges and otp_sends tables and the transactions of internal/statedb/otp.go.
module OtpTables {
  import opened Common

  datatype OtpFlow = OtpFlow(
    flowId: string, connectorId: string, subject: string, email: string, clientId: string, redirectUri: string,
    codeChallenge: string, nonce: string, oidcState: string, scopes: string, refreshMode: string, authTime: int,
    offlineConsent: bool, purpose: string, dpopJkt: string, pushed: bool)

  // HMAC over the challenge and the code, as an injective constructor.
  datatype Mac = Mac(secret: Bytes, challenge: string, code: string)

  datatype Challenge = Challenge(
    email: string, mac: Mac, flow: OtpFlow, attempts: nat, sends: nat, createdAt: int, sentAt: int, expiresAt: int)

  datatype Send = Send(email: string, at: int)

  // otp_sends has no key of its own; rows carry the number the database gives them.
  datatype Otp = Otp(challenges: map<string, Challenge>, sends: map<nat, Send>, nextRow: nat)

  datatype OtpError =
    | InvalidChallenge
    | InvalidCode
    | SendLimit
    | ResendRejected(retryAfter: int)
    | OtpStorage

  const SEND_QUOTA := 5
  const MAX_ATTEMPTS := 5

  // Row numbers of the sends to an address after a given time.
  function Recent(sends: map<nat, Send>, email: string, after: int): set<nat> {
    set r | r in sends && sends[r].email == email && after < sends[r].at
  }

  function Record(o: Otp, id: string, c: Challenge, now: int): Otp {
    Otp(o.challenges[id := c], o.sends[o.nextRow := Send(c.email, now)], o.nextRow + 1)
  }

  function CreateOtp(
    o: Otp, id: string, email: string, mac: Mac, flow: OtpFlow, now: int, ttl: int): (Otp, Result<int, OtpError>) {
    if |Recent(o.sends, email, now - HOUR)| >= SEND_QUOTA then (o, Err(SendLimit))
    else if id in o.challenges then (o, Err(OtpStorage))
    else (Record(o, id, Challenge(email, mac, flow, 0, 1, now, now, now + ttl), now), Ok(now + ttl))
  }

  // The earliest of a nonempty set of sends.
  ghost function Oldest(sends: map<nat, Send>, rows: set<nat>): (t: int)
    requires rows != {} && rows <= sends.Keys
    ensures exists r :: r in rows && sends[r].at == t
    ensures forall r :: r in rows ==> t <= sends[r].at
    decreases |rows|
  {
    var r :| r in rows;
    if rows == {r} then sends[r].at
    else
      assert forall q :: q in rows ==> q == r || q in rows - {r};
      Min(sends[r].at, Oldest(sends, rows - {r}))
  }

  // How long a refused resend has to wait: not at all for a missing or expired challenge, until
  // the cooldown is over, or until the oldest send leaves the quota window.
  ghost function ResendRefusal(o: Otp, id: string, now: int): Option<int> {
    if id !in o.challenges || o.challenges[id].expiresAt <= now then Some(0)
    else if o.challenges[id].sentAt + MINUTE - now > 0 then Some(o.challenges[id].sentAt + MINUTE - now)
    else QuotaRefusal(o.sends, o.challenges[id].email, now)
  }

  ghost function QuotaRefusal(sends: map<nat, Send>, email: string, now: int): Option<int> {
    var recent := Recent(sends, email, now - HOUR);
    if |recent| >= SEND_QUOTA then Some(Oldest(sends, recent) + HOUR - now) else None
  }

  ghost function ResendOtp(o: Otp, id: string, mac: Mac, now: int, ttl: int): (Otp, Result<int, OtpError>) {
    var refusal := ResendRefusal(o, id, now);
    if refusal.Some? then (o, Err(ResendRejected(refusal.value)))
    else
      var c := o.challenges[id];
      (Record(o, id, c.(mac := mac, attempts := 0, sends := c.sends + 1, sentAt := now, expiresAt := now + ttl), now),
       Ok(now + ttl))
  }

  function OtpFlowOf(o: Otp, id: string, now: int): Result<(OtpFlow, int), OtpError> {
    if id in o.challenges && now < o.challenges[id].expiresAt && o.challenges[id].attempts < MAX_ATTEMPTS
    then Ok((o.challenges[id].flow, o.challenges[id].expiresAt)) else Err(InvalidChallenge)
  }

  function ConsumeOtp(o: Otp, id: string, guess: Mac, now: int): (Otp, Result<OtpFlow, OtpError>) {
    if id !in o.challenges || o.challenges[id].expiresAt <= now || o.challenges[id].attempts >= MAX_ATTEMPTS then
      (o, Err(InvalidChallenge))
    else
      var c := o.challenges[id];
      if c.mac != guess then
        (o.(challenges := o.challenges[id := c.(attempts := c.attempts + 1)]),
         Err(if c.attempts + 1 >= MAX_ATTEMPTS then InvalidChallenge else InvalidCode))
      else (o.(challenges := o.challenges - {id}), Ok(c.flow))
  }

  // Cleanup of any batch of challenges past their expiry and sends older than the quota window.
  function DeleteExpired(o: Otp, ids: set<string>, rows: set<nat>, now: int): Otp {
    o.(challenges := map i | i in o.challenges && !(i in ids && o.challenges[i].expiresAt < now) :: o.challenges[i],
       sends := map r | r in o.sends && !(r in rows && o.sends[r].at < now - HOUR) :: o.sends[r])
  }
}
