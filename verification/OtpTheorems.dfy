// Bounds on OTP sends and guesses over every run of the OTP transactions and of cleanup
// under a clock that never goes back.
module OtpTheorems {
  import opened Common
  import opened OtpTables

  datatype Step =
    | Create(id: string, email: string, mac: Mac, flow: OtpFlow, now: int, ttl: int)
    | Resend(id: string, mac: Mac, now: int, ttl: int)
    | Consume(id: string, mac: Mac, now: int)
    | Clean(ids: set<string>, rows: set<nat>, now: int)

  ghost function Apply(o: Otp, s: Step): Otp {
    match s
    case Create(id, email, mac, flow, now, ttl) => CreateOtp(o, id, email, mac, flow, now, ttl).0
    case Resend(id, mac, now, ttl) => ResendOtp(o, id, mac, now, ttl).0
    case Consume(id, mac, now) => ConsumeOtp(o, id, mac, now).0
    case Clean(ids, rows, now) => DeleteExpired(o, ids, rows, now)
  }

  ghost function After(o: Otp, run: seq<Step>, n: nat): Otp
    requires n <= |run|
  {
    if n == 0 then o else Apply(After(o, run, n - 1), run[n - 1])
  }

  const EMPTY := Otp(map[], map[], 0)

  ghost predicate Monotone(run: seq<Step>) {
    forall i, j :: 0 <= i <= j < |run| ==> run[i].now <= run[j].now
  }

  // ---- What a step did -------------------------------------------------------------

  ghost predicate Created(o: Otp, s: Step, id: string) {
    s.Create? && s.id == id && CreateOtp(o, id, s.email, s.mac, s.flow, s.now, s.ttl).1.Ok?
  }

  ghost predicate Resent(o: Otp, s: Step, id: string) {
    s.Resend? && s.id == id && ResendOtp(o, id, s.mac, s.now, s.ttl).1.Ok?
  }

  // A guess was compared with the challenge's code and did not match.
  ghost predicate Guessed(o: Otp, s: Step, id: string) {
    s.Consume? && s.id == id && ConsumeOtp(o, id, s.mac, s.now).0 != o && ConsumeOtp(o, id, s.mac, s.now).1.Err?
  }

  ghost predicate Accepted(o: Otp, s: Step, id: string) {
    s.Consume? && s.id == id && ConsumeOtp(o, id, s.mac, s.now).1.Ok?
  }

  function Bit(b: bool): nat { if b then 1 else 0 }

  ghost function Sends(run: seq<Step>, id: string, n: nat): nat
    requires n <= |run|
  {
    if n == 0 then 0
    else Sends(run, id, n - 1)
         + Bit(Created(After(EMPTY, run, n - 1), run[n - 1], id) || Resent(After(EMPTY, run, n - 1), run[n - 1], id))
  }

  ghost function WrongGuesses(run: seq<Step>, id: string, n: nat): nat
    requires n <= |run|
  {
    if n == 0 then 0
    else WrongGuesses(run, id, n - 1) + Bit(Guessed(After(EMPTY, run, n - 1), run[n - 1], id))
  }

  ghost function Creations(run: seq<Step>, id: string, n: nat): nat
    requires n <= |run|
  {
    if n == 0 then 0
    else Creations(run, id, n - 1) + Bit(Created(After(EMPTY, run, n - 1), run[n - 1], id))
  }

  ghost function Successes(run: seq<Step>, id: string, n: nat): nat
    requires n <= |run|
  {
    if n == 0 then 0
    else Successes(run, id, n - 1) + Bit(Accepted(After(EMPTY, run, n - 1), run[n - 1], id))
  }

  // ---- Guesses ---------------------------------------------------------------------

  ghost predicate AttemptsBounded(o: Otp) {
    forall id :: id in o.challenges ==> o.challenges[id].attempts <= MAX_ATTEMPTS
  }

  lemma GuessStep(o: Otp, s: Step, id: string)
    requires AttemptsBounded(o)
    ensures AttemptsBounded(Apply(o, s))
    ensures id in Apply(o, s).challenges && id !in o.challenges ==> Created(o, s, id)
    ensures id in o.challenges && id in Apply(o, s).challenges ==>
      !Created(o, s, id)
      && Apply(o, s).challenges[id].attempts == if Resent(o, s, id) then
        0 else o.challenges[id].attempts + Bit(Guessed(o, s, id))
    ensures Guessed(o, s, id) || Accepted(o, s, id) || Resent(o, s, id) ==> id in o.challenges
    ensures Guessed(o, s, id) || Resent(o, s, id) || Created(o, s, id) ==> id in Apply(o, s).challenges
    ensures Created(o, s, id) ==> id !in o.challenges && Apply(o, s).challenges[id].attempts == 0
    ensures Accepted(o, s, id) ==> id !in Apply(o, s).challenges
    ensures Guessed(o, s, id) ==> !Resent(o, s, id) && !Created(o, s, id)
  {
  }

  // At most five wrong guesses per code sent, however sends, guesses, cleanup and repeated
  // challenges interleave, and one success per challenge created.
  lemma {:induction false} GuessesBounded(run: seq<Step>, id: string, n: nat)
    requires n <= |run|
    ensures AttemptsBounded(After(EMPTY, run, n))
    ensures WrongGuesses(run, id, n) <= MAX_ATTEMPTS * Sends(run, id, n)
    ensures id in After(EMPTY, run, n).challenges ==>
      WrongGuesses(run, id, n) + MAX_ATTEMPTS <= MAX_ATTEMPTS * Sends(run, id, n) + After(EMPTY, run,
        n).challenges[id].attempts
    ensures Successes(run, id, n) + Bit(id in After(EMPTY, run, n).challenges) <= Creations(run, id, n)
  {
    hide Apply, Created, Resent, Guessed, Accepted;
    if n > 0 {
      GuessesBounded(run, id, n - 1);
      GuessStep(After(EMPTY, run, n - 1), run[n - 1], id);
    }
  }

  // ---- The hourly quota ------------------------------------------------------------

  // Every send ever recorded, with nothing deleted.
  ghost function Sent(run: seq<Step>, n: nat): map<nat, Send>
    requires n <= |run|
  {
    if n == 0 then map[]
    else
      var o := After(EMPTY, run, n - 1);
      var o2 := Apply(o, run[n - 1]);
      if o.nextRow in o2.sends && o2.nextRow > o.nextRow then Sent(run, n - 1)[o.nextRow := o2.sends[o.nextRow]]
      else Sent(run, n - 1)
  }

  // Sends to an address in the half-open hour that ends at t.
  function Window(sends: map<nat, Send>, email: string, t: int): set<nat> {
    set r | r in sends && sends[r].email == email && t - HOUR < sends[r].at <= t
  }

  ghost predicate QuotaInv(o: Otp, all: map<nat, Send>, now: int) {
    && (forall r :: r in o.sends ==> r in all && all[r] == o.sends[r])
    && (forall r :: r in all ==> r < o.nextRow && all[r].at <= now)
    && (forall r :: r in all && r !in o.sends ==> all[r].at < now - HOUR)
    && (forall email, t :: |Window(all, email, t)| <= SEND_QUOTA)
  }

  lemma QuotaSend(o: Otp, all: map<nat, Send>, id: string, c: Challenge, before: int, now: int)
    requires QuotaInv(o, all, before) && before <= now
    requires |Recent(o.sends, c.email, now - HOUR)| < SEND_QUOTA
    ensures QuotaInv(Record(o, id, c, now), all[o.nextRow := Send(c.email, now)], now)
  {
    var row := o.nextRow;
    var all2 := all[row := Send(c.email, now)];
    forall email, t ensures |Window(all2, email, t)| <= SEND_QUOTA {
      if email == c.email && now <= t {
        var recent := Recent(o.sends, email, now - HOUR);
        SubsetSize(Window(all2, email, t), recent + {row});
      } else {
        SubsetSize(Window(all2, email, t), Window(all, email, t));
      }
    }
  }

  lemma QuotaStep(o: Otp, all: map<nat, Send>, s: Step, before: int)
    requires QuotaInv(o, all, before) && before <= s.now
    ensures var o2 := Apply(o, s);
            QuotaInv(o2, if o.nextRow in o2.sends && o2.nextRow > o.nextRow then
              all[o.nextRow := o2.sends[o.nextRow]] else all, s.now)
  {
    match s
    case Create(id, email, mac, flow, now, ttl) =>
      if CreateOtp(o, id, email, mac, flow, now, ttl).1.Ok? {
        QuotaSend(o, all, id, Challenge(email, mac, flow, 0, 1, now, now, now + ttl), before, now);
      }
    case Resend(id, mac, now, ttl) =>
      if ResendOtp(o, id, mac, now, ttl).1.Ok? {
        QuotaSend(o, all, id, Apply(o, s).challenges[id], before, now);
      }
    case Consume(id, mac, now) =>
    case Clean(ids, rows, now) =>
  }

  lemma {:induction false} QuotaRun(run: seq<Step>, n: nat, start: int)
    requires n <= |run| && Monotone(run) && (n > 0 ==> start <= run[0].now)
    ensures QuotaInv(After(EMPTY, run, n), Sent(run, n), if n == 0 then start else run[n - 1].now)
  {
    if n > 0 {
      QuotaRun(run, n - 1, start);
      QuotaStep(After(EMPTY, run, n - 1), Sent(run, n - 1), run[n - 1], if n == 1 then start else run[n - 2].now);
    }
  }

  // No address is sent more than five codes in any hour (t-1h, t].
  lemma QuotaHolds(run: seq<Step>, n: nat, email: string, t: int)
    requires n <= |run| && Monotone(run)
    ensures |Window(Sent(run, n), email, t)| <= SEND_QUOTA
  {
    QuotaRun(run, n, if n == 0 then 0 else run[0].now);
  }

  // ---- What a challenge answers ------------------------------------------------------------------

  // What has become of a challenge by its own history, with nothing deleted: the code it waits for
  // and until when, when that was sent, and the wrong guesses since.
  datatype Tale = Tale(email: string, mac: Mac, flow: OtpFlow, until: int, sent: int, wrong: nat)

  ghost function Continued(tale: Option<Tale>, o: Otp, s: Step, id: string): Option<Tale> {
    if Created(o, s, id) then Some(Tale(s.email, s.mac, s.flow, s.now + s.ttl, s.now, 0))
    else if tale.Some? && Resent(o, s, id) then
      Some(tale.value.(mac := s.mac, until := s.now + s.ttl, sent := s.now, wrong := 0))
    else if tale.Some? && Guessed(o, s, id) then Some(tale.value.(wrong := tale.value.wrong + 1))
    else if Accepted(o, s, id) then None
    else tale
  }

  ghost function Story(run: seq<Step>, id: string, n: nat): Option<Tale>
    requires n <= |run|
  {
    if n == 0 then None else Continued(Story(run, id, n - 1), After(EMPTY, run, n - 1), run[n - 1], id)
  }

  // The row tells the story, unless the challenge has expired.
  ghost predicate Told(o: Otp, tale: Option<Tale>, id: string, now: int) {
    if id in o.challenges then
      var c := o.challenges[id];
      tale == Some(Tale(c.email, c.mac, c.flow, c.expiresAt, c.sentAt, c.attempts))
    else tale.Some? ==> tale.value.until < now
  }

  lemma SendTold(o: Otp, s: Step, id: string, tale: Option<Tale>, before: int)
    requires Told(o, tale, id, before) && before <= s.now && (s.Create? || s.Resend?)
    ensures Told(Apply(o, s), Continued(tale, o, s, id), id, s.now)
  {
    hide ConsumeOtp, Recent, Oldest;
  }

  lemma OtherTold(o: Otp, s: Step, id: string, tale: Option<Tale>, before: int)
    requires Told(o, tale, id, before) && before <= s.now && (s.Consume? || s.Clean?)
    ensures Told(Apply(o, s), Continued(tale, o, s, id), id, s.now)
  {
    hide CreateOtp, ResendOtp;
  }

  lemma {:induction false} StoryTold(run: seq<Step>, id: string, n: nat, now: int)
    requires n <= |run| && Monotone(run) && (n > 0 ==> run[n - 1].now <= now)
    ensures Told(After(EMPTY, run, n), Story(run, id, n), id, now)
  {
    if n > 0 {
      StoryTold(run, id, n - 1, run[n - 1].now);
      var o, s, tale := After(EMPTY, run, n - 1), run[n - 1], Story(run, id, n - 1);
      if s.Create? || s.Resend? {
        SendTold(o, s, id, tale, s.now);
      } else {
        OtherTold(o, s, id, tale, s.now);
      }
      hide Apply, Continued;
    }
  }

  // Over every run, cleanup included: a code is accepted exactly if it is the last one sent, less
  // than five guesses have missed it and its time is not over; then its flow resumes.
  lemma ChallengesAnswer(run: seq<Step>, id: string, guess: Mac, n: nat, now: int)
    requires n <= |run| && Monotone(run) && (n > 0 ==> run[n - 1].now <= now)
    ensures var o, tale := After(EMPTY, run, n), Story(run, id, n);
      var waits := tale.Some? && now < tale.value.until && tale.value.wrong < 5;
      && (ConsumeOtp(o, id, guess, now).1.Ok? <==> waits && guess == tale.value.mac)
      && (ConsumeOtp(o, id, guess, now).1.Ok? ==> ConsumeOtp(o, id, guess, now).1.value == tale.value.flow)
      && (OtpFlowOf(o, id, now).Ok? <==> waits)
      && (waits ==> OtpFlowOf(o, id, now).value == (tale.value.flow, tale.value.until))
      && (ConsumeOtp(o, id, guess, now).1 == Err(InvalidCode) <==>
            waits && guess != tale.value.mac && tale.value.wrong < 4)
  {
    StoryTold(run, id, n, now);
    hide After, Story;
  }

  // All sends to an address after a given time, with nothing deleted.
  ghost function SentSince(run: seq<Step>, n: nat, email: string, after: int): set<nat>
    requires n <= |run|
  {
    set r | r in Sent(run, n) && Sent(run, n)[r].email == email && after < Sent(run, n)[r].at
  }

  lemma RecentIsAll(run: seq<Step>, n: nat, email: string, now: int)
    requires n <= |run| && Monotone(run) && (n > 0 ==> run[n - 1].now <= now)
    ensures Recent(After(EMPTY, run, n).sends, email, now - HOUR) == SentSince(run, n, email, now - HOUR)
  {
    QuotaRun(run, n, if n == 0 then now else run[0].now);
    hide After, Sent;
  }

  // A code is sent for a new challenge exactly while fewer than five were sent to the address in
  // the last hour; and again for one that lives, a minute after the last, under the same quota.
  lemma SendsExactly(run: seq<Step>, s: Step, n: nat)
    requires n <= |run| && Monotone(run) && (n > 0 ==> run[n - 1].now <= s.now)
    ensures var o := After(EMPTY, run, n);
      && (s.Create? && s.id !in o.challenges ==>
            (Created(o, s, s.id) <==> |SentSince(run, n, s.email, s.now - HOUR)| < 5))
      && (s.Resend? ==>
            var tale := Story(run, s.id, n);
            Resent(o, s, s.id) <==>
              && tale.Some? && s.now < tale.value.until && tale.value.sent + MINUTE <= s.now
              && |SentSince(run, n, tale.value.email, s.now - HOUR)| < 5)
  {
    hide After, Sent, Story, SentSince, Oldest, Recent, Created, Resent, ResendOtp, CreateOtp, Monotone;
    var o := After(EMPTY, run, n);
    SentNow(o, s);
    if s.Create? {
      RecentIsAll(run, n, s.email, s.now);
    } else if s.Resend? {
      StoryTold(run, s.id, n, s.now);
      if s.id in o.challenges {
        RecentIsAll(run, n, o.challenges[s.id].email, s.now);
      }
    }
  }

  lemma SentNow(o: Otp, s: Step)
    ensures s.Create? && s.id !in o.challenges ==>
      (Created(o, s, s.id) <==> |Recent(o.sends, s.email, s.now - HOUR)| < 5)
    ensures s.Resend? ==>
      (Resent(o, s, s.id) <==>
         && s.id in o.challenges && s.now < o.challenges[s.id].expiresAt && o.challenges[s.id].sentAt + MINUTE <= s.now
         && |Recent(o.sends, o.challenges[s.id].email, s.now - HOUR)| < 5)
  {
    hide Recent, Oldest;
  }

  // ---- Retry times -----------------------------------------------------------------

  lemma RecentBounded(run: seq<Step>, n: nat, email: string, now: int)
    requires n <= |run| && Monotone(run) && (n > 0 ==> run[n - 1].now <= now)
    ensures |Recent(After(EMPTY, run, n).sends, email, now - HOUR)| <= SEND_QUOTA
  {
    QuotaRun(run, n, if n == 0 then now else run[0].now);
    SubsetSize(Recent(After(EMPTY, run, n).sends, email, now - HOUR), Window(Sent(run, n), email, now));
  }

  // When a resend is refused for the quota, waiting exactly the reported time with no other
  // send makes the quota check pass, and waiting any less does not.
  lemma QuotaRetryExact(run: seq<Step>, n: nat, id: string, mac: Mac, now: int, ttl: int, wait: nat)
    requires n <= |run| && Monotone(run) && (n > 0 ==> run[n - 1].now <= now)
    requires var o := After(EMPTY, run, n);
      && id in o.challenges && now < o.challenges[id].expiresAt && o.challenges[id].sentAt + MINUTE <= now
      && |Recent(o.sends, o.challenges[id].email, now - HOUR)| >= SEND_QUOTA
    ensures var o := After(EMPTY, run, n);
      var refused := ResendOtp(o, id, mac, now, ttl).1;
      && refused.Err? && refused.error.ResendRejected? && refused.error.retryAfter > 0
      && (|Recent(o.sends, o.challenges[id].email, now + wait - HOUR)| < SEND_QUOTA <==>
        refused.error.retryAfter <= wait)
  {
    var o := After(EMPTY, run, n);
    var email := o.challenges[id].email;
    var recent := Recent(o.sends, email, now - HOUR);
    var oldest := Oldest(o.sends, recent);
    var later := Recent(o.sends, email, now + wait - HOUR);
    RecentBounded(run, n, email, now);
    var r :| r in recent && o.sends[r].at == oldest;
    if oldest + HOUR - now <= wait {
      SubsetSize(later, recent - {r});
    } else {
      assert later == recent;
    }
  }

  // The cooldown refusal is exact in the same way: it is given with the remaining wait until
  // that wait is over, and not a moment longer.
  lemma CooldownRetryExact(o: Otp, id: string, mac: Mac, now: int, ttl: int, wait: nat)
    requires id in o.challenges && now < o.challenges[id].sentAt + MINUTE && now + wait < o.challenges[id].expiresAt
    ensures var retry := o.challenges[id].sentAt + MINUTE - now;
      && retry > 0 && ResendOtp(o, id, mac, now, ttl).1 == Err(ResendRejected(retry))
      && (wait < retry <==> ResendOtp(o, id, mac, now + wait, ttl).1 == Err(ResendRejected(retry - wait)))
  {
  }

  // ---- Dead challenges -------------------------------------------------------------

  predicate Unusable(o: Otp, id: string, now: int) {
    id !in o.challenges || o.challenges[id].expiresAt <= now
  }

  lemma UnusableStep(o: Otp, s: Step, id: string)
    requires Unusable(o, id, s.now) && !Created(o, s, id)
    ensures Unusable(Apply(o, s), id, s.now)
    ensures !Resent(o, s, id) && !Accepted(o, s, id) && !Guessed(o, s, id) && OtpFlowOf(o, id, s.now).Err?
  {
  }

  ghost predicate NotRecreated(run: seq<Step>, id: string, i: nat, j: nat)
    requires j <= |run|
  {
    forall k :: i <= k < j ==> !Created(After(EMPTY, run, k), run[k], id)
  }

  // An expired or consumed challenge is never usable again: no later code is compared with it,
  // accepted or sent for it, and its flow is not shown.
  lemma {:induction false} DeadStaysDead(run: seq<Step>, id: string, i: nat, j: nat)
    requires i <= j < |run| && Monotone(run)
    requires Unusable(After(EMPTY, run, i), id, run[i].now) && NotRecreated(run, id, i, j + 1)
    ensures var o := After(EMPTY, run, j);
      && Unusable(o, id, run[j].now) && OtpFlowOf(o, id, run[j].now).Err?
      && !Resent(o, run[j], id) && !Accepted(o, run[j], id) && !Guessed(o, run[j], id)
    decreases j
  {
    hide Apply, Created, Resent, Accepted, Guessed, OtpFlowOf;
    if i < j {
      DeadStaysDead(run, id, i, j - 1);
      UnusableStep(After(EMPTY, run, j - 1), run[j - 1], id);
    }
    UnusableStep(After(EMPTY, run, j), run[j], id);
  }

  // A challenge that used up its attempts is different: a resend makes it usable again, exactly
  // when the challenge has not expired, its cooldown is over and the address has quota left.
  lemma ResendRevivesExhausted(o: Otp, id: string, mac: Mac, now: int, ttl: int)
    requires id in o.challenges && o.challenges[id].attempts >= MAX_ATTEMPTS && ttl > 0
    ensures ConsumeOtp(o, id, mac, now).1 == Err(InvalidChallenge)
    ensures ConsumeOtp(ResendOtp(o, id, mac, now, ttl).0, id, mac, now).1.Ok?
      <==> now < o.challenges[id].expiresAt && o.challenges[id].sentAt + MINUTE <= now
           && |Recent(o.sends, o.challenges[id].email, now - HOUR)| < SEND_QUOTA
  {
  }

  lemma WrongGuess(o: Otp, id: string, bad: Mac, now: int)
    requires id in o.challenges && now < o.challenges[id].expiresAt && o.challenges[id].attempts < MAX_ATTEMPTS
    requires o.challenges[id].mac != bad
    ensures var c := o.challenges[id];
      Apply(o, Consume(id, bad, now)) == o.(challenges := o.challenges[id := c.(attempts := c.attempts + 1)])
  {
  }

  // Such a challenge is reached by five wrong guesses at a new one; a minute later a resend
  // lets the guessing go on.
  lemma ExhaustedRevived(id: string, email: string, good: Mac, bad: Mac, flow: OtpFlow)
    requires good != bad
    ensures
      var guess := Consume(id, bad, 1);
      var run := [Create(id, email, good, flow, 0, 10 * MINUTE), guess, guess, guess, guess, guess,
                  Resend(id, good, MINUTE, 10 * MINUTE), Consume(id, good, MINUTE)];
      && Monotone(run)
      && id in After(EMPTY, run, 6).challenges && After(EMPTY, run, 6).challenges[id].attempts == MAX_ATTEMPTS
      && Resent(After(EMPTY, run, 6), run[6], id) && Accepted(After(EMPTY, run, 7), run[7], id)
  {
    var guess := Consume(id, bad, 1);
    var run := [Create(id, email, good, flow, 0, 10 * MINUTE), guess, guess, guess, guess, guess,
                Resend(id, good, MINUTE, 10 * MINUTE), Consume(id, good, MINUTE)];
    var c := Challenge(email, good, flow, 0, 1, 0, 0, 10 * MINUTE);
    assert After(EMPTY, run, 1) == Otp(map[id := c], map[0 := Send(email, 0)], 1);
    FiveGuesses(run, id, c, bad, email);
    var o := After(EMPTY, run, 6);
    assert Recent(o.sends, email, MINUTE - HOUR) == {0};
    ResendRevivesExhausted(o, id, good, MINUTE, 10 * MINUTE);
    hide ResendOtp, Recent;
    assert Resent(o, run[6], id) by { ResendAccepted(o, id, good, MINUTE, 10 * MINUTE); }
    assert After(EMPTY, run, 7) == Apply(o, run[6]);
  }

  lemma ResendAccepted(o: Otp, id: string, mac: Mac, now: int, ttl: int)
    requires id in o.challenges && o.challenges[id].attempts >= MAX_ATTEMPTS
    ensures ConsumeOtp(ResendOtp(o, id, mac, now, ttl).0, id, mac, now).1.Ok? ==> ResendOtp(o, id, mac, now, ttl).1.Ok?
  {
  }

  lemma FiveGuesses(run: seq<Step>, id: string, c: Challenge, bad: Mac, email: string)
    requires |run| >= 6 && forall k :: 1 <= k < 6 ==> run[k] == Consume(id, bad, 1)
    requires After(EMPTY, run, 1) == Otp(map[id := c], map[0 := Send(email, 0)], 1)
    requires c.mac != bad && c.attempts == 0 && 1 < c.expiresAt
    ensures After(EMPTY, run, 6) == Otp(map[id := c.(attempts := 5)], map[0 := Send(email, 0)], 1)
  {
    for k := 1 to 6
      invariant After(EMPTY, run, k) == Otp(map[id := c.(attempts := k - 1)], map[0 := Send(email, 0)], 1)
    {
      var o := After(EMPTY, run, k);
      WrongGuess(o, id, bad, 1);
      assert o.challenges[id := c.(attempts := k)] == map[id := c.(attempts := k)];
      assert After(EMPTY, run, k + 1) == Apply(o, run[k]);
    }
  }
}
