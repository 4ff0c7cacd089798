// internal/refresh/service.go: the exchange of one refresh token, interleaved with whatever the
// rest of the system does between its storage calls.
module RefreshService {
  import opened Common
  import opened RefreshFamilies
  import opened FlowTables
  import opened StateStore
  import opened RefreshTheorems
  import opened RefreshReplay
  import opened RefreshRules
  import opened Interference

  datatype FailureCode = InvalidGrantCode | InvalidScope | Temporary

  datatype Outcome =
    | Issued(accessExpiry: int, idExpiry: int, token: RefreshMaterial, emailVerified: bool)
    | Failed(code: FailureCode, retryAfter: string)

  datatype ErrorKind = TemporaryError | RateLimitError | ConfigurationError | UnauthorizedError | OtherError

  datatype RotationReply = Refreshed(credential: Credential) | NoReply | RotationError(kind: ErrorKind, retry: string)

  datatype IdentityReply = Known(subject: string, emails: seq<Email>) | IdentityError(kind: ErrorKind, retry: string)

  // What the upstream provider and the token signer answer during one request.
  datatype Upstream = Upstream(
    configured: bool, rotation: RotationReply, first: IdentityReply, second: IdentityReply, encodes: bool, signs: bool)

  datatype Decision = Allowed | Denied | Unavailable

  // What policy and configuration say about the grant at this moment.
  datatype Policy = Policy(client: Decision, refreshEnabled: bool, offlineAllowed: bool, scopeAllowed: bool,
    user: Decision, connectorType: Option<string>)

  datatype Screening = Passes | Refuses(code: FailureCode) | Revokes(reason: string)

  const CLAIM_TTL := 30 * SECOND
  const BUSY_WAIT := SECOND
  const BUSY_POLL := 50 * MILLISECOND
  const MAX_MATERIAL_ATTEMPTS := 3

  // The family is out of this worker's hands: gone, revoked, or no longer claimed by it.
  predicate Settled(f: Families, sid: string, id: string) {
    Dead(f, sid) || !HoldsClaim(f, sid, id)
  }

  function Unclaimed1(f: Families, sid: string): Families {
    if sid in f.grants then f.(grants := f.grants[sid := f.grants[sid].(claim := None, started := false)]) else f
  }

  // Some email of the identity is the grant's, and the subject is the grant's.
  predicate Vouches(i: IdentityReply, p: Profile) {
    i.Known? && i.subject == p.subject && exists k :: 0 <= k < |i.emails| && i.emails[k].address == p.email
  }

  // The tokens of a successful exchange and the rows it left behind: the refresh token is issued
  // now, for the idle time to live of the family as far as the family lasts.
  predicate SafelyIssued(f: Families, o: Outcome, h: Digest, sid: string, bound: int, now: int) {
    && o.Issued?
    && var n := o.token.handleHash;
    && Live(f, n) && f.tokens[n].tokenHash == o.token.tokenHash && f.tokens[n].sid == sid
    && Consumed(f, h) && f.tokens[h].replacement == Some(o.token.tokenHash) && f.tokens[h].sid == sid
    && sid in f.grants && f.grants[sid].revoked.None?
    && o.accessExpiry <= f.tokens[n].expiresAt && o.idExpiry <= f.tokens[n].expiresAt
    && f.tokens[n].issuedAt == now && f.tokens[h].consumedAt == Some(now)
    && f.tokens[n].expiresAt == Min(now + f.grants[sid].profile.idleTtl, f.grants[sid].absoluteExpiry)
    && f.grants[sid].absoluteExpiry <= bound
  }

  // What connector-backed families promise on top: the new token opens this credential, and the
  // family knows when it ends.
  predicate CredentialCarried(f: Families, o: Outcome, sid: string, credential: Credential) {
    && o.Issued? && sid in f.grants
    && var g := f.grants[sid];
    && g.claim.None? && !g.started
    && (g.upstream.access.Some? ==> o.accessExpiry <= g.upstream.access.value && o.idExpiry <= g.upstream.access.value)
    && g.credential.Some?
    && DecryptCredential(o.token.secret, sid, g.profile.clientId, g.profile.connectorId, g.credential.value)
         == Some(credential)
    && g.upstream.access == credential.accessExpiry && g.upstream.refresh == credential.refreshExpiry
    && g.upstream.nonExpiring == credential.accessNonExpiring
  }

  function StorageError(e: StoreError): Outcome {
    if e == InvalidGrant || e == RefreshReplay || e == CredentialIndeterminate then Failed(InvalidGrantCode, "")
    else if e == RefreshBusy then Failed(Temporary, "1")
    else Failed(Temporary, "")
  }

  predicate Misconfigured(reply: RotationReply) {
    reply.RotationError? && reply.kind == ConfigurationError
  }

  // Between two tallies of one claim: marks as many as credentials were sent, at most one, and
  // an abort only after a configuration error.
  predicate Conducted(before: Tally, after: Tally, sent: int, misconfigured: bool) {
    Disciplined(before, after, misconfigured) && after.marks == before.marks + sent
  }

  // The upstream provider, and the credentials it was asked to rotate.
  class Provider {
    const answers: Upstream
    var requests: seq<Credential>
    // How much of the store's record was there at the last request.
    ghost var asked: nat

    constructor (answers: Upstream)
      ensures this.answers == answers && requests == []
    {
      this.answers, requests, asked := answers, [], 0;
    }

    method Refresh(credential: Credential, ghost store: Store) returns (reply: RotationReply)
      modifies this
      ensures reply == answers.rotation && requests == old(requests) + [credential] && asked == |store.history|
    {
      requests, asked := requests + [credential], |store.history|;
      return answers.rotation;
    }
  }

  class Service {
    const store: Store
    const env: Environment
    const provider: Provider
    const accessTtl: int
    const idTtl: int
    const verificationMode: string

    constructor (
      store: Store, env: Environment, provider: Provider, accessTtl: int, idTtl: int, verificationMode: string)
      ensures this.store == store && this.env == env && this.provider == provider
      ensures this.accessTtl == accessTtl && this.idTtl == idTtl && this.verificationMode == verificationMode
    {
      this.store, this.env, this.provider := store, env, provider;
      this.accessTtl, this.idTtl, this.verificationMode := accessTtl, idTtl, verificationMode;
    }

    // The successful marks and aborts on record under a claim id.
    ghost function TallyNow(id: string): Tally
      reads store`origin, store`history
    {
      TallyOf(store.origin, store.history, id, |store.history|)
    }

    // Nobody else does anything any more, and storage works.
    ghost predicate Alone()
      reads env`turns
    {
      env.turns == []
    }

    // Time passes and others act, while this worker holds its claim.
    method Pause(ghost c: Context, ghost marked: bool) returns (turn: Turn)
      requires store.Recorded()
      requires ForeignTurns(env.turns, c.sid, c.id, c.h) && Claiming(store.Family(), c, marked)
      modifies env, store`grants, store`tokens, store`actions, store`history
      ensures store.Recorded() && old(store.history) <= store.history && TallyNow(c.id) == old(TallyNow(c.id))
      ensures ForeignTurns(env.turns, c.sid, c.id, c.h) && Claiming(store.Family(), c, marked)
      ensures env.now >= old(env.now)
      ensures NoFailures(old(env.turns)) ==> NoFailures(env.turns) && !turn.fails
      ensures Undisturbed(old(env.turns)) ==> Undisturbed(env.turns) && store.Family() == old(store.Family())
      ensures forall k :: |old(store.history)| <= k < |store.history| ==> Foreign(store.history[k], c.sid, c.id, c.h)
      ensures old(Alone()) ==>
        Alone() && env.now == old(env.now) && store.Family() == old(store.Family()) && !turn.fails
    {
      hide After, TallyOf;
      turn := env.Yield(store, 0);
      assert ForeignSteps(turn.steps, c);
      ForeignTally(store.origin, old(store.history), turn.steps, |turn.steps|, c);
      ClaimingRun(old(store.Family()), turn.steps, |turn.steps|, c, marked);
      NothingDone(old(store.Family()), turn.steps);
    }

    // The same, before the claim is taken. A token that was used before is still known as such.
    method Wait(ghost c: Context, ghost m: RefreshMaterial, atLeast: nat) returns (turn: Turn)
      requires store.Recorded() && ForeignTurns(env.turns, c.sid, c.id, c.h) && Unclaimed(store.Family(), c)
      modifies env, store`grants, store`tokens, store`actions, store`history
      ensures store.Recorded() && old(store.history) <= store.history && TallyNow(c.id) == old(TallyNow(c.id))
      ensures ForeignTurns(env.turns, c.sid, c.id, c.h) && Unclaimed(store.Family(), c)
      ensures env.now >= old(env.now) + atLeast
      ensures env.now + Lag(env.turns) == old(env.now) + Lag(old(env.turns)) + atLeast
      ensures NoFailures(old(env.turns)) ==> NoFailures(env.turns) && !turn.fails
      ensures Undisturbed(old(env.turns)) ==> Undisturbed(env.turns) && store.Family() == old(store.Family())
      ensures ReplaySeen(old(store.Family()), c, m) ==> ReplaySeen(store.Family(), c, m)
      ensures old(Alone()) ==>
        Alone() && env.now == old(env.now) + atLeast && store.Family() == old(store.Family()) && !turn.fails
    {
      hide After, TallyOf;
      turn := env.Yield(store, atLeast);
      assert ForeignSteps(turn.steps, c);
      ForeignTally(store.origin, old(store.history), turn.steps, |turn.steps|, c);
      UnclaimedRun(old(store.Family()), turn.steps, |turn.steps|, c);
      NothingDone(old(store.Family()), turn.steps);
      if ReplaySeen(old(store.Family()), c, m) {
        ReplayRun(old(store.Family()), turn.steps, |turn.steps|, c, m);
      }
    }

    method RevokeFamily(ghost c: Context, ghost marked: bool, sid: string, clientId: string, reason: string)
      returns (o: Outcome)
      requires store.Recorded()
      requires ForeignTurns(env.turns, c.sid, c.id, c.h) && Claiming(store.Family(), c, marked)
      requires sid == c.sid && clientId == c.profile.clientId
      modifies env, store`grants, store`tokens, store`actions, store`history
      ensures store.Recorded() && old(store.history) <= store.history && TallyNow(c.id) == old(TallyNow(c.id))
      ensures env.now >= old(env.now)
      ensures o.Failed? && (marked ==> Fenced(store.Family(), sid, c.id))
      ensures NoFailures(old(env.turns)) ==> Dead(store.Family(), sid) && o.code == InvalidGrantCode
    {
      hide After, TallyOf;
      var turn := Pause(c, marked);
      if turn.fails {
        return Failed(Temporary, "");
      }
      OneMore(store.origin, store.history, Revoke(sid, clientId, reason, env.now), c.id);
      store.RevokeGrant(sid, clientId, reason, env.now);
      return Failed(InvalidGrantCode, "");
    }

    method ReleaseClaim(ghost c: Context, sid: string, id: string)
      requires store.Recorded()
      requires ForeignTurns(env.turns, c.sid, c.id, c.h) && Claiming(store.Family(), c, false)
      requires sid == c.sid && id == c.id
      modifies env, store`grants, store`tokens, store`actions, store`history
      ensures store.Recorded() && old(store.history) <= store.history && TallyNow(c.id) == old(TallyNow(c.id))
      ensures env.now >= old(env.now)
      ensures NoFailures(old(env.turns)) ==> !HoldsClaim(store.Family(), sid, id)
      ensures NoFailures(old(env.turns)) && Undisturbed(old(env.turns)) ==>
        store.Family() == ReleaseRefreshClaim(old(store.Family()), sid, id)
    {
      hide After, TallyOf;
      var turn := Pause(c, false);
      if !turn.fails {
        OneMore(store.origin, store.history, Release(sid, id), c.id);
        store.ReleaseRefreshClaim(sid, id);
      }
    }

    // The mark, on record as one more under this claim exactly if it succeeds.
    method MarkStarted(ghost c: Context, sid: string, id: string) returns (marked: Result<(), StoreError>)
      requires store.Recorded() && Claiming(store.Family(), c, false) && sid == c.sid && id == c.id
      modifies store`grants, store`history
      ensures store.Recorded() && old(store.history) <= store.history
      ensures (store.Family(), marked)
        == RefreshFamilies.MarkUpstreamRefreshStarted(old(store.Family()), sid, id, env.now)
      ensures marked.Ok? ==>
        && Claiming(store.Family(), c, true)
        && TallyNow(id) == old(TallyNow(id)).(marks := old(TallyNow(id)).marks + 1)
      ensures marked.Err? ==> store.Family() == old(store.Family()) && TallyNow(id) == old(TallyNow(id))
    {
      hide After, TallyOf, Claiming, RefreshFamilies.MarkUpstreamRefreshStarted;
      ghost var before := store.Family();
      OneMore(store.origin, store.history, Mark(sid, id, env.now), id);
      marked := store.MarkUpstreamRefreshStarted(sid, id, env.now);
      if marked.Ok? {
        MarkedClaim(before, sid, id, env.now, c);
      } else {
        RefusedMark(before, sid, id, env.now);
      }
    }

    // The abort after a configuration error.
    method AbortStarted(ghost c: Context, sid: string, id: string, retry: string) returns (o: Outcome)
      requires store.Recorded()
      requires ForeignTurns(env.turns, c.sid, c.id, c.h) && Claiming(store.Family(), c, true)
      requires sid == c.sid && id == c.id
      modifies env, store`grants, store`tokens, store`actions, store`history
      ensures store.Recorded() && old(store.history) <= store.history
      ensures env.now >= old(env.now)
      ensures TallyNow(id) == old(TallyNow(id))
        || TallyNow(id) == old(TallyNow(id)).(aborts := old(TallyNow(id)).aborts + 1)
      ensures o.Failed? && o.code == Temporary
      ensures NoFailures(old(env.turns)) ==> Settled(store.Family(), sid, id)
      ensures NoFailures(old(env.turns)) && Undisturbed(old(env.turns)) ==>
        store.Family() == RefreshFamilies.AbortUpstreamRefresh(old(store.Family()), sid, id).0
    {
      hide After, TallyOf, Claiming, Settled, RefreshFamilies.AbortUpstreamRefresh;
      var turn := Pause(c, true);
      if turn.fails {
        return Failed(Temporary, "");
      }
      AbortEnds(store.Family(), sid, id, c);
      OneMore(store.origin, store.history, Abort(sid, id), id);
      var aborted := store.AbortUpstreamRefresh(sid, id);
      return Failed(Temporary, if aborted.Err? then "" else retry);
    }

    // What the provider's answer to a rotation means. A doubtful one ends the family; only a
    // configuration error leaves it to be tried again.
    method TakeAnswer(
      ghost c: Context, sid: string, id: string, clientId: string, stored: Credential, reply: RotationReply)
      returns (failure: Option<Outcome>, credential: Credential)
      requires store.Recorded()
      requires ForeignTurns(env.turns, c.sid, c.id, c.h) && Claiming(store.Family(), c, true)
      requires sid == c.sid && id == c.id && clientId == c.profile.clientId
      modifies env, store`grants, store`tokens, store`actions, store`history
      ensures store.Recorded() && old(store.history) <= store.history
      ensures env.now >= old(env.now)
      ensures
        || TallyNow(id) == old(TallyNow(id))
        || (Misconfigured(reply) && TallyNow(id) == old(TallyNow(id)).(aborts := old(TallyNow(id)).aborts + 1))
      ensures failure.None? <==> reply.Refreshed?
      ensures failure.None? ==>
        && store.Family() == old(store.Family()) && env.turns == old(env.turns) && env.now == old(env.now)
        && credential == Renewed(stored, reply.credential)
      ensures failure.Some? ==> failure.value.Failed? && (Misconfigured(reply) || Fenced(store.Family(), sid, id))
      ensures NoFailures(old(env.turns)) && failure.Some? ==>
        && Settled(store.Family(), sid, id)
        && (if Misconfigured(reply) then failure.value.code == Temporary
            else Dead(store.Family(), sid) && failure.value.code == InvalidGrantCode)
      ensures NoFailures(old(env.turns)) && Undisturbed(old(env.turns)) && Misconfigured(reply) ==>
        store.Family() == RefreshFamilies.AbortUpstreamRefresh(old(store.Family()), sid, id).0
    {
      hide NoFailures, Undisturbed, ForeignTurns;
      hide Claiming, Settled, Fenced, Dead, RefreshFamilies.AbortUpstreamRefresh, TallyNow, StateStore.Store.Recorded;
      credential := stored;
      if reply.RotationError? && reply.kind == ConfigurationError {
        var o := AbortStarted(c, sid, id, reply.retry);
        return Some(o), credential;
      }
      if !reply.Refreshed? {
        var o := RevokeFamily(c, true, sid, clientId, "indeterminate_upstream_credential");
        DeadSettles(store.Family(), sid, id);
        return Some(o), credential;
      }
      credential := reply.credential;
      if credential.refreshToken == "" {
        credential := credential.(refreshToken := stored.refreshToken);
      }
      return None, credential;
    }

    // The stored credential goes to the provider, with what is on record by then.
    method Send(ghost id: string, credential: Credential) returns (reply: RotationReply)
      modifies provider
      ensures reply == provider.answers.rotation && provider.requests == old(provider.requests) + [credential]
      ensures provider.asked == |store.history|
      ensures TallyOf(store.origin, store.history, id, provider.asked) == TallyNow(id)
    {
      reply := provider.Refresh(credential, store);
    }

    // refreshCredential: mark the family, send the stored credential once, and deal with the answer.
    method RefreshCredential(ghost c: Context, sid: string, id: string, clientId: string, stored: Credential)
      returns (failure: Option<Outcome>, credential: Credential)
      requires store.Recorded()
      requires ForeignTurns(env.turns, c.sid, c.id, c.h) && Claiming(store.Family(), c, false)
      requires sid == c.sid && id == c.id && clientId == c.profile.clientId
      modifies env, store`grants, store`tokens, store`actions, store`history, provider
      ensures store.Recorded() && old(store.history) <= store.history
      ensures env.now >= old(env.now)
      ensures provider.requests == old(provider.requests) || provider.requests == old(provider.requests) + [stored]
      // The mark was on record before the credential was sent.
      ensures provider.requests != old(provider.requests) ==>
        && provider.asked <= |store.history|
        && TallyOf(store.origin, store.history, id, provider.asked).marks == old(TallyNow(id)).marks + 1
      ensures Conducted(old(TallyNow(id)), TallyNow(id), |provider.requests| - |old(provider.requests)|,
                        Misconfigured(provider.answers.rotation))
      ensures failure.None? ==>
        ForeignTurns(env.turns, c.sid, c.id, c.h) && Claiming(store.Family(), c, true) && env.now >= old(env.now)
      ensures failure.None? ==>
        && provider.requests != old(provider.requests) && provider.answers.rotation.Refreshed?
        && credential == Renewed(stored, provider.answers.rotation.credential)
      ensures failure.Some? ==> failure.value.Failed?
      ensures failure.Some? && provider.requests != old(provider.requests) ==>
        Misconfigured(provider.answers.rotation) || Fenced(store.Family(), sid, id)
      ensures NoFailures(old(env.turns)) ==> NoFailures(env.turns) || failure.Some?
      ensures NoFailures(old(env.turns)) && failure.Some? ==> Settled(store.Family(), sid, id)
      ensures NoFailures(old(env.turns)) && failure.Some? ==>
        if failure.value.code == Temporary then
          provider.requests != old(provider.requests) && Misconfigured(provider.answers.rotation)
        else Dead(store.Family(), sid) && failure.value.code == InvalidGrantCode
      ensures (NoFailures(old(env.turns)) && Undisturbed(old(env.turns)) && failure.Some?
               && failure.value.code == Temporary) ==>
        store.Family() == Unclaimed1(old(store.Family()), sid)
      ensures Undisturbed(old(env.turns)) && failure.None? ==> Undisturbed(env.turns)
      ensures old(Alone()) && CanMark(old(store.Family()), sid, id, old(env.now)) ==>
        && (failure.None? <==> provider.answers.rotation.Refreshed?)
        && (failure.None? ==>
              && Alone() && env.now == old(env.now)
              && store.Family() == MarkedIf(true, old(store.Family()), sid, id, env.now))
    {
      hide NoFailures, Undisturbed, ForeignTurns;
      hide Claiming, Settled, Fenced, Misconfigured, RefreshFamilies.AbortUpstreamRefresh,
        RefreshFamilies.MarkUpstreamRefreshStarted, TallyNow, StateStore.Store.Recorded;
      credential := stored;
      var turn := Pause(c, false);
      if turn.fails {
        return Some(Failed(Temporary, "")), credential;
      }
      ghost var before, markedAt := store.Family(), env.now;
      var marked := MarkStarted(c, sid, id);
      if marked.Err? {
        var o := RevokeFamily(c, false, sid, clientId, "indeterminate_upstream_credential");
        DeadSettles(store.Family(), sid, id);
        return Some(o), credential;
      }
      turn := Pause(c, true);
      AbortSettles(before, store.Family(), sid, id, markedAt, c);
      ghost var sentWith := store.history;
      var reply := Send(id, credential);
      failure, credential := TakeAnswer(c, sid, id, clientId, stored, reply);
      SentAfterMark(store.origin, sentWith, store.history, id);
    }

    // The claim loop: poll while another request holds the family, for at most a second of waiting.
    method AcquireClaim(ghost c: Context, current: RefreshMaterial, clientId: string, id: string)
      returns (r: Result<Claimed, StoreError>, interrupted: bool)
      requires store.Recorded() && ForeignTurns(env.turns, c.sid, c.id, c.h) && Unclaimed(store.Family(), c)
      requires id == c.id && current.handleHash == c.h
      modifies env, store`grants, store`tokens, store`actions, store`history
      ensures store.Recorded() && old(store.history) <= store.history && TallyNow(c.id) == old(TallyNow(c.id))
      ensures ForeignTurns(env.turns, c.sid, c.id, c.h) && env.now >= old(env.now)
      ensures env.now + Lag(env.turns) <= old(env.now) + Lag(old(env.turns)) + BUSY_WAIT
      ensures interrupted ==> r == Err(RefreshBusy)
      ensures r == Err(RefreshBusy) && !interrupted ==> env.now >= old(env.now) + BUSY_WAIT
      ensures NoFailures(old(env.turns)) ==> NoFailures(env.turns) && r != Err(Storage)
      ensures Undisturbed(old(env.turns)) ==> Undisturbed(env.turns)
      ensures r.Err? ==> !HoldsClaim(store.Family(), c.sid, c.id)
      ensures r.Err? && Undisturbed(old(env.turns)) && StorageError(r.error).code == Temporary ==>
        store.Family() == old(store.Family())
      ensures r.Ok? ==> !interrupted && Acquired(store.Family(), r.value, c)
      ensures r.Ok? && Undisturbed(old(env.turns)) ==>
        Unclaimed1(store.Family(), c.sid) == Unclaimed1(old(store.Family()), c.sid)
      ensures old(Alone()) && ClaimOf(old(store.Family()), current, clientId, id, old(env.now)) != Err(RefreshBusy) ==>
        && Alone() && env.now == old(env.now)
        && (store.Family(), r)
             == RefreshFamilies.ClaimRefresh(old(store.Family()), current, clientId, env.now, CLAIM_TTL, id)
    {
      hide NoFailures, Undisturbed, ForeignTurns;
      hide RefreshFamilies.ClaimRefresh, Acquired, Unclaimed, Unclaimed1, TallyNow, StateStore.Store.Recorded, Lag;
      interrupted := false;
      var waitUntil := env.now + BUSY_WAIT;
      ghost var slept := 0;
      r := TryClaim(c, current, clientId, id);
      while r == Err(RefreshBusy)
        invariant store.Recorded() && old(store.history) <= store.history && TallyNow(c.id) == old(TallyNow(c.id))
        invariant ForeignTurns(env.turns, c.sid, c.id, c.h) && env.now >= old(env.now)
        invariant env.now + Lag(env.turns) == old(env.now) + Lag(old(env.turns)) + slept
        invariant slept <= BUSY_WAIT && slept <= env.now - old(env.now)
        invariant NoFailures(old(env.turns)) ==> NoFailures(env.turns) && r != Err(Storage)
        invariant Undisturbed(old(env.turns)) ==> Undisturbed(env.turns)
        invariant r.Err? ==> !HoldsClaim(store.Family(), c.sid, c.id)
        invariant r == Err(RefreshBusy) ==> Unclaimed(store.Family(), c)
        invariant r.Err? && Undisturbed(old(env.turns)) && StorageError(r.error).code == Temporary ==>
          store.Family() == old(store.Family())
        invariant r.Ok? ==> Acquired(store.Family(), r.value, c)
        invariant
          old(Alone()) && ClaimOf(old(store.Family()), current, clientId, id, old(env.now)) != Err(RefreshBusy) ==>
            && Alone() && env.now == old(env.now)
            && (store.Family(), r)
                 == RefreshFamilies.ClaimRefresh(old(store.Family()), current, clientId, env.now, CLAIM_TTL, id)
        invariant r.Ok? && Undisturbed(old(env.turns)) ==>
          Unclaimed1(store.Family(), c.sid) == Unclaimed1(old(store.Family()), c.sid)
        decreases waitUntil - env.now
      {
        var turn := Wait(c, current, 0);
        UnclaimedHolds(store.Family(), c);
        var remaining := waitUntil - env.now;
        if remaining <= 0 {
          return;
        }
        slept := slept + Min(BUSY_POLL, remaining);
        turn := Wait(c, current, Min(BUSY_POLL, remaining));
        UnclaimedHolds(store.Family(), c);
        if turn.interrupted {
          interrupted := true;
          return;
        }
        r := TryClaim(c, current, clientId, id);
      }
    }

    method TryClaim(ghost c: Context, current: RefreshMaterial, clientId: string, id: string)
      returns (r: Result<Claimed, StoreError>)
      requires store.Recorded() && ForeignTurns(env.turns, c.sid, c.id, c.h) && Unclaimed(store.Family(), c)
      requires id == c.id && current.handleHash == c.h
      modifies env, store`grants, store`tokens, store`actions, store`history
      ensures store.Recorded() && old(store.history) <= store.history && TallyNow(c.id) == old(TallyNow(c.id))
      ensures ForeignTurns(env.turns, c.sid, c.id, c.h) && env.now >= old(env.now)
      ensures env.now + Lag(env.turns) == old(env.now) + Lag(old(env.turns))
      ensures NoFailures(old(env.turns)) ==> NoFailures(env.turns) && r != Err(Storage)
      ensures Undisturbed(old(env.turns)) ==> Undisturbed(env.turns)
      ensures r.Err? ==> !HoldsClaim(store.Family(), c.sid, c.id)
      ensures r == Err(RefreshBusy) ==> Unclaimed(store.Family(), c)
      ensures r.Err? && Undisturbed(old(env.turns)) && StorageError(r.error).code == Temporary ==>
        store.Family() == old(store.Family())
      ensures r.Ok? ==> Acquired(store.Family(), r.value, c)
      ensures r.Ok? && Undisturbed(old(env.turns)) ==>
        Unclaimed1(store.Family(), c.sid) == Unclaimed1(old(store.Family()), c.sid)
      ensures old(Alone()) ==>
        && Alone() && env.now == old(env.now)
        && (store.Family(), r)
             == RefreshFamilies.ClaimRefresh(old(store.Family()), current, clientId, env.now, CLAIM_TTL, id)
    {
      hide Acquired, Unclaimed, Unclaimed1, RefreshFamilies.ClaimRefresh, After, TallyOf, Lag;
      var turn := Wait(c, current, 0);
      UnclaimedHolds(store.Family(), c);
      if turn.fails {
        return Err(Storage);
      }
      ghost var before := store.Family();
      OneMore(store.origin, store.history, Claim(current, clientId, env.now, CLAIM_TTL, id), c.id);
      r := store.ClaimRefresh(current, clientId, env.now, CLAIM_TTL, id);
      ClaimTaken(before, current, clientId, env.now, CLAIM_TTL, id, c);
    }

    // The completion itself, with the credential sealed for one replacement.
    method Complete(
      ghost c: Context, ghost marked: bool, ghost from: nat, current: RefreshMaterial, claimed: Claimed,
      credential: Credential, verified: bool, absolute: int, access: int, idToken: int, issuedAt: int,
      replacement: RefreshMaterial) returns (r: Result<Outcome, StoreError>)
      requires store.Recorded() && Claiming(store.Family(), c, marked) && Matches(c, current, claimed)
      requires absolute <= c.absolute && issuedAt <= env.now
      requires access <= Min(issuedAt + claimed.grant.profile.idleTtl, absolute)
      requires idToken <= Min(issuedAt + claimed.grant.profile.idleTtl, absolute)
      requires credential.accessExpiry.Some? ==>
        access <= credential.accessExpiry.value && idToken <= credential.accessExpiry.value
      requires CollidedUntil(store.origin, store.history, c.id, from, |store.history|)
      modifies store`grants, store`tokens, store`history
      ensures store.Recorded() && old(store.history) <= store.history && TallyNow(c.id) == old(TallyNow(c.id))
      ensures CollidedUntil(store.origin, store.history, c.id, from, |store.history| - 1)
      ensures r == Err(RefreshCollision) ==> CollidedUntil(store.origin, store.history, c.id, from, |store.history|)
      ensures r.Ok? ==>
        && r.value.Issued? && r.value.emailVerified == verified
        && r.value.accessExpiry == access && r.value.idExpiry == idToken && claimed.sid in store.Family().grants
        && store.Family().grants[claimed.sid].profile == c.profile
        && store.Family().grants[claimed.sid].absoluteExpiry == absolute
        && PersistedSafely(store.Family(), r.value, current, claimed, c.absolute, env.now, credential)
      ensures r.Err? ==> store.Family() == old(store.Family())
      ensures InHand(old(store.Family()), current, claimed.sid, claimed.claim.id, env.now) ==>
        && (r.Ok? <==> replacement.handleHash !in old(store.Family()).tokens)
        && (r == Err(RefreshCollision) <==> replacement.handleHash in old(store.Family()).tokens)
    {
      hide InHand, HoldsClaim, Fenced, Lag, Claiming, PersistedSafely, RefreshFamilies.CompleteClaimedRefresh, After,
        TallyOf, CollidedUntil;
      var sid, id, profile := claimed.sid, claimed.claim.id, claimed.grant.profile;
      var upstream := LoginOf(credential);
      var box := Sealed(replacement.secret, sid, profile.clientId, profile.connectorId, Some(credential));
      ghost var before, h := store.Family(), store.history;
      var o := Issued(access, idToken, replacement, verified);
      ghost var s := Step.Complete(current, replacement, sid, profile.idleTtl, id, upstream, box, absolute, env.now);
      OneMore(store.origin, h, s, c.id);
      CollidedMore(store.origin, h, s, id, from);
      CompletedSafely(
        before, current, profile.idleTtl, upstream, box, absolute, env.now, claimed, c, marked, o, issuedAt);
      CompletionExact(before, current, replacement, sid, profile.idleTtl, id, upstream, box, absolute, env.now);
      var completed := store.CompleteClaimedRefresh(
        current, replacement, sid, profile.idleTtl, id, upstream, box, absolute, env.now);
      r := if completed.Ok? then Ok(o) else Err(completed.error);
    }

    // The last loop of connector: install the replacement with up to three generated handles, a
    // further one only after a collision.
    method Install(
      ghost c: Context, ghost marked: bool, current: RefreshMaterial, claimed: Claimed, credential: Credential,
      verified: bool, absolute: int, expiry: int, access: int, idToken: int, issuedAt: int,
      materials: seq<Option<RefreshMaterial>>) returns (r: Result<Outcome, StoreError>)
      requires store.Recorded()
      requires ForeignTurns(env.turns, c.sid, c.id, c.h) && Claiming(store.Family(), c, marked)
      requires Matches(c, current, claimed) && |materials| == MAX_MATERIAL_ATTEMPTS && issuedAt <= env.now
      requires absolute <= c.absolute && expiry == Min(issuedAt + claimed.grant.profile.idleTtl, absolute)
      requires access <= expiry && idToken <= expiry
      requires credential.accessExpiry.Some? ==>
        access <= credential.accessExpiry.value && idToken <= credential.accessExpiry.value
      modifies env, store`grants, store`tokens, store`actions, store`history
      ensures store.Recorded() && old(store.history) <= store.history && TallyNow(c.id) == old(TallyNow(c.id))
      ensures env.now >= old(env.now)
      ensures CollidedUntil(store.origin, store.history, c.id, |old(store.history)|, |store.history| - 1)
      ensures r.Ok? ==>
        && r.value.Issued? && r.value.emailVerified == verified
        && r.value.accessExpiry == access && r.value.idExpiry == idToken && claimed.sid in store.Family().grants
        && store.Family().grants[claimed.sid].profile == c.profile
        && store.Family().grants[claimed.sid].absoluteExpiry == absolute
        && PersistedSafely(store.Family(), r.value, current, claimed, c.absolute, env.now, credential)
      ensures r.Err? ==>
        && ForeignTurns(env.turns, c.sid, c.id, c.h) && Claiming(store.Family(), c, marked)
        && (NoFailures(old(env.turns)) ==> NoFailures(env.turns))
        && (Undisturbed(old(env.turns)) ==> Undisturbed(env.turns) && store.Family() == old(store.Family()))
      ensures old(Alone()) && InHand(old(store.Family()), current, claimed.sid, claimed.claim.id, old(env.now)) ==>
        (r.Ok? <==>
           && old(env.now) < Min(access, idToken) && old(env.now) < expiry
           && NewHandle(materials, old(store.Family()).tokens, 0))
    {
      hide HoldsClaim, Fenced, Lag;
      hide InHand, NewHandle, NoFailures, Undisturbed, ForeignTurns;
      hide Claiming, PersistedSafely, RefreshFamilies.CompleteClaimedRefresh, After, TallyOf, CollidedUntil;
      ghost var sid, id := claimed.sid, claimed.claim.id;
      r := Err(Storage);
      NoneCollided(store.origin, store.history, id);
      for attempt := 0 to MAX_MATERIAL_ATTEMPTS
        invariant store.Recorded() && old(store.history) <= store.history && TallyNow(c.id) == old(TallyNow(c.id))
        invariant env.now >= old(env.now)
        invariant ForeignTurns(env.turns, c.sid, c.id, c.h) && Claiming(store.Family(), c, marked)
          && issuedAt <= env.now
        invariant NoFailures(old(env.turns)) ==> NoFailures(env.turns)
        invariant Undisturbed(old(env.turns)) ==> Undisturbed(env.turns) && store.Family() == old(store.Family())
        invariant r.Err?
        invariant old(Alone()) ==> Alone() && env.now == old(env.now) && store.Family() == old(store.Family())
        invariant old(Alone()) && InHand(old(store.Family()), current, sid, id, old(env.now)) ==>
          (NewHandle(materials, store.Family().tokens, 0) <==> NewHandle(materials, store.Family().tokens, attempt))
        invariant CollidedUntil(store.origin, store.history, id, |old(store.history)|, |store.history|)
      {
        NextHandle(materials, store.Family().tokens, attempt);
        if materials[attempt].None? {
          CollidedLess(store.origin, store.history, id, |old(store.history)|, |store.history|);
          return Err(Storage);
        }
        ghost var earlier := store.history;
        var turn := Pause(c, marked);
        OthersCollide(store.origin, earlier, store.history, c, |old(store.history)|);
        if access <= env.now || idToken <= env.now || expiry <= env.now {
          CollidedLess(store.origin, store.history, id, |old(store.history)|, |store.history|);
          return Err(InvalidGrant);
        }
        if turn.fails {
          CollidedLess(store.origin, store.history, id, |old(store.history)|, |store.history|);
          return Err(Storage);
        }
        r := Complete(
          c, marked, |old(store.history)|, current, claimed, credential, verified, absolute, access, idToken, issuedAt,
          materials[attempt].value);
        if r != Err(RefreshCollision) {
          return;
        }
      }
      NextHandle(materials, store.Family().tokens, MAX_MATERIAL_ATTEMPTS);
      CollidedLess(store.origin, store.history, id, |old(store.history)|, |store.history|);
    }

    // Nothing that limits the tokens of a rotation has ended.
    predicate Lasting(g: Grant, credential: Credential, now: int) {
      && accessTtl > 0 && idTtl > 0 && g.profile.idleTtl > 0 && now < g.absoluteExpiry
      && (credential.accessExpiry.Some? ==> now < credential.accessExpiry.value)
      && (credential.refreshExpiry.Some? ==> now < credential.refreshExpiry.value)
    }

    // The expiries of a rotation: the family's is lowered to the credential's refresh expiry, and to
    // its access expiry where it cannot be renewed; the tokens' as Capped says.
    method Cap(
      g: Grant, credential: Credential, issuedAt: int) returns (absolute: int, expiry: int, access: int, idToken: int)
      ensures absolute <= g.absoluteExpiry
      ensures credential.refreshExpiry.Some? ==> absolute <= credential.refreshExpiry.value
      ensures credential.refreshToken == "" && credential.accessExpiry.Some? ==>
        absolute <= credential.accessExpiry.value
      ensures
        || absolute == g.absoluteExpiry || credential.refreshExpiry == Some(absolute)
        || (credential.refreshToken == "" && credential.accessExpiry == Some(absolute))
      ensures expiry == Min(issuedAt + g.profile.idleTtl, absolute)
      ensures access == Capped(issuedAt + accessTtl, expiry, credential.accessExpiry)
      ensures idToken == Capped(issuedAt + idTtl, expiry, credential.accessExpiry)
      ensures issuedAt < Min(access, idToken) && issuedAt < expiry <==> Lasting(g, credential, issuedAt)
    {
      absolute := g.absoluteExpiry;
      if credential.refreshExpiry.Some? && absolute > credential.refreshExpiry.value {
        absolute := credential.refreshExpiry.value;
      }
      if credential.refreshToken == "" && credential.accessExpiry.Some? && absolute > credential.accessExpiry.value {
        absolute := credential.accessExpiry.value;
      }
      expiry := issuedAt + g.profile.idleTtl;
      if expiry > absolute {
        expiry := absolute;
      }
      access := Capped(issuedAt + accessTtl, expiry, credential.accessExpiry);
      idToken := Capped(issuedAt + idTtl, expiry, credential.accessExpiry);
    }

    // The tokens expire at their own time to live, the family's idle one, the family's end or the
    // upstream login, whichever is first, all from one reading of the clock.
    predicate Dated(f: Families, o: Outcome, sid: string, login: Option<int>, t: int) {
      && o.Issued? && sid in f.grants
      && var last := Min(t + f.grants[sid].profile.idleTtl, f.grants[sid].absoluteExpiry);
      && o.accessExpiry == Capped(t + accessTtl, last, login) && o.idExpiry == Capped(t + idTtl, last, login)
    }

    lemma DatedBy(
      f: Families, o: Outcome, sid: string, idle: int, absolute: int, login: Option<int>, t: int, until: int)
      requires o.Issued? && sid in f.grants && f.grants[sid].profile.idleTtl == idle && t <= until
      requires f.grants[sid].absoluteExpiry == absolute
      requires o.accessExpiry == Capped(t + accessTtl, Min(t + idle, absolute), login)
      requires o.idExpiry == Capped(t + idTtl, Min(t + idle, absolute), login)
      ensures Dated(f, o, sid, login, t) && Timed(f, o, sid, login, t, until)
    {
      hide Capped;
    }

    lemma TimedLonger(f: Families, o: Outcome, sid: string, login: Option<int>, t: int, since: int, until: int)
      requires since <= t
      ensures Timed(f, o, sid, login, t, until) ==> Timed(f, o, sid, login, since, until)
    {
      hide Dated;
    }

    ghost predicate Timed(f: Families, o: Outcome, sid: string, login: Option<int>, since: int, until: int) {
      exists t :: since <= t <= until && Dated(f, o, sid, login, t)
    }

    // A failure for reasons of its own: the claim is released, but a rotated credential is lost.
    method GiveUp(ghost c: Context, started: bool, claimed: Claimed, error: StoreError) returns (o: Outcome)
      requires store.Recorded()
      requires ForeignTurns(env.turns, c.sid, c.id, c.h) && Claiming(store.Family(), c, started)
      requires c.sid == claimed.sid && c.id == claimed.claim.id && c.profile == claimed.grant.profile
      modifies env, store`grants, store`tokens, store`actions, store`history
      ensures store.Recorded() && old(store.history) <= store.history && TallyNow(c.id) == old(TallyNow(c.id))
      ensures env.now >= old(env.now)
      ensures o.Failed? && (!started ==> o == StorageError(error))
      ensures NoFailures(old(env.turns)) ==> Settled(store.Family(), claimed.sid, claimed.claim.id)
      ensures started ==> Ended(old(env.turns), store.Family(), o, c)
      ensures (NoFailures(old(env.turns)) && Undisturbed(old(env.turns)) && o.code == Temporary
               && Holding(old(store.Family()), claimed)) ==>
        store.Family() == Unclaimed1(old(store.Family()), claimed.sid)
    {
      hide NoFailures, Undisturbed, ForeignTurns;
      hide Claiming, Settled, Holding, ReleaseRefreshClaim, Unclaimed1, TallyNow, StateStore.Store.Recorded, Fenced,
        Dead;
      if started {
        o := RevokeFamily(c, true, claimed.sid, claimed.grant.profile.clientId, "indeterminate_upstream_credential");
        DeadSettles(store.Family(), claimed.sid, claimed.claim.id);
        return;
      }
      ReleaseClaim(c, claimed.sid, claimed.claim.id);
      ReleasedSettles(old(store.Family()), store.Family(), claimed);
      return StorageError(error);
    }

    // The tail of connector: cap the expiries, sign, and persist.
    method Persist(
      ghost c: Context, started: bool, current: RefreshMaterial, claimed: Claimed, credential: Credential,
      verified: bool, materials: seq<Option<RefreshMaterial>>) returns (o: Outcome)
      requires store.Recorded()
      requires ForeignTurns(env.turns, c.sid, c.id, c.h) && Claiming(store.Family(), c, started)
      requires Matches(c, current, claimed) && |materials| == MAX_MATERIAL_ATTEMPTS
      modifies env, store`grants, store`tokens, store`actions, store`history
      ensures store.Recorded() && old(store.history) <= store.history && TallyNow(c.id) == old(TallyNow(c.id))
      ensures env.now >= old(env.now)
      ensures o.Issued? ==>
        && o.emailVerified == verified
        && PersistedSafely(store.Family(), o, current, claimed, c.absolute, env.now, credential)
      ensures o.Issued? ==>
        Timed(store.Family(), o, claimed.sid, credential.accessExpiry, old(env.now), env.now)
      ensures NoFailures(old(env.turns)) && o.Failed? ==> Settled(store.Family(), claimed.sid, claimed.claim.id)
      ensures started && o.Failed? ==> Ended(old(env.turns), store.Family(), o, c)
      ensures (NoFailures(old(env.turns)) && Undisturbed(old(env.turns)) && o.Failed? && o.code == Temporary
               && Holding(old(store.Family()), claimed)) ==>
        store.Family() == Unclaimed1(old(store.Family()), claimed.sid)
      ensures old(Alone()) && InHand(old(store.Family()), current, claimed.sid, claimed.claim.id, old(env.now)) ==>
        (o.Issued? <==>
           && provider.answers.signs && Lasting(claimed.grant, credential, old(env.now))
           && NewHandle(materials, old(store.Family()).tokens, 0))
    {
      hide InHand, NewHandle, Lasting, Timed, Dated;
      hide NoFailures, Undisturbed, ForeignTurns;
      hide Capped;
      hide Claiming, Settled, PersistedSafely, Holding, ReleaseRefreshClaim, TallyNow, StateStore.Store.Recorded, Lag,
        CollidedUntil, Fenced;
      var turn := Pause(c, started);
      var sid, id, profile := claimed.sid, claimed.claim.id, claimed.grant.profile;
      var issuedAt := env.now;
      var absolute, expiry, access, idToken := Cap(claimed.grant, credential, issuedAt);
      if access <= issuedAt || idToken <= issuedAt || expiry <= issuedAt {
        o := RevokeFamily(c, started, sid, profile.clientId,
                          if started then "indeterminate_upstream_credential" else "upstream_expired");
        DeadSettles(store.Family(), sid, id);
        return;
      }
      var result: Result<Outcome, StoreError> := Err(Storage);
      if provider.answers.signs {
        result := Install(
          c, started, current, claimed, credential, verified, absolute, expiry, access, idToken, issuedAt, materials);
      }
      if result.Ok? {
        DatedBy(
          store.Family(), result.value, sid, profile.idleTtl, absolute, credential.accessExpiry, issuedAt, env.now);
        TimedLonger(store.Family(), result.value, sid, credential.accessExpiry, issuedAt, old(env.now), env.now);
        return result.value;
      }
      o := GiveUp(c, started, claimed, result.error);
    }

    // Whether some asserted email is the grant's, and whether the provider verified it.
    method MatchEmails(emails: seq<Email>, email: string) returns (matched: bool, verified: bool)
      ensures matched <==> exists k :: 0 <= k < |emails| && emails[k].address == email
      ensures verified <==> exists k :: 0 <= k < |emails| && emails[k].address == email && emails[k].verified
    {
      matched, verified := false, false;
      for i := 0 to |emails|
        invariant matched <==> exists k :: 0 <= k < i && emails[k].address == email
        invariant verified <==> exists k :: 0 <= k < i && emails[k].address == email && emails[k].verified
      {
        if emails[i].address == email {
          matched := true;
          verified := verified || emails[i].verified;
        }
      }
    }

    // The middle of connector, first half: a credential about to expire is refreshed, and one
    // whose expiry nobody knows is given up.
    method RefreshExpiring(ghost c: Context, claimed: Claimed, plain: Credential)
      returns (failure: Option<Outcome>, credential: Credential, started: bool)
      requires store.Recorded()
      requires ForeignTurns(env.turns, c.sid, c.id, c.h) && Claiming(store.Family(), c, false)
      requires c.sid == claimed.sid && c.id == claimed.claim.id && c.profile == claimed.grant.profile
      modifies env, store`grants, store`tokens, store`actions, store`history, provider
      ensures store.Recorded() && old(store.history) <= store.history
      ensures env.now >= old(env.now)
      ensures provider.requests == old(provider.requests) || provider.requests == old(provider.requests) + [plain]
      ensures Conducted(old(TallyNow(c.id)), TallyNow(c.id), |provider.requests| - |old(provider.requests)|,
                        Misconfigured(provider.answers.rotation))
      ensures failure.None? ==>
        && ForeignTurns(env.turns, c.sid, c.id, c.h) && Claiming(store.Family(), c, started)
        && (started ==>
              && provider.requests != old(provider.requests) && provider.answers.rotation.Refreshed?
              && credential == Renewed(plain, provider.answers.rotation.credential))
        && (!started ==>
              && provider.requests == old(provider.requests) && TallyNow(c.id) == old(TallyNow(c.id))
              && credential == plain)
        && (NoFailures(old(env.turns)) ==> NoFailures(env.turns))
        && (Undisturbed(old(env.turns)) ==>
              Undisturbed(env.turns) && (!started ==> store.Family() == old(store.Family())))
      ensures failure.Some? ==> failure.value.Failed?
      ensures failure.Some? && provider.requests != old(provider.requests) ==>
        Misconfigured(provider.answers.rotation) || Ended(old(env.turns), store.Family(), failure.value, c)
      ensures failure.Some? && NoFailures(old(env.turns)) ==>
        && Settled(store.Family(), claimed.sid, claimed.claim.id)
        && (Undisturbed(old(env.turns)) && failure.value.code == Temporary ==>
              store.Family() == Unclaimed1(old(store.Family()), claimed.sid))
      ensures old(Alone()) && CanMark(old(store.Family()), claimed.sid, claimed.claim.id, old(env.now)) ==>
        var shown := Fresh(plain, provider.answers.rotation, old(env.now));
        && (failure.None? <==> shown.Some?)
        && (failure.None? ==>
              && Alone() && env.now == old(env.now)
              && credential == shown.value && (started <==> Expiring(plain, env.now))
              && store.Family() == MarkedIf(started, old(store.Family()), claimed.sid, claimed.claim.id, env.now))
    {
      hide NoFailures, Undisturbed, ForeignTurns;
      hide Claiming, Settled, Unclaimed1, TallyNow, StateStore.Store.Recorded, Fenced, Dead, Misconfigured;
      var sid, id, profile := claimed.sid, claimed.claim.id, claimed.grant.profile;
      credential, started, failure := plain, false, None;
      var turn := Pause(c, false);
      if credential.accessExpiry.Some? && credential.accessExpiry.value <= env.now + 30 * SECOND {
        if credential.refreshToken == "" {
          var o := RevokeFamily(c, false, sid, profile.clientId, "upstream_expired");
          DeadSettles(store.Family(), sid, id);
          failure := Some(o);
          return;
        }
        failure, credential := RefreshCredential(c, sid, id, profile.clientId, credential);
        if failure.Some? {
          return;
        }
        started := true;
      }
      if credential.refreshToken == "" && credential.accessExpiry.None? && !credential.accessNonExpiring {
        var o := RevokeFamily(c, started, sid, profile.clientId,
                              if started then "indeterminate_upstream_credential" else "unknown_upstream_expiry");
        DeadSettles(store.Family(), sid, id);
        failure := Some(o);
        return;
      }
    }

    // The provider did not say who the user is: a rejected credential is refreshed and shown again,
    // and a provider that cannot answer now may be asked another time.
    method AskAgain(ghost c: Context, claimed: Claimed, plain: Credential)
      returns (failure: Option<Outcome>, credential: Credential, started: bool, identity: IdentityReply)
      requires store.Recorded()
      requires ForeignTurns(env.turns, c.sid, c.id, c.h) && Claiming(store.Family(), c, false)
      requires c.sid == claimed.sid && c.id == claimed.claim.id && c.profile == claimed.grant.profile
      requires provider.answers.first.IdentityError?
      modifies env, store`grants, store`tokens, store`actions, store`history, provider
      ensures store.Recorded() && old(store.history) <= store.history
      ensures env.now >= old(env.now)
      ensures provider.requests == old(provider.requests) || provider.requests == old(provider.requests) + [plain]
      ensures Conducted(old(TallyNow(c.id)), TallyNow(c.id), |provider.requests| - |old(provider.requests)|,
                        Misconfigured(provider.answers.rotation))
      ensures failure.None? ==>
        && ForeignTurns(env.turns, c.sid, c.id, c.h) && Claiming(store.Family(), c, started)
        && (started <==> provider.requests != old(provider.requests))
        && identity == (if started then provider.answers.second else provider.answers.first)
        && (started ==>
              && provider.answers.rotation.Refreshed?
              && credential == Renewed(plain, provider.answers.rotation.credential))
        && (!started ==> credential == plain && store.Family() == old(store.Family()))
        && (NoFailures(old(env.turns)) ==> NoFailures(env.turns))
        && (Undisturbed(old(env.turns)) ==> Undisturbed(env.turns))
      ensures failure.Some? ==> failure.value.Failed?
      ensures failure.Some? && provider.requests != old(provider.requests) ==>
        Misconfigured(provider.answers.rotation) || Ended(old(env.turns), store.Family(), failure.value, c)
      ensures failure.Some? && NoFailures(old(env.turns)) ==>
        && Settled(store.Family(), claimed.sid, claimed.claim.id)
        && (Undisturbed(old(env.turns)) && failure.value.code == Temporary && Holding(old(store.Family()), claimed) ==>
              store.Family() == Unclaimed1(old(store.Family()), claimed.sid))
      ensures old(Alone()) && CanMark(old(store.Family()), claimed.sid, claimed.claim.id, old(env.now)) ==>
        var kind := provider.answers.first.kind;
        var again := kind == UnauthorizedError && plain.refreshToken != "";
        && (failure.None? <==>
              if again then provider.answers.rotation.Refreshed?
              else kind != TemporaryError && kind != RateLimitError && kind != ConfigurationError)
        && (failure.None? ==>
              && Alone() && env.now == old(env.now) && (started <==> again)
              && store.Family() == MarkedIf(started, old(store.Family()), claimed.sid, claimed.claim.id, env.now))
    {
      hide Renewed, CanMark, HoldsClaim, RefreshFamilies.MarkUpstreamRefreshStarted;
      hide NoFailures, Undisturbed, ForeignTurns;
      hide Claiming, Settled, Holding, ReleaseRefreshClaim, Unclaimed1, TallyNow, StateStore.Store.Recorded, Fenced,
        Dead, Misconfigured;
      var sid, id, profile := claimed.sid, claimed.claim.id, claimed.grant.profile;
      failure, credential, started, identity := None, plain, false, provider.answers.first;
      if identity.kind == UnauthorizedError && credential.refreshToken != "" {
        failure, credential := RefreshCredential(c, sid, id, profile.clientId, credential);
        if failure.Some? {
          return;
        }
        started := true;
        var turn := Pause(c, true);
        identity := provider.answers.second;
      } else if identity.kind == TemporaryError || identity.kind == RateLimitError
        || identity.kind == ConfigurationError {
        ReleaseClaim(c, sid, id);
        ReleasedSettles(old(store.Family()), store.Family(), claimed);
        failure := Some(Failed(Temporary, identity.retry));
      }
    }

    // The middle of connector: refresh the stored credential if it is about to expire or the
    // provider rejects it, at most once, and ask the provider who the user is.
    method Revalidate(ghost c: Context, claimed: Claimed, plain: Credential)
      returns (failure: Option<Outcome>, credential: Credential, started: bool, identity: IdentityReply)
      requires store.Recorded()
      requires ForeignTurns(env.turns, c.sid, c.id, c.h) && Claiming(store.Family(), c, false)
      requires c.sid == claimed.sid && c.id == claimed.claim.id && c.profile == claimed.grant.profile
      modifies env, store`grants, store`tokens, store`actions, store`history, provider
      ensures store.Recorded() && old(store.history) <= store.history
      ensures env.now >= old(env.now)
      ensures provider.requests == old(provider.requests) || provider.requests == old(provider.requests) + [plain]
      ensures Conducted(old(TallyNow(c.id)), TallyNow(c.id), |provider.requests| - |old(provider.requests)|,
                        Misconfigured(provider.answers.rotation))
      ensures failure.None? ==>
        && ForeignTurns(env.turns, c.sid, c.id, c.h) && Claiming(store.Family(), c, started)
        && identity.Known? && (identity == provider.answers.first || identity == provider.answers.second)
        && (started <==> provider.requests != old(provider.requests))
        && (started ==>
              && provider.answers.rotation.Refreshed?
              && credential == Renewed(plain, provider.answers.rotation.credential))
        && (!started ==> credential == plain)
        && (NoFailures(old(env.turns)) ==> NoFailures(env.turns))
        && (Undisturbed(old(env.turns)) ==>
              Undisturbed(env.turns) && (!started ==> store.Family() == old(store.Family())))
      ensures failure.Some? ==> failure.value.Failed?
      ensures failure.Some? && provider.requests != old(provider.requests) ==>
        Misconfigured(provider.answers.rotation) || Ended(old(env.turns), store.Family(), failure.value, c)
      ensures failure.Some? && NoFailures(old(env.turns)) ==>
        && Settled(store.Family(), claimed.sid, claimed.claim.id)
        && (Undisturbed(old(env.turns)) && failure.value.code == Temporary && Holding(old(store.Family()), claimed) ==>
              store.Family() == Unclaimed1(old(store.Family()), claimed.sid))
      ensures old(Alone()) && CanMark(old(store.Family()), claimed.sid, claimed.claim.id, old(env.now)) ==>
        var validated := Validated(plain, provider.answers, old(env.now));
        && (failure.None? <==> validated.Some?)
        && (failure.None? ==>
              && Alone() && env.now == old(env.now) && validated.value == Validation(credential, started, identity)
              && store.Family() == MarkedIf(started, old(store.Family()), claimed.sid, claimed.claim.id, env.now))
    {
      hide NoFailures, Undisturbed, ForeignTurns;
      hide Fresh, Expiring, Renewed, CanMark, Conducted, HoldsClaim, RefreshFamilies.MarkUpstreamRefreshStarted;
      hide Claiming, Settled, Holding, ReleaseRefreshClaim, Unclaimed1, TallyNow, StateStore.Store.Recorded, Fenced,
        Dead, Misconfigured;
      var sid, id, profile := claimed.sid, claimed.claim.id, claimed.grant.profile;
      identity := provider.answers.first;
      failure, credential, started := RefreshExpiring(c, claimed, plain);
      if failure.Some? {
        return;
      }
      var turn := Pause(c, started);
      if identity.IdentityError? && !started {
        failure, credential, started, identity := AskAgain(c, claimed, plain);
        if failure.Some? {
          return;
        }
      }
      if identity.IdentityError? {
        var o := RevokeFamily(c, started, sid, profile.clientId,
                              if started then "indeterminate_upstream_credential" else "upstream_authentication");
        DeadSettles(store.Family(), sid, id);
        failure := Some(o);
      }
    }

    // The address counts as verified, by the mode the service runs in.
    predicate Welcome(identity: IdentityReply, p: Profile)
      requires identity.Known?
      reads store`accepted
    {
      var local := Identity(p.connectorId, p.subject, p.email);
      || verificationMode == "disabled" || (local in store.accepted && store.accepted[local])
      || (verificationMode == "provider"
          && exists k :: 0 <= k < |identity.emails| && identity.emails[k].address == p.email
               && identity.emails[k].verified)
    }

    // The provider still vouches for the user of the claimed family, and tokens can be issued.
    predicate Renewable(
      sid: string, g: Grant, current: RefreshMaterial, now: int, tokens: map<Digest, Token>,
      materials: seq<Option<RefreshMaterial>>)
      reads store`accepted
    {
      var plain := Opened(current.secret, sid, g);
      && plain.Some? && provider.answers.configured
      && var validated := Validated(plain.value, provider.answers, now);
      && validated.Some? && Vouches(validated.value.identity, g.profile)
      && Welcome(validated.value.identity, g.profile)
      && provider.answers.encodes && provider.answers.signs
      && Lasting(g, validated.value.credential, now) && NewHandle(materials, tokens, 0)
    }

    // The identity checks of connector, and the exchange's completion once they pass.
    method Accept(
      ghost c: Context, started: bool, current: RefreshMaterial, claimed: Claimed, credential: Credential,
      identity: IdentityReply, materials: seq<Option<RefreshMaterial>>) returns (o: Outcome)
      requires store.Recorded()
      requires ForeignTurns(env.turns, c.sid, c.id, c.h) && Claiming(store.Family(), c, started)
      requires Matches(c, current, claimed) && |materials| == MAX_MATERIAL_ATTEMPTS && identity.Known?
      modifies env, store`grants, store`tokens, store`actions, store`history
      ensures store.Recorded() && old(store.history) <= store.history && TallyNow(c.id) == old(TallyNow(c.id))
      ensures env.now >= old(env.now)
      ensures o.Issued? ==>
        && PersistedSafely(store.Family(), o, current, claimed, c.absolute, env.now, credential)
        && Vouches(identity, claimed.grant.profile)
      ensures o.Issued? && verificationMode != "disabled" ==> o.emailVerified
      ensures o.Issued? ==>
        Timed(store.Family(), o, claimed.sid, credential.accessExpiry, old(env.now), env.now)
      ensures NoFailures(old(env.turns)) && o.Failed? ==> Settled(store.Family(), claimed.sid, claimed.claim.id)
      ensures started && o.Failed? ==> Ended(old(env.turns), store.Family(), o, c)
      ensures (NoFailures(old(env.turns)) && Undisturbed(old(env.turns)) && o.Failed? && o.code == Temporary
               && Holding(old(store.Family()), claimed)) ==>
        store.Family() == Unclaimed1(old(store.Family()), claimed.sid)
      ensures old(Alone()) && InHand(old(store.Family()), current, claimed.sid, claimed.claim.id, old(env.now)) ==>
        (o.Issued? <==>
           && Vouches(identity, claimed.grant.profile) && Welcome(identity, claimed.grant.profile)
           && provider.answers.encodes && provider.answers.signs
           && Lasting(claimed.grant, credential, old(env.now))
           && NewHandle(materials, old(store.Family()).tokens, 0))
    {
      hide InHand, NewHandle, Lasting, Timed, Dated;
      hide NoFailures, Undisturbed, ForeignTurns;
      hide Claiming, Settled, PersistedSafely, Holding, ReleaseRefreshClaim, Unclaimed1, TallyNow,
        StateStore.Store.Recorded, Lag, Fenced, Dead;
      var sid, profile := claimed.sid, claimed.grant.profile;
      var matched, providerVerified := MatchEmails(identity.emails, profile.email);
      var turn := Pause(c, started);
      var exists_, local := store.CredentialVerified(Identity(profile.connectorId, profile.subject, profile.email));
      var localVerified := exists_ && local;
      var accepted := verificationMode == "disabled" || localVerified
        || (verificationMode == "provider" && providerVerified);
      var known := identity.subject == profile.subject && matched && accepted;
      if turn.fails || (known && !provider.answers.encodes) {
        o := GiveUp(c, started, claimed, Storage);
        return;
      }
      if !known {
        o := RevokeFamily(c, started, sid, profile.clientId,
                          if started then "indeterminate_upstream_credential" else "identity_mismatch");
        DeadSettles(store.Family(), sid, claimed.claim.id);
        return;
      }
      ghost var since := env.now;
      o := Persist(c, started, current, claimed, credential, providerVerified || localVerified, materials);
      TimedLonger(store.Family(), o, sid, credential.accessExpiry, since, old(env.now), env.now);
    }

    // The credential kept for the new token is the one stored for the presented token, if nothing
    // was sent to the provider; and if that one was sent, it is what the provider made of it.
    ghost predicate Carries(
      f: Families, o: Outcome, c: Context, secret: Bytes, before: seq<Credential>, since: int)
      reads provider, env
    {
      var stored := Unsealed(c, secret);
      && stored.Some?
      && (provider.requests == before || provider.requests == before + [stored.value])
      && (provider.requests != before ==> provider.answers.rotation.Refreshed?)
      && var credential :=
           if provider.requests == before then stored.value
           else Renewed(stored.value, provider.answers.rotation.credential);
      && CredentialCarried(f, o, c.sid, credential)
      && Timed(f, o, c.sid, credential.accessExpiry, since, env.now)
    }

    lemma CarriesLonger(
      f: Families, o: Outcome, c: Context, secret: Bytes, before: seq<Credential>, t: int, since: int)
      requires since <= t
      ensures Carries(f, o, c, secret, before, t) ==> Carries(f, o, c, secret, before, since)
    {
      hide CredentialCarried, Dated, Unsealed;
    }

    // connector: revalidate and rotate a connector-backed grant.
    method Connector(
      ghost c0: Context, current: RefreshMaterial, prepared: Prepared, id: string,
      materials: seq<Option<RefreshMaterial>>) returns (o: Outcome)
      requires store.Recorded() && ForeignTurns(env.turns, c0.sid, c0.id, c0.h) && Unclaimed(store.Family(), c0)
      requires id == c0.id && current.handleHash == c0.h && prepared.sid == c0.sid
        && prepared.grant.profile == c0.profile
      requires |materials| == MAX_MATERIAL_ATTEMPTS
      modifies env, store`grants, store`tokens, store`actions, store`history, provider
      ensures store.Recorded() && old(store.history) <= store.history
      ensures env.now >= old(env.now)
      ensures Conducted(old(TallyNow(id)), TallyNow(id), |provider.requests| - |old(provider.requests)|,
                        Misconfigured(provider.answers.rotation))
      ensures o.Failed? && provider.requests != old(provider.requests) ==>
        Misconfigured(provider.answers.rotation) || Ended(old(env.turns), store.Family(), o, c0)
      ensures NoFailures(old(env.turns)) ==> Settled(store.Family(), c0.sid, id)
      ensures o.Issued? ==>
        && SafelyIssued(store.Family(), o, current.handleHash, c0.sid, c0.bound, env.now)
        && Carries(store.Family(), o, c0, current.secret, old(provider.requests), old(env.now))
        && (Vouches(provider.answers.first, c0.profile) || Vouches(provider.answers.second, c0.profile))
        && (verificationMode != "disabled" ==> o.emailVerified)
      ensures NoFailures(old(env.turns)) && Undisturbed(old(env.turns)) && o.Failed? && o.code == Temporary ==>
        store.Family() == old(store.Family()) || store.Family() == Unclaimed1(old(store.Family()), c0.sid)
      ensures old(Alone()) ==>
        var claim := ClaimOf(old(store.Family()), current, prepared.grant.profile.clientId, id, old(env.now));
        claim != Err(RefreshBusy) ==>
          (o.Issued? <==>
             && claim.Ok?
             && Renewable(
                  claim.value.sid, claim.value.grant, current, old(env.now), old(store.Family()).tokens, materials))
    {
      hide NoFailures, Undisturbed, ForeignTurns;
      hide Timed, Dated, InHand, NewHandle, Lasting, Welcome, CanMark, Validated, MarkedIf,
        RefreshFamilies.ClaimRefresh, Opened;
      hide Claiming, Unclaimed, Settled, PersistedSafely, SafelyIssued, CredentialCarried, Holding, Unclaimed1, Vouches,
        TallyNow, StateStore.Store.Recorded, Lag, Fenced, Dead;
      var acquired, interrupted := AcquireClaim(c0, current, prepared.grant.profile.clientId, id);
      if acquired.Err? {
        UnheldSettles(store.Family(), c0.sid, id);
        return if interrupted then Failed(Temporary, "") else StorageError(acquired.error);
      }
      var claimed := acquired.value;
      ClaimInHand(old(store.Family()), current, prepared.grant.profile.clientId, id, old(env.now));
      ghost var c := c0.(absolute := claimed.grant.absoluteExpiry);
      var sid, profile := claimed.sid, claimed.grant.profile;
      var plain := Opened(current.secret, claimed.sid, claimed.grant);
      OpenedStored(store.Family(), claimed, c0, current.secret);
      if plain.None? || !provider.answers.configured {
        o := RevokeFamily(c, false, sid, profile.clientId, if plain.None? then
          "credential" else "connector_provenance");
        DeadSettles(store.Family(), sid, id);
        return;
      }
      ghost var held := store.Family();
      var failure, credential, started, identity := Revalidate(c, claimed, plain.value);
      if failure.Some? {
        return failure.value;
      }
      MarkedInHand(held, current, sid, id, old(env.now), started);
      ghost var since := env.now;
      o := Accept(c, started, current, claimed, credential, identity, materials);
      TimedLonger(store.Family(), o, sid, credential.accessExpiry, since, old(env.now), env.now);
      PersistedParts(store.Family(), o, current, claimed, c.absolute, c0.bound, env.now, credential);
    }

    // Tokens of a direct family can be issued.
    predicate Rotatable(g: Grant, tokens: map<Digest, Token>, materials: seq<Option<RefreshMaterial>>) {
      && provider.answers.signs && accessTtl > 0 && idTtl > 0 && g.profile.idleTtl > 0
      && NewHandle(materials, tokens, 0)
    }

    // direct: rotate a direct-email grant, which has no upstream state.
    method Direct(
      ghost c: Context, current: RefreshMaterial, prepared: Prepared, now: int, materials: seq<Option<RefreshMaterial>>)
      returns (o: Outcome)
      requires store.Recorded()
      requires ForeignTurns(env.turns, c.sid, c.id, c.h) && Claiming(store.Family(), c, false) && now <= env.now
      requires c.h == current.handleHash && c.sid == prepared.sid && c.profile == prepared.grant.profile
      requires c.absolute == prepared.grant.absoluteExpiry
        && prepared.newExpiry == Min(now + c.profile.idleTtl, c.absolute)
      requires |materials| == MAX_MATERIAL_ATTEMPTS
      modifies env, store`grants, store`tokens, store`actions, store`history
      ensures store.Recorded() && old(store.history) <= store.history && TallyNow(c.id) == old(TallyNow(c.id))
      ensures env.now >= old(env.now)
      ensures o.Issued? ==> SafelyIssued(store.Family(), o, current.handleHash, prepared.sid, c.absolute, env.now)
      ensures o.Issued? ==> Timed(store.Family(), o, prepared.sid, None, now, env.now)
      ensures o.Failed? && Undisturbed(old(env.turns)) ==>
        || store.Family() == old(store.Family())
        || (o.code == InvalidGrantCode && Consumed(old(store.Family()), c.h) && Dead(store.Family(), c.sid))
      ensures old(Alone()) && Found(old(store.Family()), current, prepared, old(env.now)) && now == old(env.now) ==>
        (o.Issued? <==> Rotatable(prepared.grant, old(store.Family()).tokens, materials))
    {
      hide Found, NewHandle, Timed, Dated, Capped;
      hide NoFailures, Undisturbed, ForeignTurns;
      hide Claiming, SafelyIssued, RefreshFamilies.RotateRefreshToken, After, TallyOf;
      var access := Capped(now + accessTtl, prepared.newExpiry, None);
      var idToken := Capped(now + idTtl, prepared.newExpiry, None);
      FoundAhead(store.Family(), current, prepared, env.now);
      if !provider.answers.signs {
        return Failed(Temporary, "");
      }
      var error := Storage;
      for attempt := 0 to MAX_MATERIAL_ATTEMPTS
        invariant store.Recorded() && old(store.history) <= store.history && TallyNow(c.id) == old(TallyNow(c.id))
        invariant env.now >= old(env.now)
        invariant ForeignTurns(env.turns, c.sid, c.id, c.h) && Claiming(store.Family(), c, false) && now <= env.now
        invariant Undisturbed(old(env.turns)) ==> Undisturbed(env.turns) && store.Family() == old(store.Family())
        invariant old(Alone()) ==> Alone() && env.now == old(env.now) && store.Family() == old(store.Family())
        invariant old(Alone()) && Found(old(store.Family()), current, prepared, old(env.now)) ==>
          (NewHandle(materials, store.Family().tokens, 0) <==> NewHandle(materials, store.Family().tokens, attempt))
      {
        NextHandle(materials, store.Family().tokens, attempt);
        if materials[attempt].None? {
          return Failed(Temporary, "");
        }
        var replacement := materials[attempt].value;
        var turn := Pause(c, false);
        if access <= env.now || idToken <= env.now {
          return Failed(InvalidGrantCode, "");
        }
        if turn.fails {
          return Failed(Temporary, "");
        }
        ghost var before := store.Family();
        o := Issued(access, idToken, replacement, prepared.grant.profile.emailVerified);
        OneMore(store.origin, store.history, Rotate(current, replacement, prepared.grant.profile.clientId, env.now),
          c.id);
        var rotated := store.RotateRefreshToken(current, replacement, prepared.grant.profile.clientId, env.now);
        RotatedSafely(before, current, env.now, c, o, now);
        RotationExact(before, current, replacement, prepared, env.now);
        if rotated.Ok? {
          DatedBy(
            store.Family(), o, prepared.sid, c.profile.idleTtl, c.absolute, None, now, env.now);
          return;
        }
        error := rotated.error;
        if error != RefreshCollision {
          return StorageError(error);
        }
      }
      NextHandle(materials, store.Family().tokens, MAX_MATERIAL_ATTEMPTS);
      return StorageError(error);
    }

    // The replay branch of Exchange: rotate to the empty material, which can only revoke.
    method PunishReplay(ghost c: Context, current: RefreshMaterial, clientId: string, now: int) returns (o: Outcome)
      requires store.Recorded()
      requires ForeignTurns(env.turns, c.sid, c.id, c.h) && ReplaySeen(store.Family(), c, current)
      requires c.h == current.handleHash && clientId == c.profile.clientId
      modifies env, store`grants, store`tokens, store`actions, store`history
      ensures store.Recorded() && old(store.history) <= store.history && TallyNow(c.id) == old(TallyNow(c.id))
      ensures env.now >= old(env.now)
      ensures o.Failed?
      ensures NoFailures(old(env.turns)) ==> Dead(store.Family(), c.sid) && o.code == InvalidGrantCode
      ensures Undisturbed(old(env.turns)) ==> store.tokens == old(store.tokens)
    {
      hide After, TallyOf;
      var turn := env.Yield(store, 0);
      assert ForeignSteps(turn.steps, c);
      ForeignTally(store.origin, old(store.history), turn.steps, |turn.steps|, c);
      NothingDone(old(store.Family()), turn.steps);
      ReplayRun(old(store.Family()), turn.steps, |turn.steps|, c, current);
      if turn.fails {
        return Failed(Temporary, "");
      }
      ghost var before := store.Family();
      OneMore(store.origin, store.history, Rotate(current, EMPTY_MATERIAL, clientId, now), c.id);
      var rotated := store.RotateRefreshToken(current, EMPTY_MATERIAL, clientId, now);
      ReplayRevokes(before, c, current, clientId, now);
      if rotated.Err? && rotated.error != RefreshReplay && rotated.error != InvalidGrant {
        return Failed(Temporary, "");
      }
      return Failed(InvalidGrantCode, "");
    }

    // What policy and provenance say about a grant, in order.
    method Screen(policy: Policy, g: Grant) returns (s: Screening)
      ensures s == Passes <==> Permitted(policy, g)
      ensures s.Refuses? <==>
        || policy.client == Unavailable
        || (policy.client == Allowed && Accessible(policy, g.profile)
            && (!policy.scopeAllowed || policy.user == Unavailable))
      ensures s.Refuses? && s.code == Temporary ==> policy.client == Unavailable || policy.user == Unavailable
    {
      if policy.client == Unavailable {
        return Refuses(Temporary);
      }
      if policy.client == Denied || !Accessible(policy, g.profile) {
        return Revokes("policy");
      }
      if !policy.scopeAllowed {
        return Refuses(InvalidScope);
      }
      if policy.user == Denied {
        return Revokes("policy");
      }
      if policy.user == Unavailable {
        return Refuses(Temporary);
      }
      var hasCredential := g.credential.Some?;
      if policy.connectorType.None? || (policy.connectorType.value == "email" && hasCredential)
         || (policy.connectorType.value != "email" && (g.profile.subject == "" || !hasCredential)) {
        return Revokes("connector_provenance");
      }
      return Passes;
    }

    // The rotation itself can go through, by the way the grant's connector asks for.
    predicate Admissible(
      f: Families, current: RefreshMaterial, prepared: Prepared, now: int, policy: Policy, id: string,
      materials: seq<Option<RefreshMaterial>>)
      reads store`accepted
    {
      if policy.connectorType == Some("email") then Rotatable(prepared.grant, f.tokens, materials)
      else
        var claim := ClaimOf(f, current, prepared.grant.profile.clientId, id, now);
        claim.Ok? && Renewable(claim.value.sid, claim.value.grant, current, now, f.tokens, materials)
    }

    // The token is good and the client's own, policy permits the grant, and either tokens can be
    // issued directly, or no upstream refresh is unfinished and the provider stands by the user.
    predicate Exchangeable(
      f: Families, current: RefreshMaterial, clientId: string, now: int, policy: Policy,
      materials: seq<Option<RefreshMaterial>>)
      reads store`accepted
    {
      && Good(f, current, now)
      && var sid := f.tokens[current.handleHash].sid;
         var g := f.grants[sid];
      && g.profile.clientId == clientId && Permitted(policy, g)
      && if policy.connectorType == Some("email") then Rotatable(g, f.tokens, materials)
         else !(g.claim.Some? && g.started) && Renewable(sid, g, current, now, f.tokens, materials)
    }

    lemma ExchangeableExactly(
      f: Families, current: RefreshMaterial, clientId: string, now: int, policy: Policy, id: string,
      materials: seq<Option<RefreshMaterial>>)
      ensures NoClaimRuns(f, current, now) ==>
        (Passable(f, current, clientId, now, policy, id, materials) <==>
           Exchangeable(f, current, clientId, now, policy, materials))
    {
      hide Permitted, Rotatable, Renewable;
    }

    // The same in the order in which it is found out.
    predicate Passable(
      f: Families, current: RefreshMaterial, clientId: string, now: int, policy: Policy, id: string,
      materials: seq<Option<RefreshMaterial>>)
      reads store`accepted
    {
      var found := PrepareRefresh(f, current, clientId, now);
      && found.Ok? && Permitted(policy, found.value.grant)
      && Admissible(f, current, found.value, now, policy, id, materials)
    }

    // The rest of Exchange, once the token was found good at the time given.
    method Proceed(
      ghost c0: Context, current: RefreshMaterial, prepared: Prepared, now: int, policy: Policy, id: string,
      materials: seq<Option<RefreshMaterial>>) returns (o: Outcome)
      requires store.Recorded() && ForeignTurns(env.turns, c0.sid, c0.id, c0.h) && Unclaimed(store.Family(), c0)
      requires id == c0.id && current.handleHash == c0.h && |materials| == MAX_MATERIAL_ATTEMPTS && now <= env.now
      requires PreparedFrom(store.Family(), prepared, now, c0)
      modifies env, store`grants, store`tokens, store`actions, store`history, provider
      ensures store.Recorded() && old(store.history) <= store.history
      ensures env.now >= old(env.now)
      ensures Conducted(old(TallyNow(id)), TallyNow(id), |provider.requests| - |old(provider.requests)|,
                        Misconfigured(provider.answers.rotation))
      ensures o.Failed? && provider.requests != old(provider.requests) ==>
        Misconfigured(provider.answers.rotation) || Ended(old(env.turns), store.Family(), o, c0)
      ensures o.Issued? ==> SafelyIssued(store.Family(), o, current.handleHash, c0.sid, c0.bound, env.now)
      ensures o.Issued? ==>
        if policy.connectorType == Some("email") then
          Timed(store.Family(), o, c0.sid, None, now, env.now)
        else Carries(store.Family(), o, c0, current.secret, old(provider.requests), old(env.now))
      ensures NoFailures(old(env.turns)) && o.Failed? && policy.connectorType != Some("email") ==>
        Settled(store.Family(), c0.sid, id)
      ensures NoFailures(old(env.turns)) && Undisturbed(old(env.turns)) && o.Failed? && o.code == Temporary ==>
        store.Family() == old(store.Family()) || store.Family() == Unclaimed1(old(store.Family()), c0.sid)
      ensures old(Alone()) && Found(old(store.Family()), current, prepared, old(env.now)) && now == old(env.now)
              && NoClaimRuns(old(store.Family()), current, now) ==>
        (o.Issued? <==>
           && Permitted(policy, prepared.grant)
           && Admissible(old(store.Family()), current, prepared, now, policy, id, materials))
    {
      hide Timed, Dated, Carries, Found, NoClaimRuns, Renewable, Rotatable, RefreshFamilies.ClaimRefresh;
      NotBusy(store.Family(), current, prepared.grant.profile.clientId, id, env.now);
      hide NoFailures, Undisturbed, ForeignTurns, Claiming, Unclaimed, Settled, SafelyIssued, TallyNow,
        StateStore.Store.Recorded, Fenced, Dead, Unclaimed1, Accessible;
      UnclaimedHolds(store.Family(), c0);
      UnheldSettles(store.Family(), c0.sid, id);
      ghost var c := c0.(absolute := prepared.grant.absoluteExpiry);
      var screening := Screen(policy, prepared.grant);
      if screening.Refuses? {
        return Failed(screening.code, "");
      }
      if screening.Revokes? {
        o := RevokeFamily(c, false, prepared.sid, prepared.grant.profile.clientId, screening.reason);
        DeadSettles(store.Family(), c0.sid, id);
        return;
      }
      if policy.connectorType.value == "email" {
        o := Direct(c, current, prepared, now, materials);
        WithinBound(store.Family(), o, current.handleHash, prepared.sid, c.absolute, c0.bound, env.now);
        return;
      }
      o := Connector(c0, current, prepared, id, materials);
    }

    // Exchange: validate one presented refresh token and rotate its grant.
    method Exchange(
      ghost c0: Context, current: RefreshMaterial, clientId: string, policy: Policy, id: string,
      materials: seq<Option<RefreshMaterial>>) returns (o: Outcome)
      requires store.Recorded() && ForeignTurns(env.turns, c0.sid, c0.id, c0.h) && Unclaimed(store.Family(), c0)
      requires id == c0.id && current.handleHash == c0.h && |materials| == MAX_MATERIAL_ATTEMPTS
      modifies env, store`grants, store`tokens, store`actions, store`history, provider
      // One mark for each credential sent, at most one; a doubtful answer ends the family.
      ensures store.Recorded() && old(store.history) <= store.history
      ensures env.now >= old(env.now)
      ensures Conducted(old(TallyNow(id)), TallyNow(id), |provider.requests| - |old(provider.requests)|,
                        Misconfigured(provider.answers.rotation))
      ensures o.Failed? && provider.requests != old(provider.requests) ==>
        Misconfigured(provider.answers.rotation) || Ended(old(env.turns), store.Family(), o, c0)
      // What is issued lies within every lifetime of the family.
      ensures o.Issued? ==> SafelyIssued(store.Family(), o, current.handleHash, c0.sid, c0.bound, env.now)
      ensures o.Issued? ==>
        if policy.connectorType == Some("email") then
          Timed(store.Family(), o, c0.sid, None, old(env.now), env.now)
        else Carries(store.Family(), o, c0, current.secret, old(provider.requests), old(env.now))
      // Without storage failures nothing is left behind, and a token that was good is good again.
      ensures NoFailures(old(env.turns)) && o.Failed? && policy.connectorType != Some("email") ==>
        Settled(store.Family(), c0.sid, id)
      ensures (NoFailures(old(env.turns)) && Undisturbed(old(env.turns)) && o.Failed? && o.code == Temporary
               && Presentable(old(store.Family()), current, clientId)) ==>
        Reclaims(old(store.Family()), store.Family(), current, clientId)
      // A token used before kills its family, whatever others do meanwhile.
      ensures ReplaySeen(old(store.Family()), c0, current) && clientId == c0.profile.clientId ==>
        o.Failed? && (NoFailures(old(env.turns)) ==> Dead(store.Family(), c0.sid))
      ensures Undisturbed(old(env.turns)) && Consumed(old(store.Family()), current.handleHash) ==>
        o.Failed? && store.tokens == old(store.tokens)
      // Left alone, with no other claim running, it issues tokens exactly if everything is in order.
      ensures old(Alone()) && NoClaimRuns(old(store.Family()), current, old(env.now)) ==>
        (o.Issued? <==> Exchangeable(old(store.Family()), current, clientId, old(env.now), policy, materials))
    {
      hide Exchangeable, Good, Timed, Dated, CredentialCarried, Unsealed, Permitted, Admissible, Found, NoClaimRuns;
      hide NoFailures, Undisturbed, ForeignTurns;
      hide Claiming, Unclaimed, Settled, SafelyIssued, Authentic, RefreshFamilies.PrepareRefresh, TallyNow,
        StateStore.Store.Recorded, Lag, Fenced, Dead,
        PreparedFrom, Reclaims, Presentable, ReplaySeen, Unclaimed1;
      ExchangeableExactly(store.Family(), current, clientId, env.now, policy, id, materials);
      var turn := Wait(c0, current, 0);
      UnclaimedHolds(store.Family(), c0);
      UnheldSettles(store.Family(), c0.sid, id);
      RetrySucceeds(store.Family(), store.Family(), current, clientId, c0.sid);
      var now := env.now;
      if turn.fails {
        return Failed(Temporary, "");
      }
      ghost var seen := store.Family();
      var r := store.PrepareRefresh(current, clientId, now);
      PreparedFacts(seen, current, clientId, now, c0);
      if clientId == c0.profile.clientId {
        ReplayNoticed(seen, current, clientId, now, c0);
      }
      if r.Err? {
        if r.error == RefreshReplay {
          o := PunishReplay(c0, current, clientId, now);
          DeadSettles(store.Family(), c0.sid, id);
          return;
        }
        return StorageError(r.error);
      }
      FoundBy(seen, current, clientId, now);
      o := Proceed(c0, current, r.value, now, policy, id, materials);
      TimedLonger(store.Family(), o, c0.sid, None, now, old(env.now), env.now);
      CarriesLonger(store.Family(), o, c0, current.secret, old(provider.requests), now, old(env.now));
      RetrySucceeds(seen, store.Family(), current, clientId, c0.sid);
    }
  }

  // ---- An exchange left alone ----------------------------------------------------------------------

  predicate CanMark(f: Families, sid: string, id: string, now: int) {
    MarkUpstreamRefreshStarted(f, sid, id, now).1.Ok?
  }

  function MarkedIf(started: bool, f: Families, sid: string, id: string, now: int): Families {
    if started then MarkUpstreamRefreshStarted(f, sid, id, now).0 else f
  }

  predicate Expiring(stored: Credential, now: int) {
    stored.accessExpiry.Some? && stored.accessExpiry.value <= now + 30 * SECOND
  }

  // The credential to show the provider: the stored one, or about to expire, what it was rotated to.
  function Fresh(stored: Credential, reply: RotationReply, now: int): Option<Credential> {
    if Expiring(stored, now) && (stored.refreshToken == "" || !reply.Refreshed?) then None
    else
      var credential := if Expiring(stored, now) then Renewed(stored, reply.credential) else stored;
      if credential.refreshToken == "" && credential.accessExpiry.None? && !credential.accessNonExpiring then None
      else Some(credential)
  }

  datatype Validation = Validation(credential: Credential, started: bool, identity: IdentityReply)

  // The provider knows the user by that credential, or rejects it and knows the user after a rotation.
  function Validated(stored: Credential, answers: Upstream, now: int): Option<Validation> {
    var shown := Fresh(stored, answers.rotation, now);
    if shown.None? then None
    else if answers.first.Known? then Some(Validation(shown.value, Expiring(stored, now), answers.first))
    else if !Expiring(stored, now) && answers.first.kind == UnauthorizedError && stored.refreshToken != ""
      && answers.rotation.Refreshed? && answers.second.Known? then
      Some(Validation(Renewed(stored, answers.rotation.credential), true, answers.second))
    else None
  }

  function ClaimOf(
    f: Families, m: RefreshMaterial, clientId: string, id: string, now: int): Result<Claimed, StoreError> {
    RefreshFamilies.ClaimRefresh(f, m, clientId, now, CLAIM_TTL, id).1
  }

  // No other claim on the token's family runs.
  predicate NoClaimRuns(f: Families, m: RefreshMaterial, now: int) {
    Joined(f, m.handleHash) ==> Free(f.grants[f.tokens[m.handleHash].sid], now)
  }

  lemma NotBusy(f: Families, m: RefreshMaterial, clientId: string, id: string, now: int)
    ensures NoClaimRuns(f, m, now) ==> ClaimOf(f, m, clientId, id, now) != Err(RefreshBusy)
  {
  }

  // What a completion asks of the families, but for the new handle.
  predicate InHand(f: Families, current: RefreshMaterial, sid: string, id: string, now: int) {
    && Joined(f, current.handleHash) && HoldsClaim(f, sid, id) && f.grants[sid].revoked.None?
    && now < f.grants[sid].claim.value.expiresAt
    && var t := f.tokens[current.handleHash];
    && t.tokenHash == current.tokenHash && t.consumedAt.None? && t.sid == sid && Unexpired(t, f.grants[sid], now)
  }

  lemma ClaimInHand(f: Families, m: RefreshMaterial, clientId: string, id: string, now: int)
    ensures var (f2, r) := RefreshFamilies.ClaimRefresh(f, m, clientId, now, CLAIM_TTL, id);
      r.Ok? ==>
        && r.value.claim.id == id && f2.tokens == f.tokens
        && InHand(f2, m, r.value.sid, id, now) && CanMark(f2, r.value.sid, id, now)
  {
  }

  lemma MarkedInHand(f: Families, m: RefreshMaterial, sid: string, id: string, now: int, started: bool)
    ensures var f2 := MarkedIf(started, f, sid, id, now);
      InHand(f, m, sid, id, now) ==> InHand(f2, m, sid, id, now) && f2.tokens == f.tokens
  {
  }

  lemma CompletionExact(
    f: Families, current: RefreshMaterial, replacement: RefreshMaterial, sid: string, idleTtl: int, id: string,
    upstream: UpstreamExpiry, box: Sealed, absolute: int, now: int)
    ensures InHand(f, current, sid, id, now) ==>
      var r := RefreshFamilies.CompleteClaimedRefresh(
                 f, current, replacement, sid, idleTtl, id, upstream, box, absolute, now).1;
      && (r.Ok? <==> replacement.handleHash !in f.tokens)
      && (r == Err(RefreshCollision) <==> replacement.handleHash in f.tokens)
  {
  }

  // The grant in hand is the one the presented token is good for.
  predicate Found(f: Families, m: RefreshMaterial, prepared: Prepared, now: int) {
    var r := RefreshFamilies.PrepareRefresh(f, m, prepared.grant.profile.clientId, now);
    r.Ok? && r.value == prepared
  }

  lemma FoundBy(f: Families, m: RefreshMaterial, clientId: string, now: int)
    ensures var r := RefreshFamilies.PrepareRefresh(f, m, clientId, now);
      r.Ok? ==> Found(f, m, r.value, now)
  {
  }

  lemma FoundAhead(f: Families, m: RefreshMaterial, prepared: Prepared, now: int)
    ensures Found(f, m, prepared, now) ==> now < prepared.grant.absoluteExpiry
  {
  }

  lemma RotationExact(
    f: Families, current: RefreshMaterial, replacement: RefreshMaterial, prepared: Prepared, now: int)
    ensures Found(f, current, prepared, now) ==>
      var r := RefreshFamilies.RotateRefreshToken(f, current, replacement, prepared.grant.profile.clientId, now).1;
      && (r.Ok? <==> replacement.handleHash !in f.tokens)
      && (r == Err(RefreshCollision) <==> replacement.handleHash in f.tokens)
  {
  }

  // Policy, scopes, user and provenance all let the grant pass.
  predicate Permitted(policy: Policy, g: Grant) {
    && policy.client == Allowed && policy.user == Allowed && policy.scopeAllowed && Accessible(policy, g.profile)
    && policy.connectorType.Some? && (policy.connectorType == Some("email") <==> g.credential.None?)
    && (g.credential.Some? ==> g.profile.subject != "")
  }

  // What a failure leaves once a credential was sent and its rotation cannot be ruled out: the
  // family stays fenced, so that nobody sends the credential again, and is dead if storage works.
  ghost predicate Ended(turns: seq<Turn>, f: Families, o: Outcome, c: Context) {
    o.Failed? && Fenced(f, c.sid, c.id) && (NoFailures(turns) ==> Dead(f, c.sid) && o.code == InvalidGrantCode)
  }

  ghost predicate PreparedFrom(f: Families, p: Prepared, now: int, c: Context) {
    && p.sid == c.sid && p.grant.profile == c.profile && p.grant.absoluteExpiry <= c.bound
    && p.newExpiry == Min(now + c.profile.idleTtl, p.grant.absoluteExpiry)
    && Claiming(f, c.(absolute := p.grant.absoluteExpiry), false)
  }

  ghost predicate Acquired(f: Families, claimed: Claimed, c: Context) {
    && claimed.sid == c.sid && claimed.claim.id == c.id && claimed.grant.profile == c.profile
    && claimed.grant.credential == c.stored
    && claimed.grant.absoluteExpiry <= c.bound
    && Claiming(f, c.(absolute := claimed.grant.absoluteExpiry), false) && Holding(f, claimed)
  }

  // ---- Completions under one claim ----------------------------------------------------------------

  predicate Collided(f: Families, s: Step) {
    && s.Complete?
    && RefreshFamilies.CompleteClaimedRefresh(
         f, s.current, s.replacement, s.sid, s.idleTtl, s.id, s.upstream, s.sealed, s.absoluteExpiry, s.now).1
           == Err(RefreshCollision)
  }

  // Every completion under the claim among steps from to n met a handle collision.
  ghost predicate CollidedUntil(f: Families, run: seq<Step>, id: string, from: nat, n: int) {
    forall k :: from <= k < n && k < |run| && run[k].Complete? && run[k].id == id ==> Collided(After(f, run, k), run[k])
  }

  lemma NoneCollided(f: Families, run: seq<Step>, id: string)
    ensures CollidedUntil(f, run, id, |run|, |run|)
  {
  }

  lemma CollidedLess(f: Families, run: seq<Step>, id: string, from: nat, n: int)
    requires CollidedUntil(f, run, id, from, n)
    ensures CollidedUntil(f, run, id, from, n - 1)
  {
    hide After, Collided;
  }

  lemma OthersCollide(f: Families, run: seq<Step>, longer: seq<Step>, c: Context, from: nat)
    requires run <= longer && CollidedUntil(f, run, c.id, from, |run|)
    requires forall k :: |run| <= k < |longer| ==> Foreign(longer[k], c.sid, c.id, c.h)
    ensures CollidedUntil(f, longer, c.id, from, |longer|)
  {
    hide After, Collided;
    forall k | from <= k < |longer| && longer[k].Complete? && longer[k].id == c.id
      ensures Collided(After(f, longer, k), longer[k]) {
      PrefixKept(f, run, longer, c.id, k);
    }
  }

  lemma CollidedMore(f: Families, run: seq<Step>, s: Step, id: string, from: nat)
    requires CollidedUntil(f, run, id, from, |run|)
    ensures CollidedUntil(f, run + [s], id, from, |run|)
    ensures Collided(After(f, run, |run|), s) ==> CollidedUntil(f, run + [s], id, from, |run| + 1)
  {
    hide After, Collided;
    forall k | from <= k <= |run| ensures After(f, run + [s], k) == After(f, run, k) {
      PrefixKept(f, run, run + [s], id, k);
    }
  }

  // A provider that sends no new refresh token leaves the old one in use.
  function Renewed(stored: Credential, refreshed: Credential): Credential {
    if refreshed.refreshToken == "" then refreshed.(refreshToken := stored.refreshToken) else refreshed
  }

  lemma {:induction false} NothingDone(f: Families, steps: seq<Step>)
    ensures steps == [] ==> After(f, steps, |steps|) == f
  {
  }

  lemma SentAfterMark(f: Families, run: seq<Step>, longer: seq<Step>, id: string)
    requires run <= longer
    ensures TallyOf(f, longer, id, |run|) == TallyOf(f, run, id, |run|)
  {
    PrefixKept(f, run, longer, id, |run|);
  }

  lemma AbortEnds(f: Families, sid: string, id: string, c: Context)
    requires Claiming(f, c, true) && sid == c.sid && id == c.id
    ensures Settled(AbortUpstreamRefresh(f, sid, id).0, sid, id)
  {
  }

  // Refresh tokens are still enabled for the client, offline ones included where they apply.
  predicate Accessible(policy: Policy, p: Profile) {
    policy.refreshEnabled && (p.mode == "offline" ==> policy.offlineAllowed)
  }

  lemma DeadSettles(f: Families, sid: string, id: string)
    ensures Dead(f, sid) ==> Settled(f, sid, id)
  {
  }

  lemma WithinBound(f: Families, o: Outcome, h: Digest, sid: string, absolute: int, bound: int, now: int)
    requires absolute <= bound
    ensures SafelyIssued(f, o, h, sid, absolute, now) ==> SafelyIssued(f, o, h, sid, bound, now)
  {
  }

  // What PrepareRefresh tells the exchange, replay included.
  lemma PreparedFacts(f: Families, m: RefreshMaterial, clientId: string, now: int, c: Context)
    requires Unclaimed(f, c) && c.h == m.handleHash
    ensures var r := RefreshFamilies.PrepareRefresh(f, m, clientId, now);
      && (Consumed(f, m.handleHash) ==> r.Err?)
      && (Consumed(f, m.handleHash) && Authentic(f, m, clientId) ==> r == Err(RefreshReplay))
      && (r.Err? ==> r.error == RefreshReplay || r.error == InvalidGrant)
      && (r == Err(RefreshReplay) ==> ReplaySeen(f, c, m) && clientId == c.profile.clientId)
      && (r.Ok? ==> PreparedFrom(f, r.value, now, c))
  {
    hide Inv;
    assert !HoldsClaim(f, c.sid, c.id);
  }

  // A token used before is never prepared; it is found out, unless the family is dead already.
  lemma ReplayNoticed(f: Families, m: RefreshMaterial, clientId: string, now: int, c: Context)
    requires c.h == m.handleHash && clientId == c.profile.clientId
    requires Unclaimed(f, c)
    ensures ReplaySeen(f, c, m) ==>
      var r := RefreshFamilies.PrepareRefresh(f, m, clientId, now);
      r.Err? && (r.error != RefreshReplay ==> Dead(f, c.sid))
  {
    hide Inv;
  }

  lemma UsedIsSeen(f: Families, m: RefreshMaterial, clientId: string, c: Context)
    requires Unclaimed(f, c) && c.h == m.handleHash && Authentic(f, m, clientId) && Consumed(f, m.handleHash)
    ensures ReplaySeen(f, c, m) && clientId == c.profile.clientId
  {
    hide Inv;
  }

  lemma ReplayRevokes(f: Families, c: Context, m: RefreshMaterial, clientId: string, now: int)
    requires ReplaySeen(f, c, m) && c.h == m.handleHash && clientId == c.profile.clientId
    ensures var (f2, r) := RefreshFamilies.RotateRefreshToken(f, m, EMPTY_MATERIAL, clientId, now);
      && Dead(f2, c.sid)
      && f2.tokens == f.tokens && r.Err? && (r.error == RefreshReplay || r.error == InvalidGrant)
  {
  }

  lemma RotatedSafely(f: Families, current: RefreshMaterial, now: int, c: Context, o: Outcome, preparedAt: int)
    requires Claiming(f, c, false) && c.h == current.handleHash && o.Issued? && preparedAt <= now
    requires o.accessExpiry <= Min(preparedAt + c.profile.idleTtl, c.absolute)
    requires o.idExpiry <= Min(preparedAt + c.profile.idleTtl, c.absolute)
    ensures var (f2, r) := RefreshFamilies.RotateRefreshToken(f, current, o.token, c.profile.clientId, now);
      && (r.Ok? ==>
            && SafelyIssued(f2, o, current.handleHash, c.sid, c.absolute, now)
            && c.sid in f2.grants && f2.grants[c.sid].profile == c.profile
            && f2.grants[c.sid].absoluteExpiry == c.absolute)
      && (r.Err? && r.error != RefreshReplay ==> f2 == f)
      && (r == Err(RefreshReplay) ==> Consumed(f, c.h) && Dead(f2, c.sid))
      && (r.Err? ==> r.error == RefreshReplay || r.error == InvalidGrant || r.error == RefreshCollision)
  {
    hide Inv;
  }

  // The credential that the family's row held for the presented token, if the secret opens it.
  function Unsealed(c: Context, secret: Bytes): Option<Credential> {
    if c.stored.None? then None
    else DecryptCredential(secret, c.sid, c.profile.clientId, c.profile.connectorId, c.stored.value)
  }

  // The stored credential, if the presented token's secret opens it.
  function Opened(secret: Bytes, sid: string, g: Grant): Option<Credential> {
    if g.credential.None? then None
    else DecryptCredential(secret, sid, g.profile.clientId, g.profile.connectorId, g.credential.value)
  }

  lemma OpenedStored(f: Families, claimed: Claimed, c: Context, secret: Bytes)
    requires Acquired(f, claimed, c)
    ensures Opened(secret, claimed.sid, claimed.grant) == Unsealed(c, secret)
  {
  }

  // Everything a successful connector exchange leaves behind.
  predicate PersistedSafely(
    f: Families, o: Outcome, current: RefreshMaterial, claimed: Claimed, bound: int, now: int, credential: Credential) {
    && SafelyIssued(f, o, current.handleHash, claimed.sid, bound, now)
    && CredentialCarried(f, o, claimed.sid, credential)
    && Settled(f, claimed.sid, claimed.claim.id)
  }

  predicate Matches(c: Context, current: RefreshMaterial, claimed: Claimed) {
    && c.sid == claimed.sid && c.id == claimed.claim.id && c.h == current.handleHash
    && c.profile == claimed.grant.profile && c.absolute == claimed.grant.absoluteExpiry
  }

  predicate Holding(f: Families, claimed: Claimed) {
    HoldsClaim(f, claimed.sid, claimed.claim.id) && !f.grants[claimed.sid].started
  }

  // A token expiry is capped by the refresh token's expiry and by a known upstream access expiry.
  function Capped(t: int, expiry: int, upstream: Option<int>): (r: int)
    ensures r <= expiry && (upstream.Some? ==> r <= upstream.value)
    ensures r == t || (r < t && (r == expiry || upstream == Some(r)))
  {
    var capped := if t > expiry then expiry else t;
    if upstream.Some? && capped > upstream.value then upstream.value else capped
  }

  lemma ReleasedSettles(before: Families, f: Families, claimed: Claimed)
    ensures !HoldsClaim(f, claimed.sid, claimed.claim.id) ==> Settled(f, claimed.sid, claimed.claim.id)
    ensures Holding(before, claimed) && f == ReleaseRefreshClaim(before, claimed.sid, claimed.claim.id) ==>
      f == Unclaimed1(before, claimed.sid)
  {
  }

  // A completion either changes nothing the worker relies on, or leaves the issued tokens within
  // every lifetime of the family and the credential sealed for the new token.
  // When the upstream login of a credential ends, as far as it says.
  function LoginOf(credential: Credential): UpstreamExpiry {
    UpstreamExpiry(credential.accessExpiry, credential.refreshExpiry, credential.accessNonExpiring)
  }

  lemma CompletedSafely(
    f: Families, current: RefreshMaterial, idleTtl: int, upstream: UpstreamExpiry, box: Sealed, absolute: int, now: int,
    claimed: Claimed, c: Context, marked: bool, o: Outcome, issuedAt: int)
    requires Claiming(f, c, marked) && Matches(c, current, claimed) && o.Issued? && issuedAt <= now
      && absolute <= c.absolute
    requires box == Sealed(o.token.secret, c.sid, c.profile.clientId, c.profile.connectorId, box.content)
      && box.content.Some?
    requires o.accessExpiry <= Min(issuedAt + idleTtl, absolute) && o.idExpiry <= Min(issuedAt + idleTtl, absolute)
    requires upstream == LoginOf(box.content.value) && idleTtl == c.profile.idleTtl
    requires upstream.access.Some? ==> o.accessExpiry <= upstream.access.value && o.idExpiry <= upstream.access.value
    ensures var (f2, r) := RefreshFamilies.CompleteClaimedRefresh(
                             f, current, o.token, claimed.sid, idleTtl, claimed.claim.id, upstream, box, absolute, now);
      && (r.Err? ==> f2 == f && r != Err(Storage))
      && (r.Ok? ==>
            && PersistedSafely(f2, o, current, claimed, c.absolute, now, box.content.value)
            && c.sid in f2.grants && f2.grants[c.sid].profile == c.profile
            && f2.grants[c.sid].absoluteExpiry == absolute)
  {
    hide Inv, Fenced;
  }

  lemma UnheldSettles(f: Families, sid: string, id: string)
    ensures !HoldsClaim(f, sid, id) ==> Settled(f, sid, id)
  {
  }

  lemma PersistedParts(
    f: Families, o: Outcome, current: RefreshMaterial, claimed: Claimed, absolute: int, bound: int, now: int,
    credential: Credential)
    requires absolute <= bound
    ensures PersistedSafely(f, o, current, claimed, absolute, now, credential) ==>
      && SafelyIssued(f, o, current.handleHash, claimed.sid, bound, now)
      && CredentialCarried(f, o, claimed.sid, credential) && Settled(f, claimed.sid, claimed.claim.id)
  {
  }

  // The token is good, and no upstream refresh of its family is under way.
  predicate Presentable(f: Families, m: RefreshMaterial, clientId: string) {
    && Authentic(f, m, clientId) && f.tokens[m.handleHash].consumedAt.None?
    && !f.grants[f.tokens[m.handleHash].sid].started
  }

  // No claim on the family runs at the time.
  predicate Free(g: Grant, now: int) {
    g.claim.None? || g.claim.value.expiresAt <= now
  }

  // Presented again to the later families, the token takes the claim as long as it would not have
  // expired, nor met a running claim, in the earlier ones.
  ghost predicate Reclaims(before: Families, after: Families, m: RefreshMaterial, clientId: string) {
    Joined(before, m.handleHash) ==>
      var t := before.tokens[m.handleHash];
      forall now, id :: Unexpired(t, before.grants[t.sid], now) && Free(before.grants[t.sid], now) ==>
        RefreshFamilies.ClaimRefresh(after, m, clientId, now, CLAIM_TTL, id).1.Ok?
  }

  // An exchange that failed without consequences leaves a token that can be presented again.
  lemma RetrySucceeds(f: Families, f2: Families, m: RefreshMaterial, clientId: string, sid: string)
    ensures Presentable(f, m, clientId) && (f2 == f || f2 == Unclaimed1(f, sid)) ==> Reclaims(f, f2, m, clientId)
  {
  }

  lemma UnclaimedHolds(f: Families, c: Context)
    requires Unclaimed(f, c)
    ensures !HoldsClaim(f, c.sid, c.id)
  {
  }

  lemma ClaimTaken(f: Families, m: RefreshMaterial, clientId: string, now: int, ttl: int, id: string, c: Context)
    requires Unclaimed(f, c) && id == c.id && m.handleHash == c.h
    ensures var (f2, r) := RefreshFamilies.ClaimRefresh(f, m, clientId, now, ttl, id);
      && (r.Err? ==> !HoldsClaim(f2, c.sid, c.id) && r != Err(Storage))
      && (r.Err? && StorageError(r.error).code == Temporary ==> f2 == f)
      && (r.Ok? ==> Acquired(f2, r.value, c) && Unclaimed1(f2, c.sid) == Unclaimed1(f, c.sid))
  {
    var s := Claim(m, clientId, now, ttl, id);
    InvStep(f, s);
    assert Apply(f, s) == RefreshFamilies.ClaimRefresh(f, m, clientId, now, ttl, id).0;
    hide Inv;
  }

  lemma MarkedClaim(f: Families, sid: string, id: string, now: int, c: Context)
    requires Claiming(f, c, false) && sid == c.sid && id == c.id && MarkUpstreamRefreshStarted(f, sid, id, now).1.Ok?
    ensures Claiming(MarkUpstreamRefreshStarted(f, sid, id, now).0, c, true)
  {
    var f2 := Apply(f, Mark(sid, id, now));
    InvStep(f, Mark(sid, id, now));
    hide Inv;
    assert forall h :: Live(f2, h) ==> Live(f, h);
  }

  lemma RefusedMark(f: Families, sid: string, id: string, now: int)
    ensures MarkUpstreamRefreshStarted(f, sid, id, now).1.Err? ==> MarkUpstreamRefreshStarted(f, sid, id, now).0 == f
  {
  }

  // An abort inside the fence frees the family; one that finds nothing to free finds it dead.
  lemma AbortSettles(before: Families, f: Families, sid: string, id: string, t: int, c: Context)
    requires Claiming(f, c, true) && sid == c.sid && id == c.id
    ensures Settled(AbortUpstreamRefresh(f, sid, id).0, sid, id)
    ensures var (marked, r) := MarkUpstreamRefreshStarted(before, sid, id, t);
      marked == f && r.Ok? ==> AbortUpstreamRefresh(f, sid, id).0 == Unclaimed1(before, sid)
  {
  }
}
