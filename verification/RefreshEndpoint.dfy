// The refresh branch of HandleToken in internal/oidc/handle_token.go: who may present a refresh
// token at all, before the exchange of internal/refresh/service.go sees it.
module RefreshEndpoint {
  import opened Common
  import opened RefreshFamilies
  import opened RefreshReplay
  import opened RefreshTheorems
  import StateStore
  import opened Interference
  import opened RefreshService
  import opened ReplayCache

  // The DPoP headers of the request; a proof that verifies names its key and its replay hash.
  datatype Proof = Proof(key: string, hash: Digest)

  datatype Headers = NoProof | OneProof(verified: Option<Proof>) | SeveralProofs

  datatype Refusal = InvalidRequest | BadGrant | BadProof | Unanswered

  datatype Reply = Refused(why: Refusal) | Exchanged(outcome: Outcome)

  // The client's configuration at the first look: whether it may be served, and whether it binds.
  datatype Admission = Admission(client: Decision, required: bool)

  predicate ProvenBy(headers: Headers, jkt: string) {
    headers.OneProof? && headers.verified.Some? && headers.verified.value.key == jkt
  }

  // A bound family asks for one proof by its own key, an unbound one for none.
  predicate Shown(headers: Headers, jkt: string) {
    if jkt == "" then headers == NoProof else ProvenBy(headers, jkt)
  }

  predicate Admitted(admission: Admission, jkt: string, headers: Headers) {
    admission.client == Allowed && admission.required == (jkt != "") && Shown(headers, jkt)
  }

  // The checks on client and proof, in order.
  method Check(admission: Admission, jkt: string, headers: Headers) returns (refusal: Option<Refusal>)
    ensures refusal.None? <==> Admitted(admission, jkt, headers)
    ensures refusal == Some(Unanswered) <==> admission.client == Unavailable
    ensures refusal == Some(InvalidRequest) <==>
      admission == Admission(Allowed, false) && jkt == "" && headers != NoProof
    ensures refusal == Some(BadProof) <==>
      admission == Admission(Allowed, true) && jkt != "" && !(headers.OneProof? && headers.verified.Some?)
  {
    if admission.client == Denied {
      return Some(BadGrant);
    }
    if admission.client == Unavailable {
      return Some(Unanswered);
    }
    if (jkt == "" && admission.required) || (jkt != "" && !admission.required) {
      return Some(BadGrant);
    }
    if jkt == "" {
      if headers != NoProof {
        return Some(InvalidRequest);
      }
    } else {
      if !headers.OneProof? || headers.verified.None? {
        return Some(BadProof);
      }
      if headers.verified.value.key != jkt {
        return Some(BadGrant);
      }
    }
    return None;
  }

  // The token is known, to this client, in a family that is alive: unexpired, or seen before.
  predicate Inspected(f: Families, m: RefreshMaterial, clientId: string, now: int) {
    var r := PrepareRefresh(f, m, clientId, now);
    r.Ok? || r.error == StoreError.RefreshReplay
  }

  lemma InspectedFamily(f: Families, m: RefreshMaterial, clientId: string, now: int, c: Context)
    requires Unclaimed(f, c) && c.h == m.handleHash && Inspected(f, m, clientId, now)
    ensures Joined(f, m.handleHash) && f.grants[f.tokens[m.handleHash].sid].profile == c.profile
  {
  }

  lemma NothingScheduled(turns: seq<Turn>)
    ensures turns == [] ==> NoFailures(turns) && Undisturbed(turns)
  {
  }

  lemma ExchangeableInspected(
    service: Service, f: Families, m: RefreshMaterial, clientId: string, now: int, policy: Policy,
    materials: seq<Option<RefreshMaterial>>)
    ensures service.Exchangeable(f, m, clientId, now, policy, materials) ==> Inspected(f, m, clientId, now)
  {
  }

  class Endpoint {
    const service: Service
    const replay: Cache

    constructor (service: Service, replay: Cache)
      ensures this.service == service && this.replay == replay
    {
      this.service, this.replay := service, replay;
    }

    // The first look at the token; a replay is let through to be punished.
    method Inspect(ghost c0: Context, current: RefreshMaterial, clientId: string) returns (r: Result<string, Refusal>)
      requires service.store.Recorded() && Unclaimed(service.store.Family(), c0)
      requires ForeignTurns(service.env.turns, c0.sid, c0.id, c0.h) && current.handleHash == c0.h
      modifies service.env, service.store`grants, service.store`tokens, service.store`actions, service.store`history
      ensures service.store.Recorded() && old(service.store.history) <= service.store.history
      ensures service.TallyNow(c0.id) == old(service.TallyNow(c0.id))
      ensures ForeignTurns(service.env.turns, c0.sid, c0.id, c0.h) && Unclaimed(service.store.Family(), c0)
      ensures service.env.now >= old(service.env.now)
      ensures r.Ok? ==> r.value == c0.profile.dpopJkt
      ensures NoFailures(old(service.env.turns)) ==>
        && NoFailures(service.env.turns)
        && (r.Ok? <==> Inspected(service.store.Family(), current, clientId, service.env.now))
      ensures Undisturbed(old(service.env.turns)) ==>
        Undisturbed(service.env.turns) && service.store.Family() == old(service.store.Family())
      ensures ReplaySeen(old(service.store.Family()), c0, current) ==> ReplaySeen(service.store.Family(), c0, current)
      ensures old(service.Alone()) ==>
        && service.Alone() && service.env.now == old(service.env.now)
        && service.store.Family() == old(service.store.Family())
    {
      hide NoFailures, Undisturbed, ForeignTurns;
      hide Unclaimed, ReplaySeen, StateStore.Store.Recorded, Service.TallyNow;
      var turn := service.Wait(c0, current, 0);
      if turn.fails {
        return Err(Unanswered);
      }
      var prepared := service.store.PrepareRefresh(current, clientId, service.env.now);
      if prepared.Err? && prepared.error != StoreError.RefreshReplay {
        return Err(if prepared.error == InvalidGrant then BadGrant else Unanswered);
      }
      InspectedFamily(service.store.Family(), current, clientId, service.env.now, c0);
      return Ok(service.store.grants[service.store.tokens[current.handleHash].sid].profile.dpopJkt);
    }

    // The proof of a bound family is reserved, a little later.
    method ReserveProof(
      ghost c0: Context, ghost current: RefreshMaterial, headers: Headers, jkt: string) returns (ok: bool)
      requires service.store.Recorded() && Unclaimed(service.store.Family(), c0) && replay.Valid()
      requires ForeignTurns(service.env.turns, c0.sid, c0.id, c0.h) && (jkt != "" ==> ProvenBy(headers, jkt))
      modifies service.env, service.store`grants, service.store`tokens, service.store`actions, service.store`history,
        replay
      ensures service.store.Recorded() && old(service.store.history) <= service.store.history
      ensures service.TallyNow(c0.id) == old(service.TallyNow(c0.id))
      ensures ForeignTurns(service.env.turns, c0.sid, c0.id, c0.h) && Unclaimed(service.store.Family(), c0)
      ensures service.env.now >= old(service.env.now) && replay.Valid()
      ensures NoFailures(old(service.env.turns)) ==> NoFailures(service.env.turns)
      ensures Undisturbed(old(service.env.turns)) ==>
        Undisturbed(service.env.turns) && service.store.Family() == old(service.store.Family())
      ensures ReplaySeen(old(service.store.Family()), c0, current) ==> ReplaySeen(service.store.Family(), c0, current)
      ensures old(service.Alone()) ==>
        && service.Alone() && service.env.now == old(service.env.now)
        && service.store.Family() == old(service.store.Family())
      ensures jkt == "" ==> ok && replay.entries == old(replay.entries)
      ensures jkt != "" ==>
        var (entries, verdict) :=
          Reservation(old(replay.entries), replay.maxEntries, headers.verified.value.hash, service.env.now);
        replay.entries == entries && (ok <==> verdict == Reserved)
    {
      hide NoFailures, Undisturbed, ForeignTurns;
      hide Unclaimed, ReplaySeen, Reservation, StateStore.Store.Recorded, Service.TallyNow;
      var _ := service.Wait(c0, current, 0);
      if jkt == "" {
        return true;
      }
      var verdict := replay.Reserve(headers.verified.value.hash, service.env.now);
      return verdict == Reserved;
    }

    // All that comes before the exchange. looked and at are the readings of the clock at the first
    // look and at the reservation.
    method Admit(
      ghost c0: Context, presented: Option<RefreshMaterial>, clientId: string, admission: Admission, headers: Headers)
      returns (refusal: Option<Refusal>, ghost looked: int, ghost at: int)
      requires service.store.Recorded() && Unclaimed(service.store.Family(), c0) && replay.Valid()
      requires ForeignTurns(service.env.turns, c0.sid, c0.id, c0.h)
      requires presented.Some? ==> presented.value.handleHash == c0.h
      modifies service.env, service.store`grants, service.store`tokens, service.store`actions, service.store`history,
        replay
      ensures service.store.Recorded() && old(service.store.history) <= service.store.history
      ensures service.TallyNow(c0.id) == old(service.TallyNow(c0.id))
      ensures ForeignTurns(service.env.turns, c0.sid, c0.id, c0.h) && Unclaimed(service.store.Family(), c0)
      ensures replay.Valid() && old(service.env.now) <= looked <= at == service.env.now
      ensures refusal.None? ==> presented.Some? && Admitted(admission, c0.profile.dpopJkt, headers)
      ensures replay.entries != old(replay.entries) ==>
        && c0.profile.dpopJkt != "" && ProvenBy(headers, c0.profile.dpopJkt)
        && replay.entries == Reservation(old(replay.entries), replay.maxEntries, headers.verified.value.hash, at).0
      ensures refusal.None? && c0.profile.dpopJkt != "" ==>
        Reservation(old(replay.entries), replay.maxEntries, headers.verified.value.hash, at)
          == (replay.entries, Reserved)
      ensures NoFailures(old(service.env.turns)) ==> NoFailures(service.env.turns)
      ensures Undisturbed(old(service.env.turns)) ==>
        Undisturbed(service.env.turns) && service.store.Family() == old(service.store.Family())
      ensures NoFailures(old(service.env.turns)) && Undisturbed(old(service.env.turns)) ==>
        (refusal.None? <==>
           && presented.Some? && Inspected(old(service.store.Family()), presented.value, clientId, looked)
           && Admitted(admission, c0.profile.dpopJkt, headers)
           && (c0.profile.dpopJkt != "" ==>
                 Reservation(old(replay.entries), replay.maxEntries, headers.verified.value.hash, at).1 == Reserved))
      ensures old(service.Alone()) ==>
        && service.Alone() && service.env.now == old(service.env.now)
        && NoFailures(old(service.env.turns)) && Undisturbed(old(service.env.turns))
      ensures presented.Some? && ReplaySeen(old(service.store.Family()), c0, presented.value) ==>
        ReplaySeen(service.store.Family(), c0, presented.value)
    {
      NothingScheduled(service.env.turns);
      hide NoFailures, Undisturbed, ForeignTurns;
      hide Unclaimed, Reservation, Inspected, ReplaySeen, StateStore.Store.Recorded, Service.TallyNow;
      looked, at := service.env.now, service.env.now;
      if presented.None? {
        return Some(BadGrant), looked, at;
      }
      var inspected := Inspect(c0, presented.value, clientId);
      looked, at := service.env.now, service.env.now;
      if inspected.Err? {
        return Some(inspected.error), looked, at;
      }
      var jkt := inspected.value;
      refusal := Check(admission, jkt, headers);
      if refusal.Some? {
        return;
      }
      var reserved := ReserveProof(c0, presented.value, headers, jkt);
      at := service.env.now;
      if !reserved {
        return Some(BadProof), looked, at;
      }
      return None, looked, at;
    }

    // The whole handler, with the same two readings.
    method HandleRefresh(
      ghost c0: Context, presented: Option<RefreshMaterial>, clientId: string, admission: Admission, headers: Headers,
      policy: Policy, id: string, materials: seq<Option<RefreshMaterial>>)
      returns (reply: Reply, ghost looked: int, ghost at: int)
      requires service.store.Recorded() && Unclaimed(service.store.Family(), c0) && replay.Valid()
      requires ForeignTurns(service.env.turns, c0.sid, c0.id, c0.h)
      requires presented.Some? ==> presented.value.handleHash == c0.h
      requires id == c0.id && |materials| == MAX_MATERIAL_ATTEMPTS
      modifies service.env, service.store`grants, service.store`tokens, service.store`actions, service.store`history,
        service.provider, replay
      // A refused request does nothing to any family; a replayed token without its key revokes nothing.
      ensures service.store.Recorded() && old(service.store.history) <= service.store.history
      ensures reply.Refused? ==>
        && Unclaimed(service.store.Family(), c0) && service.provider.requests == old(service.provider.requests)
        && service.TallyNow(id) == old(service.TallyNow(id))
      ensures reply.Refused? && Undisturbed(old(service.env.turns)) ==>
        service.store.Family() == old(service.store.Family())
      // Only a holder of the family's key, with a proof not seen before, gets through to the exchange.
      ensures reply.Exchanged? ==> presented.Some? && Admitted(admission, c0.profile.dpopJkt, headers)
      ensures replay.Valid() && old(service.env.now) <= looked <= at <= service.env.now
      ensures reply.Refused? ==> at == service.env.now
      ensures replay.entries != old(replay.entries) ==>
        && c0.profile.dpopJkt != "" && ProvenBy(headers, c0.profile.dpopJkt)
        && replay.entries == Reservation(old(replay.entries), replay.maxEntries, headers.verified.value.hash, at).0
      ensures reply.Exchanged? && c0.profile.dpopJkt != "" ==>
        Reservation(old(replay.entries), replay.maxEntries, headers.verified.value.hash, at)
          == (replay.entries, Reserved)
      ensures NoFailures(old(service.env.turns)) && Undisturbed(old(service.env.turns)) ==>
        (reply.Exchanged? <==>
           && presented.Some? && Inspected(old(service.store.Family()), presented.value, clientId, looked)
           && Admitted(admission, c0.profile.dpopJkt, headers)
           && (c0.profile.dpopJkt != "" ==>
                 Reservation(old(replay.entries), replay.maxEntries, headers.verified.value.hash, at).1 == Reserved))
      // And what the exchange promises.
      ensures reply.Exchanged? ==>
        && Conducted(old(service.TallyNow(id)), service.TallyNow(id),
                     |service.provider.requests| - |old(service.provider.requests)|,
                     Misconfigured(service.provider.answers.rotation))
        && (reply.outcome.Failed? && service.provider.requests != old(service.provider.requests) ==>
              || Misconfigured(service.provider.answers.rotation)
              || Ended(old(service.env.turns), service.store.Family(), reply.outcome, c0))
      ensures reply.Exchanged? && reply.outcome.Issued? ==>
        SafelyIssued(service.store.Family(), reply.outcome, presented.value.handleHash, c0.sid, c0.bound,
          service.env.now)
      ensures reply.Exchanged? && reply.outcome.Issued? ==>
        if policy.connectorType == Some("email") then
          service.Timed(
            service.store.Family(), reply.outcome, c0.sid, None, old(service.env.now), service.env.now)
        else
          service.Carries(
            service.store.Family(), reply.outcome, c0, presented.value.secret, old(service.provider.requests),
            old(service.env.now))
      ensures (reply.Exchanged? && NoFailures(old(service.env.turns)) && reply.outcome.Failed?
               && policy.connectorType != Some("email")) ==>
        Settled(service.store.Family(), c0.sid, id)
      ensures (reply.Exchanged? && Authentic(old(service.store.Family()), presented.value, clientId)
               && Consumed(old(service.store.Family()), presented.value.handleHash)) ==>
        && reply.outcome.Failed?
        && (NoFailures(old(service.env.turns)) ==> Dead(service.store.Family(), c0.sid))
      // Left alone, with no other claim running, tokens are issued exactly if all is in order.
      ensures old(service.Alone()) && presented.Some?
              && NoClaimRuns(old(service.store.Family()), presented.value, old(service.env.now)) ==>
        (reply.Exchanged? && reply.outcome.Issued? <==>
           && Admitted(admission, c0.profile.dpopJkt, headers)
           && (c0.profile.dpopJkt != "" ==>
                 Reservation(old(replay.entries), replay.maxEntries, headers.verified.value.hash, at).1 == Reserved)
           && service.Exchangeable(
                old(service.store.Family()), presented.value, clientId, old(service.env.now), policy, materials))
    {
      hide NoFailures, Undisturbed, ForeignTurns;
      hide Unclaimed, Settled, SafelyIssued, Authentic, Consumed, Reservation, Inspected, ReplaySeen, Dead, Fenced,
        Misconfigured, NoClaimRuns, Service.Exchangeable, Service.Timed, Service.Carries, Reclaims, Presentable,
        StateStore.Store.Recorded,
        Service.TallyNow;
      if (presented.Some? && Authentic(service.store.Family(), presented.value, clientId)
          && Consumed(service.store.Family(), presented.value.handleHash)) {
        UsedIsSeen(service.store.Family(), presented.value, clientId, c0);
      }
      if presented.Some? {
        ExchangeableInspected(
          service, service.store.Family(), presented.value, clientId, service.env.now, policy, materials);
      }
      var refusal;
      refusal, looked, at := Admit(c0, presented, clientId, admission, headers);
      if refusal.Some? {
        return Refused(refusal.value), looked, at;
      }
      ghost var before, since := service.provider.requests, service.env.now;
      var o := service.Exchange(c0, presented.value, clientId, policy, id, materials);
      service.TimedLonger(
        service.store.Family(), o, c0.sid, None, since, old(service.env.now), service.env.now);
      service.CarriesLonger(
        service.store.Family(), o, c0, presented.value.secret, before, since, old(service.env.now));
      return Exchanged(o), looked, at;
    }
  }
}
