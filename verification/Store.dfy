// internal/statedb's Store: its tables are fields, its transactions are methods that read rows,
// stop early, or commit, and each is proved equal to the table function of the same name.
module StateStore {
  import opened Common
  import opened RefreshFamilies
  import opened FlowTables
  import opened OtpTables
  import opened Database
  import Runs = RefreshTheorems

  lemma RefusedGrant(f: Families, g: NewGrant, m: RefreshMaterial, now: int)
    ensures var (f2, r) := CreateGrant(f, g.sid, g.profile, g.credential, g.upstream, g.absoluteExpiry, m, now);
      r.Err? ==> f2 == f
  {
  }

  class Store {
    var grants: map<string, Grant>
    var tokens: map<Digest, Token>
    var states: map<string, OAuthState>
    var codes: map<string, AuthCode>
    var credentials: map<string, FlowCredential>
    var selections: map<Digest, Selection>
    var actions: map<Digest, Action>
    var pushed: map<string, PushedRequest>
    var accepted: map<Identity, bool>
    var challenges: map<string, Challenge>
    var sends: map<nat, Send>
    var nextRow: nat

    // The families the store was opened with, and every transaction on them since.
    ghost var origin: Families
    ghost var history: seq<Runs.Step>

    constructor ()
      ensures Snapshot() == Db(Families(map[], map[]), Flow(map[], map[], map[], map[], map[], map[], map[]),
        Otp(map[], map[], 0))
      ensures origin == Family() && history == []
    {
      grants, tokens := map[], map[];
      states, codes, credentials, selections, actions, pushed, accepted := map[], map[], map[], map[], map[], map[],
        map[];
      challenges, sends, nextRow := map[], map[], 0;
      origin, history := Families(map[], map[]), [];
    }

    ghost function Family(): Families
      reads this`grants, this`tokens
    {
      Families(grants, tokens)
    }

    // The tables of the families are what the recorded transactions made of them.
    ghost predicate Recorded()
      reads this`grants, this`tokens, this`origin, this`history
    {
      Runs.After(origin, history, |history|) == Family()
    }

    ghost function FlowNow(): Flow
      reads this`states, this`codes, this`credentials, this`selections, this`actions, this`pushed, this`accepted
    {
      Flow(states, codes, credentials, selections, actions, pushed, accepted)
    }

    ghost function OtpNow(): Otp
      reads this`challenges, this`sends, this`nextRow
    {
      Otp(challenges, sends, nextRow)
    }

    ghost function Snapshot(): Db
      reads this
    {
      Db(Family(), FlowNow(), OtpNow())
    }

    // The tables as other requests have left them; the record starts again.
    method Restore(db: Db)
      modifies this
      ensures Snapshot() == db && origin == db.families && history == []
    {
      origin, history := db.families, [];
      grants, tokens := db.families.grants, db.families.tokens;
      challenges, sends, nextRow := db.otp.challenges, db.otp.sends, db.otp.nextRow;
      assert Family() == db.families && OtpNow() == db.otp;
      RestoreFlow(db.flow);
    }

    method RestoreFlow(f: Flow)
      modifies this`states, this`codes, this`credentials, this`selections, this`actions, this`pushed, this`accepted
      ensures FlowNow() == f
    {
      states, codes, credentials, selections := f.states, f.codes, f.credentials, f.selections;
      actions, pushed, accepted := f.actions, f.pushed, f.accepted;
    }

    // ---- refresh.go --------------------------------------------------------------------

    method PrepareRefresh(
      current: RefreshMaterial, clientId: string, now: int) returns (r: Result<Prepared, StoreError>)
      ensures r == RefreshFamilies.PrepareRefresh(Family(), current, clientId, now)
    {
      if !(current.handleHash in tokens && tokens[current.handleHash].sid in grants) {
        return Err(InvalidGrant);
      }
      var t := tokens[current.handleHash];
      var g := grants[t.sid];
      if t.tokenHash != current.tokenHash || g.profile.clientId != clientId || g.revoked.Some? {
        return Err(InvalidGrant);
      }
      if t.consumedAt.Some? {
        return Err(RefreshReplay);
      }
      if t.expiresAt <= now || g.idleExpiry <= now || g.absoluteExpiry <= now {
        return Err(InvalidGrant);
      }
      var newExpiry := now + g.profile.idleTtl;
      if newExpiry > g.absoluteExpiry {
        newExpiry := g.absoluteExpiry;
      }
      return Ok(Prepared(t.sid, g, newExpiry));
    }

    method ClaimRefresh(current: RefreshMaterial, clientId: string, now: int, ttl: int, id: string)
      returns (r: Result<Claimed, StoreError>)
      modifies this`grants, this`history
      ensures (Family(), r) == RefreshFamilies.ClaimRefresh(old(Family()), current, clientId, now, ttl, id)
      ensures history == old(history) + [Runs.Claim(current, clientId, now, ttl, id)]
    {
      history := history + [Runs.Claim(current, clientId, now, ttl, id)];
      if !(current.handleHash in tokens && tokens[current.handleHash].sid in grants) {
        return Err(InvalidGrant);
      }
      var t := tokens[current.handleHash];
      var g := grants[t.sid];
      if t.tokenHash != current.tokenHash || g.profile.clientId != clientId || g.revoked.Some? {
        return Err(InvalidGrant);
      }
      if t.consumedAt.Some? {
        grants := grants[t.sid := g.(revoked := Some(Revocation(now, "replay")), claim := None, started := false)];
        return Err(RefreshReplay);
      }
      if t.expiresAt <= now || g.idleExpiry <= now || g.absoluteExpiry <= now {
        return Err(InvalidGrant);
      }
      if g.claim.Some? && now < g.claim.value.expiresAt {
        return Err(RefreshBusy);
      }
      if g.claim.Some? && g.started {
        grants := grants[t.sid := g.(revoked := Some(Revocation(now, "indeterminate_upstream_credential")),
          claim := None)];
        return Err(CredentialIndeterminate);
      }
      var claim := RefreshClaim(id, now + ttl);
      grants := grants[t.sid := g.(claim := Some(claim), started := false)];
      var newExpiry := now + g.profile.idleTtl;
      if newExpiry > g.absoluteExpiry {
        newExpiry := g.absoluteExpiry;
      }
      return Ok(Claimed(t.sid, g, claim, newExpiry));
    }

    method MarkUpstreamRefreshStarted(sid: string, id: string, now: int) returns (r: Result<(), StoreError>)
      modifies this`grants, this`history
      ensures (Family(), r) == RefreshFamilies.MarkUpstreamRefreshStarted(old(Family()), sid, id, now)
      ensures history == old(history) + [Runs.Mark(sid, id, now)]
    {
      history := history + [Runs.Mark(sid, id, now)];
      var affected := 0;
      if sid in grants {
        var g := grants[sid];
        if g.claim.Some? && g.claim.value.id == id && g.claim.value.expiresAt > now && g.revoked.None? {
          grants := grants[sid := g.(started := true)];
          affected := 1;
        }
      }
      if affected != 1 {
        return Err(CredentialIndeterminate);
      }
      return Ok(());
    }

    method ReleaseRefreshClaim(sid: string, id: string)
      modifies this`grants, this`history
      ensures Family() == RefreshFamilies.ReleaseRefreshClaim(old(Family()), sid, id)
      ensures history == old(history) + [Runs.Release(sid, id)]
    {
      history := history + [Runs.Release(sid, id)];
      if sid in grants {
        var g := grants[sid];
        if g.claim.Some? && g.claim.value.id == id && !g.started {
          grants := grants[sid := g.(claim := None, started := false)];
        }
      }
    }

    method AbortUpstreamRefresh(sid: string, id: string) returns (r: Result<(), StoreError>)
      modifies this`grants, this`history
      ensures (Family(), r) == RefreshFamilies.AbortUpstreamRefresh(old(Family()), sid, id)
      ensures history == old(history) + [Runs.Abort(sid, id)]
    {
      history := history + [Runs.Abort(sid, id)];
      var affected := 0;
      if sid in grants {
        var g := grants[sid];
        if g.claim.Some? && g.claim.value.id == id && g.revoked.None? {
          grants := grants[sid := g.(claim := None, started := false)];
          affected := 1;
        }
      }
      if affected != 1 {
        return Err(CredentialIndeterminate);
      }
      return Ok(());
    }

    // The transaction's own view of the tables is committed only at the end, so that every
    // failure after the token was consumed rolls the consumption back.
    method CompleteClaimedRefresh(
      current: RefreshMaterial, replacement: RefreshMaterial, sid: string, idleTtl: int, id: string,
      upstream: UpstreamExpiry, credential: Sealed, absoluteExpiry: int, now: int) returns (r: Result<int, StoreError>)
      modifies this`grants, this`tokens, this`history
      ensures (Family(), r) == RefreshFamilies.CompleteClaimedRefresh(
                                 old(Family()), current, replacement, sid, idleTtl, id, upstream, credential,
                                   absoluteExpiry, now)
      ensures history == old(history) + [Runs.Complete(current, replacement, sid, idleTtl, id, upstream, credential,
        absoluteExpiry, now)]
    {
      history := history + [Runs.Complete(current, replacement, sid, idleTtl, id, upstream, credential, absoluteExpiry,
        now)];
      if !(current.handleHash in tokens && tokens[current.handleHash].sid in grants) {
        return Err(InvalidGrant);
      }
      var t := tokens[current.handleHash];
      var g := grants[t.sid];
      if t.tokenHash != current.tokenHash || t.consumedAt.Some? || t.sid != sid
         || g.claim.None? || g.claim.value.id != id || g.revoked.Some? {
        return Err(InvalidGrant);
      }
      if t.expiresAt <= now || g.idleExpiry <= now || g.absoluteExpiry <= now {
        return Err(InvalidGrant);
      }
      var newExpiry, absolute := now + idleTtl, absoluteExpiry;
      if absolute > g.absoluteExpiry {
        absolute := g.absoluteExpiry;
      }
      if newExpiry > absolute {
        newExpiry := absolute;
      }
      var txTokens := tokens[current.handleHash := t.(consumedAt := Some(now),
        replacement := Some(replacement.tokenHash))];
      if g.claim.value.expiresAt <= now {
        return Err(CredentialIndeterminate);
      }
      var txGrants := grants[sid := g.(credential := Some(credential), upstream := upstream, lastUsed := now,
                                       idleExpiry := newExpiry, absoluteExpiry := absolute, claim := None,
                                         started := false)];
      if replacement.handleHash in txTokens {
        return Err(RefreshCollision);
      }
      txTokens := txTokens[replacement.handleHash := Token(replacement.tokenHash, sid, now, newExpiry, None, None)];
      grants, tokens := txGrants, txTokens;
      return Ok(newExpiry);
    }

    method RotateRefreshToken(current: RefreshMaterial, replacement: RefreshMaterial, clientId: string, now: int)
      returns (r: Result<Prepared, StoreError>)
      modifies this`grants, this`tokens, this`history
      ensures (Family(), r) == RefreshFamilies.RotateRefreshToken(old(Family()), current, replacement, clientId, now)
      ensures history == old(history) + [Runs.Rotate(current, replacement, clientId, now)]
    {
      history := history + [Runs.Rotate(current, replacement, clientId, now)];
      if !(current.handleHash in tokens && tokens[current.handleHash].sid in grants) {
        return Err(InvalidGrant);
      }
      var t := tokens[current.handleHash];
      var g := grants[t.sid];
      if t.tokenHash != current.tokenHash || g.profile.clientId != clientId || g.revoked.Some? {
        return Err(InvalidGrant);
      }
      if t.consumedAt.Some? {
        grants := grants[t.sid := g.(revoked := Some(Revocation(now, "replay")))];
        return Err(RefreshReplay);
      }
      if t.expiresAt <= now || g.idleExpiry <= now || g.absoluteExpiry <= now {
        return Err(InvalidGrant);
      }
      var newExpiry := now + g.profile.idleTtl;
      if newExpiry > g.absoluteExpiry {
        newExpiry := g.absoluteExpiry;
      }
      var txTokens := tokens[current.handleHash := t.(consumedAt := Some(now),
        replacement := Some(replacement.tokenHash))];
      if replacement.handleHash in txTokens {
        return Err(RefreshCollision);
      }
      tokens := txTokens[replacement.handleHash := Token(replacement.tokenHash, t.sid, now, newExpiry, None, None)];
      grants := grants[t.sid := g.(lastUsed := now, idleExpiry := newExpiry)];
      return Ok(Prepared(t.sid, g, newExpiry));
    }

    method CreateRefreshGrant(
      sid: string, profile: Profile, credential: Option<Sealed>, upstream: UpstreamExpiry, absoluteExpiry: int,
      m: RefreshMaterial, now: int) returns (r: Result<(), StoreError>)
      modifies this`grants, this`tokens, this`history
      ensures (Family(), r) == CreateGrant(old(Family()), sid, profile, credential, upstream, absoluteExpiry, m, now)
      ensures history == old(history) + [Runs.Create(sid, profile, credential, upstream, absoluteExpiry, m, now)]
    {
      history := history + [Runs.Create(sid, profile, credential, upstream, absoluteExpiry, m, now)];
      var expires := now + profile.idleTtl;
      if expires > absoluteExpiry {
        expires := absoluteExpiry;
      }
      if sid in grants {
        return Err(Storage);
      }
      var txGrants := grants[sid := Grant(profile, credential, upstream, now, expires, absoluteExpiry, None, None,
        false)];
      if m.handleHash in tokens {
        return Err(RefreshCollision);
      }
      grants, tokens := txGrants, tokens[m.handleHash := Token(m.tokenHash, sid, now, expires, None, None)];
      return Ok(());
    }

    static ghost function Starts(g: NewGrant, m: RefreshMaterial, now: int): Runs.Step {
      Runs.Create(g.sid, g.profile, g.credential, g.upstream, g.absoluteExpiry, m, now)
    }

    method ConsumeAuthCode(
      code: string, expected: AuthCode, binding: AuthCodeBinding, grant: Option<NewGrant>, m: RefreshMaterial, now: int)
      returns (r: Result<(), StoreError>)
      modifies this`codes, this`credentials, this`grants, this`tokens, this`history
      ensures (Snapshot(), r) == Database.ConsumeAuthCode(old(Snapshot()), code, expected, binding, grant, m, now)
      ensures history == old(history) || (grant.Some? && history == old(history) + [Starts(grant.value, m, now)])
      ensures r.Ok? && grant.Some? ==> history != old(history)
    {
      hide CreateGrant;
      if code !in codes {
        return Err(InvalidGrant);
      }
      var actual := codes[code];
      if actual != expected || actual.clientId != binding.clientId || actual.redirectUri != binding.redirectUri
         || actual.codeChallenge != binding.codeChallenge || actual.expiresAt <= now {
        return Err(InvalidGrant);
      }
      if grant.Some? {
        var g := grant.value;
        r := CreateRefreshGrant(g.sid, g.profile, g.credential, g.upstream, g.absoluteExpiry, m, now);
        if r.Err? {
          RefusedGrant(old(Family()), g, m, now);
          return;
        }
        DropCode(code, g.profile.connectorId != "" && g.credential.Some?);
      } else {
        DropCode(code, false);
      }
      return Ok(());
    }

    // The code goes, and its temporary credential where it has moved.
    method DropCode(code: string, moved: bool)
      modifies this`codes, this`credentials
      ensures FlowNow() == old(FlowNow()).(codes := old(codes) - {code}, credentials := credentials)
      ensures credentials == if moved then old(credentials) - {code} else old(credentials)
    {
      if moved {
        credentials := credentials - {code};
      }
      codes := codes - {code};
    }

    // UPDATE refresh_grants SET revoked_at ... WHERE sid AND client_id AND revoked_at IS NULL
    method RevokeRow(sid: string, clientId: string, reason: string, now: int)
      modifies this`grants
      ensures Family() == RefreshFamilies.RevokeGrant(old(Family()), sid, clientId, reason, now)
    {
      if sid in grants {
        var g := grants[sid];
        if g.profile.clientId == clientId && g.revoked.None? {
          grants := grants[sid := g.(revoked := Some(Revocation(now, reason)))];
        }
      }
    }

    method RevokeGrant(sid: string, clientId: string, reason: string, now: int)
      modifies this`grants, this`history
      ensures Family() == RefreshFamilies.RevokeGrant(old(Family()), sid, clientId, reason, now)
      ensures history == old(history) + [Runs.Revoke(sid, clientId, reason, now)]
    {
      history := history + [Runs.Revoke(sid, clientId, reason, now)];
      RevokeRow(sid, clientId, reason, now);
    }

    method RevokeRefreshToken(m: RefreshMaterial, clientId: string, reason: string, now: int)
      modifies this`grants, this`history
      ensures Family() == RefreshFamilies.RevokeRefreshToken(old(Family()), m, clientId, reason, now)
      ensures history == old(history) + [Runs.RevokeToken(m, clientId, reason, now)]
    {
      history := history + [Runs.RevokeToken(m, clientId, reason, now)];
      if m.handleHash in tokens && tokens[m.handleHash].tokenHash == m.tokenHash {
        RevokeRow(tokens[m.handleHash].sid, clientId, reason, now);
      }
    }

    // ---- revocation.go -----------------------------------------------------------------

    method RevokeCredential(c: RevocationCredential, clientId: string, proofJkt: string, reason: string, now: int)
      modifies this`grants, this`history
      ensures Family() == RefreshFamilies.RevokeCredential(old(Family()), c, clientId, proofJkt, reason, now)
      ensures history == old(history) + [Runs.RevokeByCredential(c, clientId, proofJkt, reason, now)]
    {
      history := history + [Runs.RevokeByCredential(c, clientId, proofJkt, reason, now)];
      var sid, usable := "", false;
      if c.refresh.Some? {
        var m := c.refresh.value;
        if m.handleHash in tokens && tokens[m.handleHash].sid in grants && tokens[m.handleHash].tokenHash == m.tokenHash
           && grants[tokens[m.handleHash].sid].profile.clientId == clientId {
          var t := tokens[m.handleHash];
          var g := grants[t.sid];
          sid := t.sid;
          usable := g.revoked.None? && t.consumedAt.None? && now < g.idleExpiry && now < g.absoluteExpiry
            && now < t.expiresAt;
        }
      } else if c.sid != "" && c.sid in grants && grants[c.sid].profile.clientId == clientId {
        var g := grants[c.sid];
        sid := c.sid;
        usable := g.revoked.None? && now < g.idleExpiry && now < g.absoluteExpiry;
      }
      if usable {
        var g := grants[sid];
        var grantJkt, matches := g.profile.dpopJkt, false;
        if proofJkt == "" {
          matches := grantJkt == "" && c.tokenJkt == "";
        } else if grantJkt != "" && proofJkt == grantJkt {
          matches := c.refresh.Some? || !c.requireTokenBinding || c.tokenJkt == grantJkt;
        }
        if matches {
          grants := grants[sid := g.(revoked := Some(Revocation(now, reason)))];
        }
      }
    }

    // ---- grants.go ---------------------------------------------------------------------

    method CreateGrantActions(list: seq<GrantAction>, email: string, action: string, now: int, expiry: int)
      returns (r: Result<(), StoreError>)
      modifies this`actions
      ensures (Snapshot(), r) == Database.CreateGrantActions(old(Snapshot()), list, email, action, now, expiry)
    {
      var rest := list;
      while rest != []
        invariant Database.CreateGrantActions(Snapshot(), rest, email, action, now, expiry)
               == Database.CreateGrantActions(old(Snapshot()), list, email, action, now, expiry)
        invariant Family() == old(Family()) && OtpNow() == old(OtpNow())
        decreases |rest|
      {
        var batch := rest[..Min(|rest|, GRANT_ACTION_BATCH)];
        if (exists i :: 0 <= i < |batch| && (batch[i].sid !in grants || batch[i].hash in actions))
           || (exists i, j :: 0 <= i < j < |batch| && batch[i].hash == batch[j].hash) {
          assert !Insertable(Snapshot(), batch);
          return Err(Storage);
        }
        actions := actions + ActionRows(batch, email, action, now, expiry);
        rest := rest[|batch|..];
      }
      return Ok(());
    }

    // The update half of ConsumeGrantActionAndRevoke.
    method SelfRevoke(sid: string, email: string, now: int)
      modifies this`grants, this`history
      ensures Family() == RevokeOwn(old(Family()), sid, email, now)
      ensures history == old(history) + [Runs.SelfRevoke(sid, email, now)]
    {
      history := history + [Runs.SelfRevoke(sid, email, now)];
      if sid in grants {
        var g := grants[sid];
        if g.profile.email == email && g.revoked.None? && g.idleExpiry > now && g.absoluteExpiry > now {
          grants := grants[sid := g.(revoked := Some(Revocation(now, "self_service")))];
        }
      }
    }

    method ConsumeGrantActionAndRevoke(hash: Digest, email: string, sid: string, action: string, now: int)
      returns (r: Result<(), StoreError>)
      modifies this`grants, this`actions, this`history
      ensures (Snapshot(), r) == Database.ConsumeGrantActionAndRevoke(old(Snapshot()), hash, email, sid, action, now)
      ensures history == old(history) + if r.Ok? then [Runs.SelfRevoke(sid, email, now)] else []
    {
      var affected := 0;
      if sid in grants {
        var g := grants[sid];
        if g.profile.email == email && g.revoked.None? && g.idleExpiry > now && g.absoluteExpiry > now
           && hash in actions && actions[hash].email == email && actions[hash].sid == sid
           && actions[hash].action == action && actions[hash].expiresAt > now {
          history := history + [Runs.SelfRevoke(sid, email, now)];
          grants := grants[sid := g.(revoked := Some(Revocation(now, "self_service")))];
          affected := 1;
        }
      }
      if affected != 1 {
        return Err(InvalidGrant);
      }
      actions := actions - {hash};
      return Ok(());
    }

    method CreateIdentitySelection(
      hash: Digest, token: string, connectorId: string, subject: string, emails: seq<Email>,
      stateTtl: int, selectionTtl: int, now: int) returns (r: Result<(), StoreError>)
      modifies this`states, this`selections
      ensures (FlowNow(), r) == FlowTables.CreateIdentitySelection(
                                  old(FlowNow()), hash, token, connectorId, subject, emails, stateTtl, selectionTtl,
                                    now)
    {
      if stateTtl <= 0 || selectionTtl <= 0 {
        return Err(InvalidGrant);
      }
      if token !in states {
        return Err(InvalidGrant);
      }
      var s := states[token];
      if s.expiresAt <= now || s.createdAt + stateTtl <= now {
        return Err(InvalidGrant);
      }
      var expiry := now + selectionTtl;
      var txStates := states[token := s.(expiresAt := expiry)];
      if hash in selections {
        return Err(Storage);
      }
      states, selections := txStates, selections[hash := Selection(token, connectorId, subject, emails, expiry)];
      return Ok(());
    }

    method ConsumeIdentitySelection(hash: Digest, now: int) returns (r: Result<Selection, StoreError>)
      modifies this`selections
      ensures (FlowNow(), r) == FlowTables.ConsumeIdentitySelection(old(FlowNow()), hash, now)
    {
      if hash !in selections || selections[hash].expiresAt <= now {
        return Err(InvalidGrant);
      }
      r := Ok(selections[hash]);
      selections := selections - {hash};
    }

    // ---- statedb.go and par.go ---------------------------------------------------------

    method SaveState(token: string, s: OAuthState) returns (r: Result<(), StoreError>)
      modifies this`states
      ensures (FlowNow(), r) == FlowTables.SaveState(old(FlowNow()), token, s)
    {
      if token in states {
        return Err(Storage);
      }
      states := states[token := s];
      return Ok(());
    }

    method GetAndDeleteState(token: string, now: int, checked: int) returns (r: Result<OAuthState, StoreError>)
      modifies this`states
      ensures (FlowNow(), r) == FlowTables.GetAndDeleteState(old(FlowNow()), token, now, checked)
    {
      if token !in states || states[token].expiresAt < now {
        return Err(InvalidGrant);
      }
      var s := states[token];
      states := states - {token};
      if checked > s.expiresAt {
        return Err(InvalidGrant);
      }
      return Ok(s);
    }

    method PeekState(token: string, now: int) returns (r: Result<OAuthState, StoreError>)
      ensures r == FlowTables.PeekState(FlowNow(), token, now)
    {
      if token !in states || now > states[token].expiresAt {
        return Err(InvalidGrant);
      }
      return Ok(states[token]);
    }

    method SaveAuthCode(code: string, c: AuthCode) returns (r: Result<(), StoreError>)
      modifies this`codes
      ensures (FlowNow(), r) == FlowTables.SaveAuthCode(old(FlowNow()), code, c)
    {
      if code in codes {
        return Err(Storage);
      }
      codes := codes[code := c];
      return Ok(());
    }

    method PeekAuthCode(code: string, now: int) returns (r: Result<AuthCode, StoreError>)
      ensures r == FlowTables.PeekAuthCode(FlowNow(), code, now)
    {
      if code !in codes || codes[code].expiresAt <= now {
        return Err(InvalidGrant);
      }
      return Ok(codes[code]);
    }

    method SaveFlowCredential(from: string, to: string, c: FlowCredential)
      modifies this`credentials
      ensures FlowNow() == FlowTables.SaveFlowCredential(old(FlowNow()), from, to, c)
    {
      if from != "" {
        credentials := credentials - {from};
      }
      credentials := credentials[to := c];
    }

    method LoadFlowCredential(id: string, clientId: string, connectorId: string, now: int)
      returns (r: Result<TemporaryBox, StoreError>)
      ensures r == FlowTables.LoadFlowCredential(FlowNow(), id, clientId, connectorId, now)
    {
      if id !in credentials || credentials[id].clientId != clientId || credentials[id].connectorId != connectorId
         || credentials[id].expiresAt <= now {
        return Err(InvalidGrant);
      }
      return Ok(credentials[id].box);
    }

    method SavePushedRequest(uri: string, p: PushedRequest) returns (r: Result<(), StoreError>)
      modifies this`pushed
      ensures (FlowNow(), r) == FlowTables.SavePushedRequest(old(FlowNow()), uri, p)
    {
      if uri in pushed {
        return Err(Storage);
      }
      pushed := pushed[uri := p];
      return Ok(());
    }

    method ConsumePushedRequest(uri: string, clientId: string, now: int) returns (r: Result<PushedRequest, StoreError>)
      modifies this`pushed
      ensures (FlowNow(), r) == FlowTables.ConsumePushedRequest(old(FlowNow()), uri, clientId, now)
    {
      if uri !in pushed || pushed[uri].clientId != clientId || pushed[uri].expiresAt <= now {
        return Err(InvalidGrant);
      }
      r := Ok(pushed[uri]);
      pushed := pushed - {uri};
    }

    method SaveCredential(id: Identity, local: bool)
      modifies this`accepted
      ensures FlowNow() == FlowTables.SaveCredential(old(FlowNow()), id, local)
    {
      if id in accepted {
        accepted := accepted[id := accepted[id] || local];
      } else {
        accepted := accepted[id := local];
      }
    }

    method CredentialVerified(id: Identity) returns (exists_: bool, local: bool)
      ensures exists_ <==> id in accepted
      ensures local <==> LocallyVerified(FlowNow(), id)
    {
      exists_ := id in accepted;
      local := exists_ && accepted[id];
    }

    // DELETE of expired grants, whose tokens and actions are deleted with them.
    method CleanUpGrants(sids: set<string>, now: int)
      modifies this`grants, this`tokens, this`actions, this`history
      ensures Family() == RefreshFamilies.DeleteExpired(old(Family()), sids, now)
      ensures actions == WithoutActionsOf(old(actions), old(grants).Keys - grants.Keys)
      ensures history == old(history) + [Runs.Cleanup(sids, now)]
    {
      history := history + [Runs.Cleanup(sids, now)];
      var expired := set s | s in sids && s in grants && grants[s].absoluteExpiry <= now;
      actions := WithoutActionsOf(actions, expired);
      grants := grants - expired;
      tokens := map h | h in tokens && tokens[h].sid !in expired :: tokens[h];
      assert old(grants).Keys - grants.Keys == expired;
    }

    method CleanUpOtp(ids: set<string>, rows: set<nat>, now: int)
      modifies this`challenges, this`sends
      ensures OtpNow() == OtpTables.DeleteExpired(old(OtpNow()), ids, rows, now)
    {
      challenges := map k | k in challenges && !(k in ids && challenges[k].expiresAt < now) :: challenges[k];
      sends := map k | k in sends && !(k in rows && sends[k].at < now - HOUR) :: sends[k];
    }

    method CleanUpFlow(sweep: Sweep, now: int)
      modifies this`pushed, this`states, this`codes, this`actions, this`selections, this`credentials
      ensures pushed == PrunePushed(old(pushed), sweep.pushed, now)
      ensures states == PruneStates(old(states), sweep.states, now)
      ensures codes == PruneCodes(old(codes), sweep.codes, now)
      ensures actions == PruneActions(old(actions), sweep.actions, now)
      ensures selections == PruneSelections(old(selections), sweep.selections, now)
      ensures credentials == PruneCredentials(old(credentials), sweep.credentials, now)
    {
      hide *;
      pushed := PrunePushed(pushed, sweep.pushed, now);
      states := PruneStates(states, sweep.states, now);
      codes := PruneCodes(codes, sweep.codes, now);
      actions := PruneActions(actions, sweep.actions, now);
      selections := PruneSelections(selections, sweep.selections, now);
      credentials := PruneCredentials(credentials, sweep.credentials, now);
    }

    // One pass of cleanup over all tables.
    method CleanUp(sweep: Sweep, now: int)
      modifies this
      ensures Snapshot() == Database.CleanUp(old(Snapshot()), sweep, now)
      ensures history == old(history) + [Runs.Cleanup(sweep.grants, now)]
    {
      hide RefreshFamilies.DeleteExpired, OtpTables.DeleteExpired, PrunePushed, PruneStates, PruneCodes,
        PruneActions, PruneSelections, PruneCredentials, WithoutActionsOf;
      CleanUpFlow(sweep, now);
      CleanUpOtp(sweep.challenges, sweep.sends, now);
      CleanUpGrants(sweep.grants, now);
    }

    // ---- otp.go ------------------------------------------------------------------------

    method CreateOTP(
      id: string, email: string, mac: Mac, flow: OtpFlow, now: int, ttl: int) returns (r: Result<int, OtpError>)
      modifies this`challenges, this`sends, this`nextRow
      ensures (OtpNow(), r) == CreateOtp(old(OtpNow()), id, email, mac, flow, now, ttl)
    {
      var count := |Recent(sends, email, now - HOUR)|;
      if count >= SEND_QUOTA {
        return Err(SendLimit);
      }
      if id in challenges {
        return Err(OtpStorage);
      }
      challenges := challenges[id := Challenge(email, mac, flow, 0, 1, now, now, now + ttl)];
      sends, nextRow := sends[nextRow := Send(email, now)], nextRow + 1;
      return Ok(now + ttl);
    }

    // SELECT sent_at ... ORDER BY sent_at LIMIT 1
    method OldestSend(rows: set<nat>) returns (oldest: int)
      requires rows != {} && rows <= sends.Keys
      ensures oldest == Oldest(sends, rows)
    {
      var r :| r in rows;
      oldest := sends[r].at;
      ghost var first := r;
      var rest := rows - {r};
      while rest != {}
        invariant rest <= rows
        invariant first in rows && sends[first].at == oldest
        invariant forall q :: q in rows - rest ==> oldest <= sends[q].at
        decreases |rest|
      {
        var q :| q in rest;
        if sends[q].at < oldest {
          oldest, first := sends[q].at, q;
        }
        rest := rest - {q};
      }
    }

    method ResendOTP(id: string, mac: Mac, now: int, ttl: int) returns (r: Result<int, OtpError>)
      modifies this`challenges, this`sends, this`nextRow
      ensures (OtpNow(), r) == ResendOtp(old(OtpNow()), id, mac, now, ttl)
    {
      if id !in challenges {
        return Err(ResendRejected(0));
      }
      var c := challenges[id];
      if c.expiresAt <= now {
        return Err(ResendRejected(0));
      }
      var retryAfter := c.sentAt + MINUTE - now;
      if retryAfter > 0 {
        return Err(ResendRejected(retryAfter));
      }
      var recent := Recent(sends, c.email, now - HOUR);
      if |recent| >= SEND_QUOTA {
        var oldest := OldestSend(recent);
        return Err(ResendRejected(oldest + HOUR - now));
      }
      challenges := challenges[id := c.(mac := mac, attempts := 0, sends := c.sends + 1, sentAt := now,
        expiresAt := now + ttl)];
      sends, nextRow := sends[nextRow := Send(c.email, now)], nextRow + 1;
      return Ok(now + ttl);
    }

    method OTPFlow(id: string, now: int) returns (r: Result<(OtpFlow, int), OtpError>)
      ensures r == OtpFlowOf(OtpNow(), id, now)
    {
      if id in challenges && challenges[id].expiresAt > now && challenges[id].attempts < MAX_ATTEMPTS {
        return Ok((challenges[id].flow, challenges[id].expiresAt));
      }
      return Err(InvalidChallenge);
    }

    method ConsumeOTP(id: string, guess: Mac, now: int) returns (r: Result<OtpFlow, OtpError>)
      modifies this`challenges
      ensures (OtpNow(), r) == ConsumeOtp(old(OtpNow()), id, guess, now)
    {
      if id !in challenges {
        return Err(InvalidChallenge);
      }
      var c := challenges[id];
      if c.expiresAt <= now || c.attempts >= MAX_ATTEMPTS {
        return Err(InvalidChallenge);
      }
      if c.mac != guess {
        challenges := challenges[id := c.(attempts := c.attempts + 1)];
        if c.attempts + 1 >= MAX_ATTEMPTS {
          return Err(InvalidChallenge);
        }
        return Err(InvalidCode);
      }
      challenges := challenges - {id};
      return Ok(c.flow);
    }
  }
}
