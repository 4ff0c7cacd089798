// The refresh_grants and refresh_tokens tables and what each transaction of
// internal/statedb/refresh.go does to them, one function per transaction.
module RefreshFamilies {
  import opened Common

  // RefreshMaterial; the zero value is the empty material passed by Exchange on replay.
  datatype RefreshMaterial = RefreshMaterial(token: string, handle: Bytes, secret: Bytes, handleHash: Digest,
    tokenHash: Digest)

  const EMPTY_MATERIAL := RefreshMaterial("", [], [], Zeroed, Zeroed)

  datatype Credential = Credential(
    refreshToken: string, accessExpiry: Option<int>, refreshExpiry: Option<int>, accessNonExpiring: bool)

  // An AES-GCM box: it opens only under the secret and the context it was sealed with.
  datatype Sealed = Sealed(secret: Bytes, sid: string, clientId: string, connectorId: string,
    content: Option<Credential>)

  // The columns no statement ever updates.
  datatype Profile = Profile(
    clientId: string, email: string, emailVerified: bool, scopes: string, connectorId: string,
    subject: string, mode: string, authTime: int, idleTtl: int, dpopJkt: string)

  datatype UpstreamExpiry = UpstreamExpiry(access: Option<int>, refresh: Option<int>, nonExpiring: bool)

  datatype RefreshClaim = RefreshClaim(id: string, expiresAt: int)

  datatype Revocation = Revocation(at: int, reason: string)

  datatype Grant = Grant(
    profile: Profile, credential: Option<Sealed>, upstream: UpstreamExpiry, lastUsed: int,
    idleExpiry: int, absoluteExpiry: int, revoked: Option<Revocation>,
    claim: Option<RefreshClaim>, started: bool)

  datatype Token = Token(
    tokenHash: Digest, sid: string, issuedAt: int, expiresAt: int,
    consumedAt: Option<int>, replacement: Option<Digest>)

  datatype Families = Families(grants: map<string, Grant>, tokens: map<Digest, Token>)

  datatype RevocationCredential = RevocationCredential(
    refresh: Option<RefreshMaterial>, sid: string, tokenJkt: string, requireTokenBinding: bool)

  datatype Prepared = Prepared(sid: string, grant: Grant, newExpiry: int)

  datatype Claimed = Claimed(sid: string, grant: Grant, claim: RefreshClaim, newExpiry: int)

  // The join of a token with its grant finds a row.
  predicate Joined(f: Families, h: Digest) {
    h in f.tokens && f.tokens[h].sid in f.grants
  }

  predicate Authentic(f: Families, m: RefreshMaterial, clientId: string) {
    && Joined(f, m.handleHash)
    && var t := f.tokens[m.handleHash];
       var g := f.grants[t.sid];
       t.tokenHash == m.tokenHash && g.profile.clientId == clientId && g.revoked.None?
  }

  predicate Unexpired(t: Token, g: Grant, now: int) {
    now < t.expiresAt && now < g.idleExpiry && now < g.absoluteExpiry
  }

  // UPDATE refresh_grants SET revoked_at, revoke_reason ... AND revoked_at IS NULL
  function WithRevocation(g: Grant, reason: string, now: int): Grant {
    if g.revoked.None? then g.(revoked := Some(Revocation(now, reason))) else g
  }

  function PrepareRefresh(f: Families, m: RefreshMaterial, clientId: string, now: int): Result<Prepared, StoreError> {
    if !Authentic(f, m, clientId) then Err(InvalidGrant)
    else
      var t := f.tokens[m.handleHash];
      var g := f.grants[t.sid];
      if t.consumedAt.Some? then Err(RefreshReplay)
      else if !Unexpired(t, g, now) then Err(InvalidGrant)
      else Ok(Prepared(t.sid, g, Min(now + g.profile.idleTtl, g.absoluteExpiry)))
  }

  function ClaimRefresh(f: Families, m: RefreshMaterial, clientId: string, now: int, ttl: int, id: string)
    : (Families, Result<Claimed, StoreError>)
  {
    if !Authentic(f, m, clientId) then (f, Err(InvalidGrant))
    else
      var t := f.tokens[m.handleHash];
      var g := f.grants[t.sid];
      if t.consumedAt.Some? then
        var dead := WithRevocation(g, "replay", now).(claim := None, started := false);
        (f.(grants := f.grants[t.sid := dead]), Err(RefreshReplay))
      else if !Unexpired(t, g, now) then (f, Err(InvalidGrant))
      else if g.claim.Some? && now < g.claim.value.expiresAt then (f, Err(RefreshBusy))
      else if g.claim.Some? && g.started then
        var dead := WithRevocation(g, "indeterminate_upstream_credential", now).(claim := None);
        (f.(grants := f.grants[t.sid := dead]), Err(CredentialIndeterminate))
      else
        var claim := RefreshClaim(id, now + ttl);
        (f.(grants := f.grants[t.sid := g.(claim := Some(claim), started := false)]),
         Ok(Claimed(t.sid, g, claim, Min(now + g.profile.idleTtl, g.absoluteExpiry))))
  }

  predicate HoldsClaim(f: Families, sid: string, id: string) {
    sid in f.grants && f.grants[sid].claim.Some? && f.grants[sid].claim.value.id == id
  }

  function MarkUpstreamRefreshStarted(
    f: Families, sid: string, id: string, now: int): (Families, Result<(), StoreError>) {
    if HoldsClaim(f, sid, id) && now < f.grants[sid].claim.value.expiresAt && f.grants[sid].revoked.None? then
      (f.(grants := f.grants[sid := f.grants[sid].(started := true)]), Ok(()))
    else (f, Err(CredentialIndeterminate))
  }

  function ReleaseRefreshClaim(f: Families, sid: string, id: string): Families {
    if HoldsClaim(f, sid, id) && !f.grants[sid].started then
      f.(grants := f.grants[sid := f.grants[sid].(claim := None, started := false)])
    else f
  }

  function AbortUpstreamRefresh(f: Families, sid: string, id: string): (Families, Result<(), StoreError>) {
    if HoldsClaim(f, sid, id) && f.grants[sid].revoked.None? then
      (f.(grants := f.grants[sid := f.grants[sid].(claim := None, started := false)]), Ok(()))
    else (f, Err(CredentialIndeterminate))
  }

  // Consume the presented token and install its replacement, for both kinds of rotation.
  function Replace(
    tokens: map<Digest, Token>, h: Digest, r: RefreshMaterial, now: int, expires: int): map<Digest, Token>
    requires h in tokens
  {
    var t := tokens[h];
    tokens[h := t.(consumedAt := Some(now), replacement := Some(r.tokenHash))]
          [r.handleHash := Token(r.tokenHash, t.sid, now, expires, None, None)]
  }

  // grant.IdleTTL and the upstream expiries come from the caller's copy of the grant.
  function CompleteClaimedRefresh(
    f: Families, current: RefreshMaterial, replacement: RefreshMaterial, sid: string, idleTtl: int, id: string,
    upstream: UpstreamExpiry, credential: Sealed, absoluteExpiry: int, now: int): (Families, Result<int, StoreError>)
  {
    if !(&& Joined(f, current.handleHash)
         && f.tokens[current.handleHash].tokenHash == current.tokenHash
         && f.tokens[current.handleHash].consumedAt.None?
         && f.tokens[current.handleHash].sid == sid
         && HoldsClaim(f, sid, id) && f.grants[sid].revoked.None?) then (f, Err(InvalidGrant))
    else
      var g := f.grants[sid];
      if !Unexpired(f.tokens[current.handleHash], g, now) then (f, Err(InvalidGrant))
      else
        var absolute := Min(absoluteExpiry, g.absoluteExpiry);
        var expires := Min(now + idleTtl, absolute);
        if g.claim.value.expiresAt <= now then (f, Err(CredentialIndeterminate))
        else if replacement.handleHash in f.tokens then (f, Err(RefreshCollision))
        else
          var g' := g.(credential := Some(credential), upstream := upstream, lastUsed := now,
                       idleExpiry := expires, absoluteExpiry := absolute, claim := None, started := false);
          (Families(f.grants[sid := g'], Replace(f.tokens, current.handleHash, replacement, now, expires)), Ok(expires))
  }

  function RotateRefreshToken(
    f: Families, current: RefreshMaterial, replacement: RefreshMaterial, clientId: string, now: int)
    : (Families, Result<Prepared, StoreError>)
  {
    if !Authentic(f, current, clientId) then (f, Err(InvalidGrant))
    else
      var t := f.tokens[current.handleHash];
      var g := f.grants[t.sid];
      if t.consumedAt.Some? then
        (f.(grants := f.grants[t.sid := WithRevocation(g, "replay", now)]), Err(RefreshReplay))
      else if !Unexpired(t, g, now) then (f, Err(InvalidGrant))
      else if replacement.handleHash in f.tokens then (f, Err(RefreshCollision))
      else
        var expires := Min(now + g.profile.idleTtl, g.absoluteExpiry);
        (Families(f.grants[t.sid := g.(lastUsed := now, idleExpiry := expires)],
                  Replace(f.tokens, current.handleHash, replacement, now, expires)),
         Ok(Prepared(t.sid, g, expires)))
  }

  // A family is born with one token, in CreateRefreshGrant and in ConsumeAuthCode.
  function CreateGrant(
    f: Families, sid: string, profile: Profile, credential: Option<Sealed>, upstream: UpstreamExpiry,
    absoluteExpiry: int, m: RefreshMaterial, now: int): (Families, Result<(), StoreError>)
  {
    var expires := Min(now + profile.idleTtl, absoluteExpiry);
    if sid in f.grants then (f, Err(Storage))
    else if m.handleHash in f.tokens then (f, Err(RefreshCollision))
    else
      (Families(
         f.grants[sid := Grant(profile, credential, upstream, now, expires, absoluteExpiry, None, None, false)],
         f.tokens[m.handleHash := Token(m.tokenHash, sid, now, expires, None, None)]),
       Ok(()))
  }

  function RevokeIf(f: Families, sid: string, condition: bool, reason: string, now: int): Families
    requires condition ==> sid in f.grants
  {
    if condition then f.(grants := f.grants[sid := WithRevocation(f.grants[sid], reason, now)]) else f
  }

  function RevokeGrant(f: Families, sid: string, clientId: string, reason: string, now: int): Families {
    RevokeIf(f, sid, sid in f.grants && f.grants[sid].profile.clientId == clientId, reason, now)
  }

  function RevokeRefreshToken(f: Families, m: RefreshMaterial, clientId: string, reason: string, now: int): Families {
    if m.handleHash in f.tokens && f.tokens[m.handleHash].tokenHash == m.tokenHash then
      RevokeGrant(f, f.tokens[m.handleHash].sid, clientId, reason, now)
    else f
  }

  // The binding rule of RevokeCredential: an unbound proof revokes unbound credentials,
  // a bound one needs the grant's own key and, for access tokens, the token's key as well.
  predicate BindingMatches(c: RevocationCredential, grantJkt: string, proofJkt: string) {
    if proofJkt == "" then grantJkt == "" && c.tokenJkt == ""
    else grantJkt != "" && proofJkt == grantJkt
         && (c.refresh.Some? || !c.requireTokenBinding || c.tokenJkt == grantJkt)
  }

  function RevokeCredential(
    f: Families, c: RevocationCredential, clientId: string, proofJkt: string, reason: string, now: int): Families {
    match c.refresh
    case Some(m) =>
      if Authentic(f, m, clientId) then
        var t := f.tokens[m.handleHash];
        var g := f.grants[t.sid];
        RevokeIf(f, t.sid, t.consumedAt.None? && Unexpired(t, g, now)
          && BindingMatches(c, g.profile.dpopJkt, proofJkt), reason, now)
      else f
    case None =>
      if c.sid != "" && c.sid in f.grants && f.grants[c.sid].profile.clientId == clientId then
        var g := f.grants[c.sid];
        RevokeIf(f, c.sid,
                 g.revoked.None? && now < g.idleExpiry && now < g.absoluteExpiry
                   && BindingMatches(c, g.profile.dpopJkt, proofJkt),
                 reason, now)
      else f
  }

  // The grant half of ConsumeGrantActionAndRevoke, once a matching action row is known to exist.
  predicate SelfRevocable(f: Families, sid: string, email: string, now: int) {
    && sid in f.grants && f.grants[sid].profile.email == email && f.grants[sid].revoked.None?
    && now < f.grants[sid].idleExpiry && now < f.grants[sid].absoluteExpiry
  }

  function RevokeOwn(f: Families, sid: string, email: string, now: int): Families {
    RevokeIf(f, sid, SelfRevocable(f, sid, email, now), "self_service", now)
  }

  // Cleanup deletes any batch of grants past their absolute expiry; their tokens go with them.
  function DeleteExpired(f: Families, sids: set<string>, now: int): Families {
    Families(
      map s | s in f.grants && !(s in sids && f.grants[s].absoluteExpiry <= now) :: f.grants[s],
      map h | h in f.tokens && !(f.tokens[h].sid in sids && f.tokens[h].sid in f.grants
                                 && f.grants[f.tokens[h].sid].absoluteExpiry <= now) :: f.tokens[h])
  }

  function DecryptCredential(
    secret: Bytes, sid: string, clientId: string, connectorId: string, box: Sealed): Option<Credential> {
    if box.secret == secret && box.sid == sid && box.clientId == clientId && box.connectorId == connectorId
    then box.content else None
  }

  // One of the materials from the given one on has a new handle, and all before it were generated.
  predicate NewHandle(materials: seq<Option<RefreshMaterial>>, tokens: map<Digest, Token>, from: nat)
    decreases |materials| - from
  {
    from < |materials| && materials[from].Some?
    && (materials[from].value.handleHash !in tokens || NewHandle(materials, tokens, from + 1))
  }

  lemma NextHandle(materials: seq<Option<RefreshMaterial>>, tokens: map<Digest, Token>, from: nat)
    ensures NewHandle(materials, tokens, from) <==>
      && from < |materials| && materials[from].Some?
      && (materials[from].value.handleHash !in tokens || NewHandle(materials, tokens, from + 1))
  {
  }
}
