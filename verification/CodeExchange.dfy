// exchangeCode of internal/oidc/handle_token.go: one authorization code against tokens and,
// where the code asks for it, a new refresh family. Between its storage calls anything at all
// may happen to the database: the schedule says what the others leave behind.
module CodeExchange {
  import opened Common
  import opened RefreshFamilies
  import opened FlowTables
  import opened OtpTables
  import opened Database
  import opened StateStore

  datatype Move = Move(elapsed: nat, db: Db, fails: bool)

  datatype Refusal = BadRequest | BadCode | BadProof | AccessDenied | Unavailable | ServerError

  datatype Reply =
    | Tokens(accessExpiry: int, idExpiry: int, sid: string, refresh: Option<RefreshMaterial>)
    | Refused(why: Refusal)

  datatype Answer = Yes | No | Unknown

  // What the request presents; challenge is computed from its code verifier, if that is well formed.
  datatype Redemption = Redemption(code: string, clientId: string, redirectUri: string, challenge: Option<string>)

  datatype Lifetime = Lifetime(idle: int, absolute: int)

  // The proof headers: one that verifies names its key, and is reserved unless it was seen before.
  datatype Headers = NoProof | OneProof(key: Option<string>, reserved: bool) | SeveralProofs

  // A bound code asks for one new proof by its own key, an unbound one for none.
  predicate Shown(proof: Headers, jkt: string) {
    if jkt == "" then proof == NoProof else proof == OneProof(Some(jkt), true)
  }

  // The client's configuration, and what the proof headers of this request amount to under it.
  datatype Client = Client(
    requirePar: bool, acceptsBinding: bool, proof: Headers, refreshEnabled: bool, allowOffline: bool,
    session: Lifetime, offline: Lifetime)

  // The connector the code came from: its configured type and whether it is running.
  datatype Source = Source(kind: Option<string>, running: bool)

  const MAX_MATERIAL_ATTEMPTS := 3

  function LifetimeOf(c: Client, mode: string): Lifetime {
    if mode == "offline" then c.offline else c.session
  }

  predicate CodeAnswers(c: AuthCode, r: Redemption) {
    c.clientId == r.clientId && c.redirectUri == r.redirectUri && r.challenge == Some(c.codeChallenge)
  }

  function ProfileOf(c: AuthCode, idle: int): Profile {
    Profile(c.clientId, c.email, c.emailVerified, c.scopes, c.connectorId, c.subject, c.refreshMode, c.authTime, idle,
      c.dpopJkt)
  }

  // The family a redeemed code starts: its one token is the one handed out, it holds the code's
  // own identity and scopes, and nothing issued outlives it, the session or the upstream login.
  predicate FamilyStarted(before: Db, after: Db, o: Reply, c: AuthCode, life: Lifetime, at: int) {
    && o.Tokens? && o.refresh.Some?
    && var m := o.refresh.value;
    && o.sid !in before.families.grants && m.handleHash !in before.families.tokens
    && o.sid in after.families.grants && m.handleHash in after.families.tokens
    && after.families.grants - {o.sid} == before.families.grants
    && after.families.tokens - {m.handleHash} == before.families.tokens
    && var g := after.families.grants[o.sid];
       var t := after.families.tokens[m.handleHash];
    && g.profile == ProfileOf(c, life.idle) && g.revoked.None? && g.claim.None? && !g.started
    && t.tokenHash == m.tokenHash && t.sid == o.sid && t.consumedAt.None? && t.expiresAt == g.idleExpiry
    && o.accessExpiry <= t.expiresAt && o.idExpiry <= t.expiresAt
    && t.issuedAt == at && t.expiresAt == Min(at + life.idle, g.absoluteExpiry)
    && g.absoluteExpiry <= c.authTime + life.absolute
    && (g.upstream.access.Some? ==> o.accessExpiry <= g.upstream.access.value && o.idExpiry <= g.upstream.access.value)
    && (g.upstream.refresh.Some? ==> g.absoluteExpiry <= g.upstream.refresh.value)
  }

  // A credential kept with the code is sealed again under the new token's secret, and a login
  // that cannot be renewed upstream does not outlive its access.
  predicate CredentialMoved(after: Db, o: Reply, c: AuthCode) {
    o.Tokens? && o.refresh.Some? && o.sid in after.families.grants && after.families.grants[o.sid].credential.Some? ==>
      var g := after.families.grants[o.sid];
      var plain := DecryptCredential(o.refresh.value.secret, o.sid, c.clientId, c.connectorId, g.credential.value);
      && plain.Some? && g.upstream == UpstreamOf(plain)
      && (plain.value.refreshToken == "" && plain.value.accessExpiry.Some? ==>
        g.absoluteExpiry <= plain.value.accessExpiry.value)
  }

  function UpstreamOf(credential: Option<Credential>): UpstreamExpiry {
    match credential
    case None => UpstreamExpiry(None, None, false)
    case Some(c) => UpstreamExpiry(c.accessExpiry, c.refreshExpiry, c.accessNonExpiring)
  }

  // The code goes in the transaction that starts the family, and nothing else of the flow changes
  // but the temporary credential that moved into it.
  predicate CodeSpent(before: Db, after: Db, code: string, c: AuthCode) {
    && code in before.flow.codes && before.flow.codes[code] == c
    && after.flow.codes == before.flow.codes - {code}
    && after.flow.(codes := before.flow.codes, credentials := before.flow.credentials) == before.flow
    && after.flow.credentials - {code} == before.flow.credentials - {code}
    && after.otp == before.otp
  }

  predicate Redeemed(
    before: Db, after: Db, r: Redemption, c: AuthCode, client: Client, source: Source, o: Reply, at: int) {
    && o.Tokens? && CodeAnswers(c, r) && CodeSpent(before, after, r.code, c)
    && (client.requirePar ==> c.pushed) && client.acceptsBinding && Shown(client.proof, c.dpopJkt)
    && (o.refresh.Some? <==> c.refreshMode != "")
    && (o.refresh.None? ==> after.families == before.families && o.sid == "")
    && (o.refresh.Some? ==>
          && client.refreshEnabled && FamilyStarted(before, after, o, c, LifetimeOf(client, c.refreshMode), at)
          && CredentialMoved(after, o, c)
          && (after.families.grants[o.sid].credential.None? <==> source.kind == Some("email"))
          && (source.kind != Some("email") && c.connectorId != "" ==> r.code !in after.flow.credentials))
    && (c.refreshMode == "offline" ==> c.offlineConsent && client.allowOffline)
  }

  // What the handler holds before it spends the code: the grant, the credential in clear to seal
  // again after a collision, and the two token expiries it has signed.
  datatype Preparation = Preparation(grant: Option<NewGrant>, content: Option<Credential>, access: int, idToken: int)

  function Handed(p: Preparation, m: RefreshMaterial): Reply {
    match p.grant
    case None => Tokens(p.access, p.idToken, "", None)
    case Some(g) => Tokens(p.access, p.idToken, g.sid, Some(m))
  }

  predicate Ready(
    p: Preparation, c: AuthCode, m: RefreshMaterial, life: Lifetime, source: Source, sid: string, issuedAt: int) {
    && (c.refreshMode == "" <==> p.grant.None?)
    && (p.grant.Some? ==>
          && p.grant.value.sid == sid && (p.content.None? <==> source.kind == Some("email"))
          && Planned(p.grant.value, c, p, m, life, issuedAt))
  }

  predicate Planned(g: NewGrant, c: AuthCode, p: Preparation, m: RefreshMaterial, life: Lifetime, issuedAt: int) {
    && g.profile == ProfileOf(c, life.idle) && g.absoluteExpiry <= c.authTime + life.absolute
    && p.access <= Min(issuedAt + life.idle, g.absoluteExpiry)
      && p.idToken <= Min(issuedAt + life.idle, g.absoluteExpiry)
    && g.upstream == UpstreamOf(p.content)
    && (g.upstream.access.Some? ==> p.access <= g.upstream.access.value && p.idToken <= g.upstream.access.value)
    && (g.upstream.refresh.Some? ==> g.absoluteExpiry <= g.upstream.refresh.value)
    && g.credential == (if p.content.None? then
      None else Some(Sealed(m.secret, g.sid, c.clientId, c.connectorId, p.content)))
    && (p.content.Some? && p.content.value.refreshToken == "" && p.content.value.accessExpiry.Some? ==>
          g.absoluteExpiry <= p.content.value.accessExpiry.value)
  }

  // The credential that the refresh token of the reply opens in its family.
  function OpenedBy(after: Db, o: Reply, c: AuthCode): Option<Credential> {
    if o.Tokens? && o.refresh.Some? && o.sid in after.families.grants && after.families.grants[o.sid].credential.Some?
    then
      DecryptCredential(
        o.refresh.value.secret, o.sid, c.clientId, c.connectorId, after.families.grants[o.sid].credential.value)
    else None
  }

  // The family that was started has the end, the upstream login and the credential it was to have.
  predicate AsPrepared(after: Db, o: Reply, c: AuthCode, p: Preparation)
    requires p.grant.Some?
  {
    && o.Tokens? && o.sid in after.families.grants && OpenedBy(after, o, c) == p.content
    && o.accessExpiry == p.access && o.idExpiry == p.idToken
    && after.families.grants[o.sid].absoluteExpiry == p.grant.value.absoluteExpiry
    && after.families.grants[o.sid].upstream == p.grant.value.upstream
  }

  function Earliest(own: int, last: int, login: Option<int>): int {
    if login.Some? then Min(Min(own, last), login.value) else Min(own, last)
  }

  // The expiries follow from one reading of the clock: the time to live of each token's own, the
  // session's idle time, the end of the family and the upstream login, whichever is first.
  predicate Timetabled(p: Preparation, life: Lifetime, accessTtl: int, idTtl: int, t: int) {
    match p.grant
    case None => p.access == t + accessTtl && p.idToken == t + idTtl
    case Some(g) =>
      && p.access == Earliest(t + accessTtl, Min(t + life.idle, g.absoluteExpiry), g.upstream.access)
      && p.idToken == Earliest(t + idTtl, Min(t + life.idle, g.absoluteExpiry), g.upstream.access)
  }

  predicate Dated(after: Db, o: Reply, life: Lifetime, accessTtl: int, idTtl: int, t: int) {
    && o.Tokens?
    && if o.refresh.None? then o.accessExpiry == t + accessTtl && o.idExpiry == t + idTtl
       else
         && o.sid in after.families.grants
         && var g := after.families.grants[o.sid];
         && o.accessExpiry == Earliest(t + accessTtl, Min(t + life.idle, g.absoluteExpiry), g.upstream.access)
         && o.idExpiry == Earliest(t + idTtl, Min(t + life.idle, g.absoluteExpiry), g.upstream.access)
  }

  lemma DatedAsPrepared(
    after: Db, o: Reply, c: AuthCode, p: Preparation, life: Lifetime, accessTtl: int, idTtl: int, t: int)
    requires Timetabled(p, life, accessTtl, idTtl, t) && o.Tokens? && (o.refresh.Some? <==> p.grant.Some?)
    requires if p.grant.Some? then AsPrepared(after, o, c, p)
      else o.accessExpiry == p.access && o.idExpiry == p.idToken
    ensures Dated(after, o, life, accessTtl, idTtl, t)
  {
  }

  lemma NothingPlanned(
    p: Preparation, c: AuthCode, m: RefreshMaterial, life: Lifetime, source: Source, sid: string, issuedAt: int)
    requires c.refreshMode == "" && p.grant.None?
    ensures Ready(p, c, m, life, source, sid, issuedAt)
  {
  }

  lemma Resealed(
    p: Preparation, c: AuthCode, m: RefreshMaterial, life: Lifetime, source: Source, sid: string, issuedAt: int,
    m2: RefreshMaterial)
    requires Ready(p, c, m, life, source, sid, issuedAt)
    ensures Ready(
      if p.grant.Some? && p.content.Some? then
        p.(grant := Some(p.grant.value.(
          credential := Some(Sealed(m2.secret, sid, c.clientId, c.connectorId, p.content)))))
      else p,
      c, m2, life, source, sid, issuedAt)
  {
  }

  function BindingOf(r: Redemption): AuthCodeBinding {
    AuthCodeBinding(r.clientId, r.redirectUri, if r.challenge.Some? then r.challenge.value else "")
  }

  // Some material of this request has a handle that was there already.
  predicate Taken(tokens: map<Digest, Token>, initial: RefreshMaterial, materials: seq<Option<RefreshMaterial>>) {
    || initial.handleHash in tokens
    || exists k :: 0 <= k < |materials| && materials[k].Some? && materials[k].value.handleHash in tokens
  }

  lemma OneTaken(
    tokens: map<Digest, Token>, initial: RefreshMaterial, materials: seq<Option<RefreshMaterial>>, k: nat)
    ensures initial.handleHash in tokens ==> Taken(tokens, initial, materials)
    ensures k < |materials| && materials[k].Some? && materials[k].value.handleHash in tokens ==>
      Taken(tokens, initial, materials)
  {
  }

  // What the code, the client and the connector must be for the request to be served.
  predicate Cleared(r: Redemption, c: AuthCode, client: Client, source: Source) {
    && CodeAnswers(c, r) && (client.requirePar ==> c.pushed) && client.acceptsBinding && Shown(client.proof, c.dpopJkt)
    && (c.refreshMode != "" ==>
          client.refreshEnabled && source.kind.Some? && (source.kind != Some("email") ==> source.running))
    && (c.refreshMode == "offline" ==> c.offlineConsent && client.allowOffline)
  }

  lemma NoObjection(r: Redemption, c: AuthCode, policy: Answer, client: Client, source: Source, user: Answer)
    ensures Endpoint.Objection(r, c, policy, client, source, user).None? <==>
      policy == Yes && user == Yes && Cleared(r, c, client, source)
  {
  }

  // Spending works exactly for a matching code, and where it starts a family, under a new session
  // and a new handle; and it is the handle exactly if it reports a collision.
  lemma SpendingExact(
    db: Db, code: string, expected: AuthCode, binding: AuthCodeBinding, grant: Option<NewGrant>, m: RefreshMaterial,
    at: int)
    ensures var consumed := Database.ConsumeAuthCode(db, code, expected, binding, grant, m, at).1;
      && (consumed.Ok? <==>
            && CodeMatches(db.flow, code, expected, binding, at)
            && (grant.Some? ==> grant.value.sid !in db.families.grants && m.handleHash !in db.families.tokens))
      && (consumed == Err(RefreshCollision) <==>
            && CodeMatches(db.flow, code, expected, binding, at)
            && grant.Some? && grant.value.sid !in db.families.grants && m.handleHash in db.families.tokens)
  {
  }

  lemma SpendsCode(
    db: Db, code: string, expected: AuthCode, binding: AuthCodeBinding, grant: Option<NewGrant>, m: RefreshMaterial,
    at: int)
    ensures var (after, consumed) := Database.ConsumeAuthCode(db, code, expected, binding, grant, m, at);
      && (consumed.Err? ==> after == db)
      && (consumed.Ok? ==> CodeSpent(db, after, code, expected))
      && (consumed.Ok? && grant.None? ==> after.families == db.families)
      && (consumed.Ok? && grant.Some? ==>
            var g := grant.value;
            var (families, created) :=
              CreateGrant(db.families, g.sid, g.profile, g.credential, g.upstream, g.absoluteExpiry, m, at);
            created.Ok? && families == after.families)
      && (consumed.Ok? && grant.Some? && grant.value.profile.connectorId != "" && grant.value.credential.Some? ==>
            code !in after.flow.credentials)
  {
    hide CreateGrant;
    if grant.Some? {
      var g := grant.value;
      RefusedGrant(db.families, g, m, at);
      var created := CreateGrant(db.families, g.sid, g.profile, g.credential, g.upstream, g.absoluteExpiry, m, at).1;
      assert created.Ok? || created.Err?;
    }
  }

  lemma StartsFamily(
    db: Db, after: Db, c: AuthCode, p: Preparation, m: RefreshMaterial, at: int, life: Lifetime, sid: string,
    issuedAt: int)
    requires p.grant.Some? && p.grant.value.sid == sid && Planned(p.grant.value, c, p, m, life, issuedAt)
      && issuedAt <= at
    requires var g := p.grant.value;
      var (families, created) :=
        CreateGrant(db.families, g.sid, g.profile, g.credential, g.upstream, g.absoluteExpiry, m, at);
      created.Ok? && families == after.families
    ensures FamilyStarted(db, after, Handed(p, m), c, life, at) && CredentialMoved(after, Handed(p, m), c)
    ensures after.families.grants[sid].credential == p.grant.value.credential
    ensures AsPrepared(after, Handed(p, m), c, p)
  {
    assert after.families.grants - {sid} == db.families.grants;
    assert after.families.tokens - {m.handleHash} == db.families.tokens;
  }

  // Spending the code installs what was prepared, or changes nothing.
  lemma Installed(
    db: Db, r: Redemption, c: AuthCode, p: Preparation, m: RefreshMaterial, at: int, client: Client, source: Source,
    sid: string, issuedAt: int)
    requires issuedAt <= at && Endpoint.Objection(r, c, Yes, client, source, Yes).None?
    requires Ready(p, c, m, LifetimeOf(client, c.refreshMode), source, sid, issuedAt)
    ensures var binding := BindingOf(r);
      var (after, consumed) := Database.ConsumeAuthCode(db, r.code, c, binding, p.grant, m, at);
      && (consumed.Err? ==> after == db)
      && (consumed.Ok? ==>
            && Redeemed(db, after, r, c, client, source, Handed(p, m), at)
            && (p.grant.Some? ==> AsPrepared(after, Handed(p, m), c, p)))
  {
    NoObjection(r, c, Yes, client, source, Yes);
    var binding := BindingOf(r);
    SpendsCode(db, r.code, c, binding, p.grant, m, at);
    var (after, consumed) := Database.ConsumeAuthCode(db, r.code, c, binding, p.grant, m, at);
    hide Database.ConsumeAuthCode, CreateGrant, FamilyStarted, CredentialMoved, CodeSpent;
    if consumed.Ok? && p.grant.Some? {
      StartsFamily(db, after, c, p, m, at, LifetimeOf(client, c.refreshMode), sid, issuedAt);
    }
  }

  // ---- Turns ---------------------------------------------------------------------------------------

  // One turn of the others: the database as this request left it, and as they did.
  datatype Meeting = Meeting(mine: Db, theirs: Db)

  // From the given turn on, this request changed nothing before the last one of the others, which
  // left the database as it is said to be.
  ghost predicate Untouched(start: Db, met: seq<Meeting>, from: nat, last: Db) {
    && from < |met| && met[from].mine == start && met[|met| - 1].theirs == last
    && forall i :: from < i < |met| ==> met[i].mine == met[i - 1].theirs
  }

  // The turns are the scheduled ones, and then nobody does anything.
  ghost predicate Played(scheduled: seq<Move>, met: seq<Meeting>, from: nat, left: seq<Move>) {
    && from <= |met| && left == scheduled[Min(|met| - from, |scheduled|)..]
    && forall i :: from <= i < |met| ==>
         met[i].theirs == if i - from < |scheduled| then scheduled[i - from].db else met[i].mine
  }

  // All that happened from the given turn on were the scheduled turns of the others.
  ghost predicate Waited(
    start: Db, scheduled: seq<Move>, met: seq<Meeting>, from: nat, last: Db, left: seq<Move>)
  {
    Untouched(start, met, from, last) && Played(scheduled, met, from, left)
  }

  lemma TurnsJoin(
    start: Db, scheduled: seq<Move>, earlier: seq<Meeting>, between: Db, rest: seq<Move>, met: seq<Meeting>, from: nat,
    last: Db, left: seq<Move>)
    requires Waited(start, scheduled, earlier, from, between, rest)
    requires earlier <= met && Waited(between, rest, met, |earlier|, last, left)
    ensures Waited(start, scheduled, met, from, last, left)
  {
  }

  // ---- When a code is good for tokens --------------------------------------------------------------

  // The stored credential, where there is one, opens and can be renewed or at least ends some time.
  predicate Openable(code: string, c: AuthCode, loaded: Option<TemporaryBox>) {
    loaded.Some? ==>
      var content := ContentOf(code, c, loaded);
      content.Some? && (content.value.refreshToken != "" || content.value.accessExpiry.Some?
        || content.value.accessNonExpiring)
  }

  function ContentOf(code: string, c: AuthCode, loaded: Option<TemporaryBox>): Option<Credential> {
    if loaded.None? then None else DecryptTemporaryCredential(code, c.clientId, c.connectorId, loaded.value)
  }

  // The credential kept with the code, for all but email connectors.
  function KeptWith(f: Flow, code: string, c: AuthCode, source: Source): Option<Credential> {
    if source.kind == Some("email") || code !in f.credentials then None
    else DecryptTemporaryCredential(code, c.clientId, c.connectorId, f.credentials[code].box)
  }

  lemma KeptContent(f: Flow, code: string, c: AuthCode, source: Source, now: int)
    ensures var loaded := Kept(FlowTables.LoadFlowCredential(f, code, c.clientId, c.connectorId, now));
      && loaded == StillKept(f, code, c, now)
      && ((loaded.Some? <==> source.kind != Some("email")) ==>
            ContentOf(code, c, loaded) == KeptWith(f, code, c, source))
  {
  }

  lemma NoContent(code: string, c: AuthCode)
    ensures ContentOf(code, c, None).None?
  {
  }

  // Nothing that limits the tokens has ended.
  predicate Ahead(c: AuthCode, life: Lifetime, content: Option<Credential>, accessTtl: int, idTtl: int, now: int) {
    && accessTtl > 0 && idTtl > 0 && life.idle > 0 && now < c.authTime + life.absolute
    && (content.Some? && content.value.accessExpiry.Some? ==> now < content.value.accessExpiry.value)
    && (content.Some? && content.value.refreshExpiry.Some? ==> now < content.value.refreshExpiry.value)
  }

  predicate Redeemable(
    db: Db, now: int, r: Redemption, client: Client, source: Source, sid: string,
    materials: seq<Option<RefreshMaterial>>, accessTtl: int, idTtl: int)
  {
    && r.code in db.flow.codes
    && var c := db.flow.codes[r.code];
    && now < c.expiresAt && Cleared(r, c, client, source)
    && if c.refreshMode == "" then accessTtl > 0 && idTtl > 0
    else
      && Startable(db.flow, r.code, c, client, source, accessTtl, idTtl, now)
      && sid !in db.families.grants && NewHandle(materials, db.families.tokens, 0)
  }

  // The code can start a family: its credential is there exactly if the connector keeps one.
  predicate Startable(
    f: Flow, code: string, c: AuthCode, client: Client, source: Source, accessTtl: int, idTtl: int, now: int)
  {
    var loaded := StillKept(f, code, c, now);
    && (loaded.Some? <==> source.kind != Some("email")) && Openable(code, c, loaded)
    && Ahead(c, LifetimeOf(client, c.refreshMode), ContentOf(code, c, loaded), accessTtl, idTtl, now)
  }

  // The box kept with the code for its client and connector, until it expires.
  function StillKept(f: Flow, code: string, c: AuthCode, now: int): Option<TemporaryBox> {
    if code in f.credentials && f.credentials[code].clientId == c.clientId
       && f.credentials[code].connectorId == c.connectorId && now < f.credentials[code].expiresAt
    then Some(f.credentials[code].box) else None
  }

  function Kept(loaded: Result<TemporaryBox, StoreError>): Option<TemporaryBox> {
    if loaded.Ok? then Some(loaded.value) else None
  }

  class Endpoint {
    const store: Store
    const accessTtl: int
    const idTtl: int
    var moves: seq<Move>
    var now: int
    ghost var met: seq<Meeting>

    constructor (store: Store, accessTtl: int, idTtl: int, moves: seq<Move>, now: int)
      ensures this.store == store && this.moves == moves && this.now == now
      ensures this.accessTtl == accessTtl && this.idTtl == idTtl
    {
      this.store, this.accessTtl, this.idTtl, this.moves, this.now := store, accessTtl, idTtl, moves, now;
      met := [];
    }

    // Time passes and the others leave the database as they please.
    method Elsewhere() returns (fails: bool)
      modifies this, store
      ensures now >= old(now)
      ensures met == old(met) + [Meeting(old(store.Snapshot()), store.Snapshot())]
      ensures Waited(old(store.Snapshot()), old(moves), met, |old(met)|, store.Snapshot(), moves)
      ensures old(moves) == [] ==> moves == [] && now == old(now) && !fails && store.Snapshot() == old(store.Snapshot())
    {
      ghost var before := store.Snapshot();
      fails := false;
      if moves != [] {
        var move := moves[0];
        moves := moves[1..];
        now := now + move.elapsed;
        store.Restore(move.db);
        fails := move.fails;
      }
      met := met + [Meeting(before, store.Snapshot())];
    }

    // The credential kept with the code, if it may be used to renew anything.
    method Open(code: string, c: AuthCode, loaded: TemporaryBox) returns (r: Result<Credential, Refusal>)
      ensures r.Ok? <==> Openable(code, c, Some(loaded))
      ensures r.Ok? ==> ContentOf(code, c, Some(loaded)) == Some(r.value)
    {
      var content := DecryptTemporaryCredential(code, c.clientId, c.connectorId, loaded);
      if content.None? {
        return Err(BadCode);
      }
      var credential := content.value;
      if credential.refreshToken == "" && credential.accessExpiry.None? && !credential.accessNonExpiring {
        return Err(BadCode);
      }
      return Ok(credential);
    }

    // A family ends with an upstream login that cannot be renewed, and with its refresh token.
    static function Lowered(absolute: int, content: Option<Credential>): (r: int)
      ensures r <= absolute
      ensures r == absolute
              || (content.Some? && (content.value.refreshExpiry == Some(r) || content.value.accessExpiry == Some(r)))
      ensures content.Some? && content.value.refreshExpiry.Some? ==> r <= content.value.refreshExpiry.value
      ensures content.Some? && content.value.refreshToken == "" && content.value.accessExpiry.Some? ==>
        r <= content.value.accessExpiry.value
    {
      if content.None? then absolute
      else
        var credential := content.value;
        var login :=
          if credential.accessExpiry.Some? && credential.refreshToken == "" then
            Min(absolute, credential.accessExpiry.value)
          else absolute;
        if credential.refreshExpiry.Some? then Min(login, credential.refreshExpiry.value) else login
    }

    // The new family and the token expiries: each is lowered to what the session, the upstream
    // login and the refresh token allow, and must still lie ahead.
    method Plan(
      code: string, c: AuthCode, source: Source, life: Lifetime, sid: string, loaded: Option<TemporaryBox>,
      m: RefreshMaterial)
      returns (p: Result<Preparation, Refusal>)
      requires c.refreshMode != "" && (loaded.Some? <==> source.kind != Some("email"))
      ensures p.Ok? ==> Ready(p.value, c, m, life, source, sid, now)
      ensures p.Ok? ==>
        && p.value.grant.Some? && now < p.value.access && now < p.value.idToken
        && now < p.value.grant.value.absoluteExpiry
      ensures p.Ok? <==>
        Openable(code, c, loaded) && Ahead(c, life, ContentOf(code, c, loaded), accessTtl, idTtl, now)
      ensures p.Ok? ==>
        var g := p.value.grant.value;
        && p.value.content == ContentOf(code, c, loaded)
        && g.absoluteExpiry == Lowered(c.authTime + life.absolute, p.value.content)
        && Timetabled(p.value, life, accessTtl, idTtl, now)
    {
      NoContent(code, c);
      hide ContentOf, Lowered;
      var content: Option<Credential> := None;
      if loaded.Some? {
        var unsealed := Open(code, c, loaded.value);
        if unsealed.Err? {
          return Err(unsealed.error);
        }
        content := Some(unsealed.value);
      }
      var absolute := Lowered(c.authTime + life.absolute, content);
      var expiry := now + life.idle;
      if expiry > absolute {
        expiry := absolute;
      }
      var access, idToken := now + accessTtl, now + idTtl;
      if content.Some? && content.value.accessExpiry.Some? {
        access := Min(access, content.value.accessExpiry.value);
        idToken := Min(idToken, content.value.accessExpiry.value);
      }
      if access > expiry {
        access := expiry;
      }
      if idToken > expiry {
        idToken := expiry;
      }
      if expiry <= now || access <= now || idToken <= now {
        return Err(BadCode);
      }
      var box := if content.None? then None else Some(Sealed(m.secret, sid, c.clientId, c.connectorId, content));
      var g := NewGrant(sid, ProfileOf(c, life.idle), box, UpstreamOf(content), absolute);
      return Ok(Preparation(Some(g), content, access, idToken));
    }

    // The checks between reading the code and preparing its tokens, in order.
    static function Objection(
      r: Redemption, c: AuthCode, policy: Answer, client: Client, source: Source, user: Answer): Option<Refusal> {
      if !CodeAnswers(c, r) then Some(BadCode)
      else if policy != Yes then Some(if policy == No then BadCode else Unavailable)
      else if (client.requirePar && !c.pushed) || !client.acceptsBinding then Some(BadCode)
      else if c.dpopJkt == "" && client.proof != NoProof then Some(BadRequest)
      else if c.dpopJkt != "" && (!client.proof.OneProof? || client.proof.key.None?) then Some(BadProof)
      else if c.dpopJkt != "" && client.proof.key != Some(c.dpopJkt) then Some(BadCode)
      else if c.dpopJkt != "" && !client.proof.reserved then Some(BadProof)
      else if c.refreshMode != "" && (!client.refreshEnabled || source.kind.None?
                                      || (c.refreshMode == "offline"
                                        && (!client.allowOffline || !c.offlineConsent))) then Some(BadCode)
      else if c.refreshMode != "" && source.kind != Some("email") && !source.running then Some(BadCode)
      else if user != Yes then Some(if user == No then AccessDenied else Unavailable)
      else None
    }

    // The tokens' expiries, the family and its first material, as far as the code asks for one.
    method Prepare(
      code: string, c: AuthCode, client: Client, source: Source, sid: string, materials: seq<Option<RefreshMaterial>>,
      signs: bool, fails: bool) returns (p: Result<(Preparation, RefreshMaterial), Refusal>)
      requires |materials| == MAX_MATERIAL_ATTEMPTS
      ensures p.Ok? ==> Ready(p.value.0, c, p.value.1, LifetimeOf(client, c.refreshMode), source, sid, now)
      ensures p.Ok? ==> Timetabled(p.value.0, LifetimeOf(client, c.refreshMode), accessTtl, idTtl, now)
      ensures p.Ok? && p.value.0.grant.Some? ==> p.value.0.content == KeptWith(store.FlowNow(), code, c, source)
      ensures p.Ok? ==> signs && Drafted(c, p.value.0, p.value.1, materials, accessTtl, idTtl, now)
      ensures !fails ==>
        (p.Ok? <==>
           && signs
           && (c.refreshMode != "" ==>
                 && Startable(store.FlowNow(), code, c, client, source, accessTtl, idTtl, now) && materials[0].Some?))
    {
      hide Ready, Openable, ContentOf, Ahead, FlowTables.LoadFlowCredential;
      var life := LifetimeOf(client, c.refreshMode);
      var prepared, material := Preparation(None, None, now + accessTtl, now + idTtl), EMPTY_MATERIAL;
      if c.refreshMode != "" {
        var loaded := store.LoadFlowCredential(code, c.clientId, c.connectorId, now);
        if fails {
          return Err(Unavailable);
        }
        KeptContent(store.FlowNow(), code, c, source, now);
        if loaded.Ok? == (source.kind == Some("email")) {
          return Err(BadCode);
        }
        if materials[0].None? {
          return Err(ServerError);
        }
        material := materials[0].value;
        var planned := Plan(code, c, source, life, sid, Kept(loaded), material);
        if planned.Err? {
          return Err(planned.error);
        }
        prepared := planned.value;
      } else {
        NothingPlanned(prepared, c, material, life, source, sid, now);
      }
      if !signs {
        return Err(ServerError);
      }
      return Ok((prepared, material));
    }

    // The whole handler. last is the database as the others left it in their last turn. Before it
    // this request changed nothing, after it a refusal changes nothing, and tokens mean that the
    // code was spent there; left alone, it gives tokens exactly if the code is good for them.
    method ExchangeCode(
      r: Redemption, policy: Answer, client: Client, source: Source, user: Answer, sid: string,
      materials: seq<Option<RefreshMaterial>>, signs: bool) returns (o: Reply, ghost last: Db, ghost stored: AuthCode)
      requires |materials| == MAX_MATERIAL_ATTEMPTS
      modifies this, store
      ensures old(met) <= met && Waited(old(store.Snapshot()), old(moves), met, |old(met)|, last, moves)
      ensures o.Refused? ==> store.Snapshot() == last
      ensures o.Tokens? ==> Redeemed(last, store.Snapshot(), r, stored, client, source, o, now)
      ensures o.Tokens? ==> policy == Yes && user == Yes && signs && old(now) <= now < Min(o.accessExpiry, o.idExpiry)
      // The expiries follow from one reading of the clock, and the family keeps the credential
      // that was there for the code when the tokens were prepared, after the others' second turn.
      ensures o.Tokens? ==>
        exists t ::
          && old(now) <= t <= now
          && Dated(store.Snapshot(), o, LifetimeOf(client, stored.refreshMode), accessTtl, idTtl, t)
      ensures o.Tokens? && o.refresh.Some? ==>
        && |met| > |old(met)| + 1
        && OpenedBy(store.Snapshot(), o, stored) == KeptWith(met[|old(met)| + 1].theirs.flow, r.code, stored, source)
      ensures old(moves) == [] ==>
        (o.Tokens? <==>
           && policy == Yes && user == Yes && signs
           && Redeemable(old(store.Snapshot()), old(now), r, client, source, sid, materials, accessTtl, idTtl))
    {
      hide Timetabled, Dated, OpenedBy, KeptWith, LifetimeOf, Drafted;
      hide Redeemed, Ready, Startable, Cleared, Objection, NewHandle, Waited, Redeemable, Prospect, Taken;
      ghost var scheduled, start := moves, store.Snapshot();
      var fails := Elsewhere();
      last, stored := store.Snapshot(), NO_CODE;
      var peeked := store.PeekAuthCode(r.code, now);
      RedeemableNeeds(last, now, r, client, source, sid, materials, accessTtl, idTtl);
      if peeked.Err? || fails {
        return Refused(if fails then Unavailable else BadCode), last, stored;
      }
      var c := peeked.value;
      stored := c;
      var objection := Objection(r, c, policy, client, source, user);
      NoObjection(r, c, policy, client, source, user);
      if objection.Some? {
        return Refused(objection.value), last, stored;
      }
      ghost var earlier, rest, between := met, moves, last;
      fails := Elsewhere();
      last := store.Snapshot();
      TurnsJoin(start, scheduled, earlier, between, rest, met, |old(met)|, last, moves);
      var prepared := Prepare(r.code, c, client, source, sid, materials, signs, fails);
      if prepared.Err? {
        return Refused(prepared.error), last, stored;
      }
      var (p, material) := prepared.value;
      ghost var t := now;
      if scheduled == [] {
        RedeemableExact(start, now, r, c, client, source, sid, materials, accessTtl, idTtl, p, material);
      }
      earlier, rest, between := met, moves, last;
      o, last := Spend(r, c, client, source, sid, p, materials, material, now);
      TurnsJoin(start, scheduled, earlier, between, rest, met, |old(met)|, last, moves);
      if o.Tokens? {
        DatedAsPrepared(store.Snapshot(), o, c, p, LifetimeOf(client, c.refreshMode), accessTtl, idTtl, t);
      }
    }

    // One attempt to spend the code, after a turn of the others.
    method TrySpend(
      r: Redemption, c: AuthCode, client: Client, source: Source, sid: string, p: Preparation,
      material: RefreshMaterial, issuedAt: int) returns (o: Result<Reply, StoreError>, ghost last: Db)
      requires issuedAt <= now && Objection(r, c, Yes, client, source, Yes).None?
      requires Ready(p, c, material, LifetimeOf(client, c.refreshMode), source, sid, issuedAt)
      modifies this, store
      ensures now >= old(now) && |met| == |old(met)| + 1 && old(met) <= met
      ensures Waited(old(store.Snapshot()), old(moves), met, |old(met)|, last, moves) && met[|old(met)|].theirs == last
      ensures o.Err? ==> store.Snapshot() == last
      ensures o.Ok? ==> Redeemed(last, store.Snapshot(), r, c, client, source, o.value, now)
      ensures o.Ok? && p.grant.Some? ==> AsPrepared(store.Snapshot(), o.value, c, p)
      ensures o.Ok? ==> o.value == Handed(p, material) && now < p.access && now < p.idToken
      ensures o == Err(RefreshCollision) ==> material.handleHash in last.families.tokens
      ensures old(moves) == [] ==>
        && moves == [] && now == old(now) && last == old(store.Snapshot())
        && (o.Ok? <==> Sound(last, r, c, p, sid, now) && (p.grant.Some? ==>
          material.handleHash !in last.families.tokens))
        && (o == Err(RefreshCollision) <==>
              Sound(last, r, c, p, sid, now) && p.grant.Some? && material.handleHash in last.families.tokens)
    {
      hide Redeemed, Database.ConsumeAuthCode, CodeMatches, Objection, Waited;
      var fails := Elsewhere();
      last := store.Snapshot();
      if p.access <= now || p.idToken <= now {
        return Err(InvalidGrant), last;
      }
      if fails {
        return Err(Storage), last;
      }
      Installed(last, r, c, p, material, now, client, source, sid, issuedAt);
      SpendingExact(last, r.code, c, BindingOf(r), p.grant, material, now);
      var consumed := store.ConsumeAuthCode(r.code, c, BindingOf(r), p.grant, material, now);
      if consumed.Err? {
        return Err(consumed.error), last;
      }
      return Ok(Handed(p, material)), last;
    }

    // The last loop: spend the code, with new refresh material after each handle collision.
    method Spend(
      r: Redemption, c: AuthCode, client: Client, source: Source, sid: string, prepared: Preparation,
      materials: seq<Option<RefreshMaterial>>, initial: RefreshMaterial, issuedAt: int)
      returns (o: Reply, ghost last: Db)
      requires |materials| == MAX_MATERIAL_ATTEMPTS && issuedAt <= now
      requires Objection(r, c, Yes, client, source, Yes).None?
      requires Ready(prepared, c, initial, LifetimeOf(client, c.refreshMode), source, sid, issuedAt)
      modifies this, store
      ensures old(met) <= met && Waited(old(store.Snapshot()), old(moves), met, |old(met)|, last, moves)
      ensures forall i :: |old(met)| <= i < |met| - 1 ==> Taken(met[i].theirs.families.tokens, initial, materials)
      ensures o.Refused? ==> store.Snapshot() == last
      ensures o.Tokens? ==> o.accessExpiry == prepared.access && o.idExpiry == prepared.idToken
      ensures o.Tokens? && prepared.grant.Some? ==> AsPrepared(store.Snapshot(), o, c, prepared)
      ensures o.Tokens? ==> (o.refresh.Some? <==> prepared.grant.Some?)
      ensures o.Tokens? ==> Redeemed(last, store.Snapshot(), r, c, client, source, o, now)
      ensures o.Tokens? ==> old(now) <= now < Min(o.accessExpiry, o.idExpiry)
      ensures old(moves) == [] ==>
        (o.Tokens? <==> Prospect(old(store.Snapshot()), r, c, prepared, sid, old(now), initial, materials))
    {
      hide Redeemed, Ready, CodeMatches, Objection, Waited, Sound, NewHandle, Taken, LifetimeOf,
        StateStore.Store.Snapshot;
      ghost var scheduled, start := moves, store.Snapshot();
      ghost var earlier, rest, before := met, moves, start;
      var attempted;
      attempted, last := TrySpend(r, c, client, source, sid, prepared, initial, issuedAt);
      OneTaken(last.families.tokens, initial, materials, 0);
      var p, material, attempt := prepared, initial, 0;
      while attempted == Err(RefreshCollision) && attempt + 1 < MAX_MATERIAL_ATTEMPTS && materials[attempt + 1].Some?
        invariant attempt < MAX_MATERIAL_ATTEMPTS && issuedAt <= now && old(now) <= now
        invariant Ready(p, c, material, LifetimeOf(client, c.refreshMode), source, sid, issuedAt)
        invariant SameButSeal(prepared, p)
        invariant old(met) < met && Waited(start, scheduled, met, |old(met)|, last, moves)
        invariant forall i :: |old(met)| <= i < |met| - 1 ==> Taken(met[i].theirs.families.tokens, initial, materials)
        invariant met[|met| - 1].theirs == last
        invariant attempted == Err(RefreshCollision) ==> Taken(last.families.tokens, initial, materials)
        invariant attempted.Err? ==> store.Snapshot() == last
        invariant attempted.Ok? ==>
          && attempted.value.Tokens? && now < Min(attempted.value.accessExpiry, attempted.value.idExpiry)
          && attempted.value.accessExpiry == prepared.access && attempted.value.idExpiry == prepared.idToken
          && (attempted.value.refresh.Some? <==> prepared.grant.Some?)
        invariant attempted.Ok? ==> Redeemed(last, store.Snapshot(), r, c, client, source, attempted.value, now)
        invariant attempted.Ok? && prepared.grant.Some? ==>
          AsPrepared(store.Snapshot(), attempted.value, c, prepared)
        invariant scheduled == [] ==> moves == [] && now == old(now) && last == start
        invariant scheduled == [] && attempted != Err(RefreshCollision) ==>
          (attempted.Ok? <==> Prospect(start, r, c, prepared, sid, now, initial, materials))
        invariant scheduled == [] && attempted == Err(RefreshCollision) ==>
          (Prospect(start, r, c, prepared, sid, now, initial, materials) <==>
             NewHandle(materials, start.families.tokens, attempt + 1))
        decreases MAX_MATERIAL_ATTEMPTS - attempt
      {
        NextHandle(materials, start.families.tokens, attempt + 1);
        attempt := attempt + 1;
        Resealed(p, c, material, LifetimeOf(client, c.refreshMode), source, sid, issuedAt, materials[attempt].value);
        material := materials[attempt].value;
        if p.grant.Some? && p.content.Some? {
          p := p.(grant := Some(p.grant.value.(
            credential := Some(Sealed(material.secret, sid, c.clientId, c.connectorId, p.content)))));
        }
        SealAside(start, r, c, prepared, p, sid, now);
        earlier, rest, before := met, moves, last;
        attempted, last := TrySpend(r, c, client, source, sid, p, material, issuedAt);
        OneTaken(last.families.tokens, initial, materials, attempt);
        TurnsJoin(start, scheduled, earlier, before, rest, met, |old(met)|, last, moves);
      }
      NextHandle(materials, start.families.tokens, attempt + 1);
      if attempted.Ok? {
        return attempted.value, last;
      }
      return Refused(if attempted.error == InvalidGrant then BadCode else Unavailable), last;
    }
  }

  // What is prepared, as far as spending the code depends on it.
  predicate Drafted(
    c: AuthCode, p: Preparation, m: RefreshMaterial, materials: seq<Option<RefreshMaterial>>, accessTtl: int,
    idTtl: int,
    now: int)
  {
    if c.refreshMode == "" then p == Preparation(None, None, now + accessTtl, now + idTtl)
    else |materials| > 0 && materials[0] == Some(m) && p.grant.Some? && now < p.access && now < p.idToken
  }

  // A code that can be redeemed is there, cleared, and can start its family if it asks for one.
  lemma RedeemableNeeds(
    db: Db, now: int, r: Redemption, client: Client, source: Source, sid: string,
    materials: seq<Option<RefreshMaterial>>, accessTtl: int, idTtl: int)
    ensures Redeemable(db, now, r, client, source, sid, materials, accessTtl, idTtl) ==>
      var peeked := FlowTables.PeekAuthCode(db.flow, r.code, now);
      && peeked.Ok? && Cleared(r, peeked.value, client, source)
      && (peeked.value.refreshMode != "" ==>
            && Startable(db.flow, r.code, peeked.value, client, source, accessTtl, idTtl, now)
            && |materials| > 0 && materials[0].Some?)
  {
    NextHandle(materials, db.families.tokens, 0);
  }

  lemma RedeemableExact(
    db: Db, now: int, r: Redemption, c: AuthCode, client: Client, source: Source, sid: string,
    materials: seq<Option<RefreshMaterial>>, accessTtl: int, idTtl: int, p: Preparation, m: RefreshMaterial)
    requires FlowTables.PeekAuthCode(db.flow, r.code, now) == Ok(c) && Cleared(r, c, client, source)
    requires c.refreshMode != "" ==> Startable(db.flow, r.code, c, client, source, accessTtl, idTtl, now)
    requires Drafted(c, p, m, materials, accessTtl, idTtl, now)
    ensures Prospect(db, r, c, p, sid, now, m, materials) <==>
      Redeemable(db, now, r, client, source, sid, materials, accessTtl, idTtl)
  {
    NextHandle(materials, db.families.tokens, 0);
    hide Startable, NewHandle;
  }

  // The code still matches and nothing that limits its tokens has ended.
  predicate Sound(db: Db, r: Redemption, c: AuthCode, p: Preparation, sid: string, now: int) {
    && CodeMatches(db.flow, r.code, c, BindingOf(r), now) && now < p.access && now < p.idToken
    && (p.grant.Some? ==> sid !in db.families.grants)
  }

  // Left alone, the attempts lead to tokens.
  predicate Prospect(
    db: Db, r: Redemption, c: AuthCode, p: Preparation, sid: string, now: int, initial: RefreshMaterial,
    materials: seq<Option<RefreshMaterial>>)
  {
    && Sound(db, r, c, p, sid, now)
    && (p.grant.Some? ==>
          initial.handleHash !in db.families.tokens || NewHandle(materials, db.families.tokens, 1))
  }

  predicate SameButSeal(p: Preparation, q: Preparation) {
    && q.access == p.access && q.idToken == p.idToken && q.content == p.content && (q.grant.Some? <==> p.grant.Some?)
    && (p.grant.Some? ==>
          && q.grant.value.absoluteExpiry == p.grant.value.absoluteExpiry
          && q.grant.value.upstream == p.grant.value.upstream)
  }

  lemma SealAside(db: Db, r: Redemption, c: AuthCode, p: Preparation, q: Preparation, sid: string, now: int)
    requires SameButSeal(p, q)
    ensures Sound(db, r, c, p, sid, now) == Sound(db, r, c, q, sid, now)
  {
  }

  const NO_CODE := AuthCode("", "", "", "", false, "", 0, 0, "", "", 0, "", "", false, "", false)
}
